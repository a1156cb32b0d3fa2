/**
 * The core `OpenAIEndpoint` (OpenAISwift/Core/OpenAIEndpoint.swift): the
 * routing table the request pipelines use, with paths relative to the base
 * URL ("chat/completions"), and `url(baseURL:)`.
 */
module CoreEndpoint {
  import opened Wrappers
  import opened Text
  import opened Http
  import PublicEndpoint

  datatype Endpoint =
    | ChatCompletions
    | Embeddings
    | ImageGenerations | ImageEdits | ImageVariations
    | AudioTranscriptions | AudioTranslations
    | Files
    | FineTunes | FineTuneEvents(fineTuneId: string)
    | Completions
    | Models | Model(modelId: string)
    | Moderations
    | Assistants | Assistant(assistantId: string)
    | RealTimeSessions

  /** `method`: GET for the four reads, POST for everything else. */
  function Method(e: Endpoint): (m: HttpMethod)
    ensures m == Get || m == Post
    ensures m == Get <==> e.Models? || e.Model? || e.FineTuneEvents? || e.Assistant?
  {
    match e
    case ChatCompletions | Embeddings | ImageGenerations | ImageEdits | ImageVariations
      | AudioTranscriptions | AudioTranslations | Moderations | Files | FineTunes
      | Completions | Assistants | RealTimeSessions => Post
    case Models | Model(_) | FineTuneEvents(_) | Assistant(_) => Get
  }

  /**
   * The pieces of an endpoint's path between its '/' separators: fixed
   * resource names and, where the endpoint carries one, the identifier
   * embedded verbatim.
   */
  function Segments(e: Endpoint): (segs: seq<string>)
    ensures |segs| > 0 && segs[0] != [] && segs[0][0] != '/'
  {
    match e
    case ChatCompletions => ["chat", "completions"]
    case Embeddings => ["embeddings"]
    case ImageGenerations => ["images", "generations"]
    case ImageEdits => ["images", "edits"]
    case ImageVariations => ["images", "variations"]
    case AudioTranscriptions => ["audio", "transcriptions"]
    case AudioTranslations => ["audio", "translations"]
    case Files => ["files"]
    case FineTunes => ["fine-tunes"]
    case FineTuneEvents(id) => ["fine-tunes", id, "events"]
    case Completions => ["completions"]
    case Models => ["models"]
    case Model(id) => ["models", id]
    case Moderations => ["moderations"]
    case Assistants => ["assistants"]
    case Assistant(id) => ["assistants", id]
    case RealTimeSessions => ["sessions"]
  }

  /** `path`: the segments with '/' between neighbours, relative to the base URL. */
  function Path(e: Endpoint): (p: string)
    ensures p != [] && !HasPrefix(p, "/")
  {
    var segs := Segments(e);
    JoinStartsWithFirst(segs, '/');
    Join(segs, '/')
  }

  /**
   * `url(baseURL:)`: the base URL with the path appended as a path component.
   * The ensures are the closed form of `AppendPathComponent` for a path that,
   * by `Path`'s contract, never starts with '/'.
   */
  function Url(e: Endpoint, baseURL: string): (url: string)
    ensures HasSuffix(baseURL, "/") ==> url == baseURL + Path(e)
    ensures !HasSuffix(baseURL, "/") ==> url == baseURL + "/" + Path(e)
  {
    AppendPathComponent(baseURL, Path(e))
  }

  /** The identifiers an endpoint carries. */
  function Ids(e: Endpoint): seq<string> {
    match e
    case FineTuneEvents(id) => [id]
    case Model(id) => [id]
    case Assistant(id) => [id]
    case _ => []
  }

  predicate IdsWithoutSlash(e: Endpoint) {
    forall i :: 0 <= i < |Ids(e)| ==> '/' !in Ids(e)[i]
  }

  /** The server side of the table: which endpoint a list of path segments names. */
  function FromSegments(segs: seq<string>): Option<Endpoint> {
    if |segs| == 1 then
      if segs[0] == "embeddings" then Some(Embeddings)
      else if segs[0] == "files" then Some(Files)
      else if segs[0] == "fine-tunes" then Some(FineTunes)
      else if segs[0] == "completions" then Some(Completions)
      else if segs[0] == "models" then Some(Models)
      else if segs[0] == "moderations" then Some(Moderations)
      else if segs[0] == "assistants" then Some(Assistants)
      else if segs[0] == "sessions" then Some(RealTimeSessions)
      else None
    else if |segs| == 2 then
      if segs[0] == "chat" && segs[1] == "completions" then Some(ChatCompletions)
      else if segs[0] == "images" && segs[1] == "generations" then Some(ImageGenerations)
      else if segs[0] == "images" && segs[1] == "edits" then Some(ImageEdits)
      else if segs[0] == "images" && segs[1] == "variations" then Some(ImageVariations)
      else if segs[0] == "audio" && segs[1] == "transcriptions" then Some(AudioTranscriptions)
      else if segs[0] == "audio" && segs[1] == "translations" then Some(AudioTranslations)
      else if segs[0] == "models" then Some(Model(segs[1]))
      else if segs[0] == "assistants" then Some(Assistant(segs[1]))
      else None
    else if |segs| == 3 then
      if segs[0] == "fine-tunes" && segs[2] == "events" then Some(FineTuneEvents(segs[1]))
      else None
    else None
  }

  /** Routes a relative path back to the endpoint it names. */
  function Route(path: string): Option<Endpoint> {
    FromSegments(Split(path, '/'))
  }

  lemma SegmentsRoundTrip(e: Endpoint)
    ensures FromSegments(Segments(e)) == Some(e)
  {
  }

  lemma SegmentsWithoutSlash(e: Endpoint)
    requires IdsWithoutSlash(e)
    ensures forall i :: 0 <= i < |Segments(e)| ==> '/' !in Segments(e)[i]
  {
    if Ids(e) != [] {
      assert '/' !in Ids(e)[0];
    }
  }

  /**
   * Every endpoint whose identifier holds no '/' is routed back to itself
   * from its path, so no two such endpoints share a path.
   */
  lemma RouteInvertsPath(e: Endpoint)
    requires IdsWithoutSlash(e)
    ensures Route(Path(e)) == Some(e)
  {
    SegmentsWithoutSlash(e);
    SplitJoin(Segments(e), '/');
    SegmentsRoundTrip(e);
  }

  lemma PathInjective(e1: Endpoint, e2: Endpoint)
    requires IdsWithoutSlash(e1) && IdsWithoutSlash(e2)
    requires Path(e1) == Path(e2)
    ensures e1 == e2
  {
    RouteInvertsPath(e1);
    RouteInvertsPath(e2);
  }

  /** The chat route with the default base URL is the address the service documents. */
  lemma DefaultChatCompletionsUrl()
    ensures Method(ChatCompletions) == Post
    ensures Url(ChatCompletions, DefaultBaseURL) == "https://api.openai.com/v1/chat/completions"
  {
    JoinTwo("chat", "completions", '/');
    assert !HasSuffix(DefaultBaseURL, "/") by {
      assert DefaultBaseURL[|DefaultBaseURL| - 1] == '1';
    }
    assert "chat" + ['/'] + "completions" == "chat/completions";
    assert DefaultBaseURL + "/" + "chat/completions" == "https://api.openai.com/v1/chat/completions";
  }

  /** Identified routes embed the identifier verbatim. */
  lemma IdentifiedRoutes(id: string)
    ensures Path(Model(id)) == "models/" + id
    ensures Path(Assistant(id)) == "assistants/" + id
    ensures Path(FineTuneEvents(id)) == "fine-tunes/" + id + "/events"
  {
    JoinTwo("models", id, '/');
    assert "models" + ['/'] == "models/";
    JoinTwo("assistants", id, '/');
    assert "assistants" + ['/'] == "assistants/";
    JoinThree("fine-tunes", id, "events", '/');
    assert "fine-tunes" + ['/'] == "fine-tunes/";
    assert ['/'] + "events" == "/events";
  }

  /** Real-time sessions are created with a POST to `sessions`. */
  lemma RealTimeSessionsRoute()
    ensures Method(RealTimeSessions) == Post && Path(RealTimeSessions) == "sessions"
  {
  }

  /**
   * The route of the public table that names the same resource, for the
   * endpoints both tables know.
   */
  function PublicCounterpart(e: Endpoint): Option<PublicEndpoint.Endpoint> {
    match e
    case ChatCompletions => Some(PublicEndpoint.ChatCompletions)
    case Embeddings => Some(PublicEndpoint.Embeddings)
    case ImageGenerations => Some(PublicEndpoint.ImageGenerations)
    case ImageEdits => Some(PublicEndpoint.ImageEdits)
    case ImageVariations => Some(PublicEndpoint.ImageVariations)
    case AudioTranscriptions => Some(PublicEndpoint.AudioTranscriptions)
    case AudioTranslations => Some(PublicEndpoint.AudioTranslations)
    case Files => Some(PublicEndpoint.Files)
    case Moderations => Some(PublicEndpoint.Moderations)
    case Assistants => Some(PublicEndpoint.Assistants)
    case Assistant(id) => Some(PublicEndpoint.Assistant(id))
    case _ => None
  }

  /**
   * Where both tables name a resource, the public path is the relative path
   * with a leading '/', so both give the same URL under any base; the methods
   * agree except on a single assistant, which the core table reads (GET) and
   * the public table deletes (DELETE).
   */
  lemma SharedRoutesAgree(e: Endpoint, baseURL: string)
    requires PublicCounterpart(e).Some?
    ensures PublicEndpoint.Path(PublicCounterpart(e).value) == "/" + Path(e)
    ensures AppendPathComponent(baseURL, PublicEndpoint.Path(PublicCounterpart(e).value)) == Url(e, baseURL)
    ensures e.Assistant? ==> Method(e) == Get && PublicEndpoint.Method(PublicCounterpart(e).value) == Delete
    ensures !e.Assistant? ==> Method(e) == PublicEndpoint.Method(PublicCounterpart(e).value)
  {
    var p := PublicCounterpart(e).value;
    assert PublicEndpoint.Segments(p) == Segments(e);
    var publicPath := PublicEndpoint.Path(p);
    assert HasPrefix(publicPath, "/");
    assert publicPath[1..] == Path(e);
  }
}
