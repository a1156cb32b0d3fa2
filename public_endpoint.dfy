/**
 * The public `OpenAIEndpoint` (OpenAISwift/Public/OpenAIEndpoint.swift): the
 * routing table with absolute paths ("/chat/completions"), covering files,
 * fine-tuning jobs and the assistants/threads API.
 */
module PublicEndpoint {
  import opened Wrappers
  import opened Text
  import opened Http

  datatype Endpoint =
    | ChatCompletions
    | Embeddings
    | ImageGenerations | ImageEdits | ImageVariations
    | AudioTranscriptions | AudioTranslations | AudioSpeech
    | Files | FileContent(fileId: string) | FileDelete(fileId: string)
    | FineTuningJobs | FineTuningJobCancel(jobId: string) | FineTuningJobEvents(jobId: string)
    | Moderations
    | Assistants | Assistant(assistantId: string) | AssistantFiles(assistantId: string)
    | Threads | Thread(threadId: string) | ThreadMessages(threadId: string)
    | ThreadRuns(threadId: string) | ThreadRunSteps(threadId: string, runId: string)

  /** `method`: DELETE for the three single-resource deletions, GET for the three reads, POST otherwise. */
  function Method(e: Endpoint): (m: HttpMethod)
    ensures m != Put && m != Patch
    ensures m == Delete <==> e.FileDelete? || e.Assistant? || e.Thread?
    ensures m == Get <==> e.FileContent? || e.FineTuningJobEvents? || e.ThreadRunSteps?
  {
    match e
    case ChatCompletions | Embeddings | ImageGenerations | ImageEdits | ImageVariations
      | AudioTranscriptions | AudioTranslations | AudioSpeech | Files | FineTuningJobs
      | Moderations | Assistants | AssistantFiles(_) | Threads | ThreadMessages(_) | ThreadRuns(_) => Post
    case FileContent(_) | FineTuningJobEvents(_) => Get
    case FileDelete(_) | Assistant(_) | Thread(_) => Delete
    case FineTuningJobCancel(_) => Post
    case ThreadRunSteps(_, _) => Get
  }

  /**
   * The pieces of an endpoint's path between its '/' separators, in order:
   * the fixed resource names and, where the endpoint carries one, the
   * identifier embedded verbatim.
   */
  function Segments(e: Endpoint): (segs: seq<string>)
    ensures |segs| > 0
  {
    match e
    case ChatCompletions => ["chat", "completions"]
    case Embeddings => ["embeddings"]
    case ImageGenerations => ["images", "generations"]
    case ImageEdits => ["images", "edits"]
    case ImageVariations => ["images", "variations"]
    case AudioTranscriptions => ["audio", "transcriptions"]
    case AudioTranslations => ["audio", "translations"]
    case AudioSpeech => ["audio", "speech"]
    case Files => ["files"]
    case FileContent(fileId) => ["files", fileId, "content"]
    case FileDelete(fileId) => ["files", fileId]
    case FineTuningJobs => ["fine_tuning", "jobs"]
    case FineTuningJobCancel(jobId) => ["fine_tuning", "jobs", jobId, "cancel"]
    case FineTuningJobEvents(jobId) => ["fine_tuning", "jobs", jobId, "events"]
    case Moderations => ["moderations"]
    case Assistants => ["assistants"]
    case Assistant(assistantId) => ["assistants", assistantId]
    case AssistantFiles(assistantId) => ["assistants", assistantId, "files"]
    case Threads => ["threads"]
    case Thread(threadId) => ["threads", threadId]
    case ThreadMessages(threadId) => ["threads", threadId, "messages"]
    case ThreadRuns(threadId) => ["threads", threadId, "runs"]
    case ThreadRunSteps(threadId, runId) => ["threads", threadId, "runs", runId, "steps"]
  }

  /** `path`: a leading '/', then the segments with '/' between neighbours. */
  function Path(e: Endpoint): (p: string)
    ensures HasPrefix(p, "/")
  {
    "/" + Join(Segments(e), '/')
  }

  /** The identifiers an endpoint carries. */
  function Ids(e: Endpoint): seq<string> {
    match e
    case FileContent(id) => [id]
    case FileDelete(id) => [id]
    case FineTuningJobCancel(id) => [id]
    case FineTuningJobEvents(id) => [id]
    case Assistant(id) => [id]
    case AssistantFiles(id) => [id]
    case Thread(id) => [id]
    case ThreadMessages(id) => [id]
    case ThreadRuns(id) => [id]
    case ThreadRunSteps(threadId, runId) => [threadId, runId]
    case _ => []
  }

  /** The server side of the table: which endpoint a list of path segments names. */
  function FromSegments(segs: seq<string>): Option<Endpoint> {
    if |segs| == 1 then
      if segs[0] == "embeddings" then Some(Embeddings)
      else if segs[0] == "files" then Some(Files)
      else if segs[0] == "moderations" then Some(Moderations)
      else if segs[0] == "assistants" then Some(Assistants)
      else if segs[0] == "threads" then Some(Threads)
      else None
    else if |segs| == 2 then
      if segs[0] == "chat" && segs[1] == "completions" then Some(ChatCompletions)
      else if segs[0] == "images" && segs[1] == "generations" then Some(ImageGenerations)
      else if segs[0] == "images" && segs[1] == "edits" then Some(ImageEdits)
      else if segs[0] == "images" && segs[1] == "variations" then Some(ImageVariations)
      else if segs[0] == "audio" && segs[1] == "transcriptions" then Some(AudioTranscriptions)
      else if segs[0] == "audio" && segs[1] == "translations" then Some(AudioTranslations)
      else if segs[0] == "audio" && segs[1] == "speech" then Some(AudioSpeech)
      else if segs[0] == "fine_tuning" && segs[1] == "jobs" then Some(FineTuningJobs)
      else if segs[0] == "files" then Some(FileDelete(segs[1]))
      else if segs[0] == "assistants" then Some(Assistant(segs[1]))
      else if segs[0] == "threads" then Some(Thread(segs[1]))
      else None
    else if |segs| == 3 then
      if segs[0] == "files" && segs[2] == "content" then Some(FileContent(segs[1]))
      else if segs[0] == "assistants" && segs[2] == "files" then Some(AssistantFiles(segs[1]))
      else if segs[0] == "threads" && segs[2] == "messages" then Some(ThreadMessages(segs[1]))
      else if segs[0] == "threads" && segs[2] == "runs" then Some(ThreadRuns(segs[1]))
      else None
    else if |segs| == 4 then
      if segs[0] == "fine_tuning" && segs[1] == "jobs" && segs[3] == "cancel" then Some(FineTuningJobCancel(segs[2]))
      else if segs[0] == "fine_tuning" && segs[1] == "jobs" && segs[3] == "events" then Some(FineTuningJobEvents(segs[2]))
      else None
    else if |segs| == 5 then
      if segs[0] == "threads" && segs[2] == "runs" && segs[4] == "steps" then Some(ThreadRunSteps(segs[1], segs[3]))
      else None
    else None
  }

  /** Routes a path back to the endpoint it names. */
  function Route(path: string): Option<Endpoint> {
    if HasPrefix(path, "/") then FromSegments(Split(path[1..], '/')) else None
  }

  lemma SegmentsRoundTrip(e: Endpoint)
    ensures FromSegments(Segments(e)) == Some(e)
  {
  }

  predicate IdsWithoutSlash(e: Endpoint) {
    forall i :: 0 <= i < |Ids(e)| ==> '/' !in Ids(e)[i]
  }

  lemma SegmentsWithoutSlash(e: Endpoint)
    requires IdsWithoutSlash(e)
    ensures forall i :: 0 <= i < |Segments(e)| ==> '/' !in Segments(e)[i]
  {
    if Ids(e) != [] {
      assert '/' !in Ids(e)[0];
    }
    if |Ids(e)| > 1 {
      assert '/' !in Ids(e)[1];
    }
  }

  /**
   * The table can be read backwards: every endpoint whose identifiers hold no
   * '/' is routed back to itself from its path, so no two such endpoints share
   * a path.
   */
  lemma RouteInvertsPath(e: Endpoint)
    requires IdsWithoutSlash(e)
    ensures Route(Path(e)) == Some(e)
  {
    var segs := Segments(e);
    SegmentsWithoutSlash(e);
    SplitJoin(segs, '/');
    SegmentsRoundTrip(e);
    var path := Path(e);
    assert path[1..] == Join(segs, '/');
    assert Route(path) == FromSegments(Split(path[1..], '/'));
  }

  lemma PathInjective(e1: Endpoint, e2: Endpoint)
    requires IdsWithoutSlash(e1) && IdsWithoutSlash(e2)
    requires Path(e1) == Path(e2)
    ensures e1 == e2
  {
    RouteInvertsPath(e1);
    RouteInvertsPath(e2);
  }

  /** Because identifiers are not escaped, an identifier containing '/' can alias another route. */
  lemma SlashInIdentifierAliases()
    ensures Path(Assistant("asst/files")) == Path(AssistantFiles("asst"))
    ensures Assistant("asst/files") != AssistantFiles("asst")
    ensures Method(Assistant("asst/files")) != Method(AssistantFiles("asst"))
  {
    JoinTwo("assistants", "asst/files", '/');
    JoinThree("assistants", "asst", "files", '/');
    assert "asst/files" == "asst" + ['/'] + "files";
  }

  /** The chat route, as the source spells it. */
  lemma ChatCompletionsRoute()
    ensures Path(ChatCompletions) == "/chat/completions"
  {
    JoinTwo("chat", "completions", '/');
  }

  /** A file's content is read at `/files/<id>/content`. */
  lemma FileContentRoute(fileId: string)
    ensures Path(FileContent(fileId)) == "/files/" + fileId + "/content"
  {
    RootedJoinThree("files", fileId, "content");
    assert "/" + "files" + "/" == "/files/";
    assert "/" + "content" == "/content";
  }

  /** A file is deleted at `/files/<id>`. */
  lemma FileDeleteRoute(fileId: string)
    ensures Path(FileDelete(fileId)) == "/files/" + fileId
  {
    JoinTwo("files", fileId, '/');
    assert "/" + ("files" + ['/'] + fileId) == ("/" + "files" + "/") + fileId;
    assert "/" + "files" + "/" == "/files/";
  }

  /** Cancelling a fine-tuning job goes to `/fine_tuning/jobs/<id>/cancel`. */
  lemma FineTuningCancelRoute(jobId: string)
    ensures Path(FineTuningJobCancel(jobId)) == "/fine_tuning/jobs/" + jobId + "/cancel"
  {
    RootedJoinFour("fine_tuning", "jobs", jobId, "cancel");
    assert "/" + "fine_tuning" + "/" + "jobs" + "/" == "/fine_tuning/jobs/";
    assert "/" + "cancel" == "/cancel";
  }

  /** A run's steps are read at `/threads/<thread>/runs/<run>/steps`. */
  lemma RunStepsRoute(threadId: string, runId: string)
    ensures Path(ThreadRunSteps(threadId, runId)) == "/threads/" + threadId + "/runs/" + runId + "/steps"
  {
    RootedJoinFive("threads", threadId, "runs", runId, "steps");
    assert "/" + "threads" + "/" == "/threads/";
    assert "/" + "runs" + "/" == "/runs/";
    assert "/" + "steps" == "/steps";
  }
}
