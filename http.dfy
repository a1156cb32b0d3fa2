/**
 * The HTTP vocabulary shared by both request pipelines: methods and their raw
 * values, the 2xx status class, the client configuration, the request that is
 * built and the response that comes back.
 */
module Http {
  import opened Wrappers
  import opened Text

  newtype byte = x: int | 0 <= x < 256

  /** Swift's `Data`: a response body or an encoded request body. */
  type Bytes = seq<byte>

  /** Swift's `TimeInterval` (a `Double`), only ever copied here. */
  type TimeInterval = real

  /** `HTTPMethod`, a `String`-backed enum. */
  datatype HttpMethod = Get | Post | Delete | Put | Patch {

    /** The enum's `rawValue`, the token written on the request line. */
    function RawValue(): (r: string)
      ensures |r| > 0
      ensures forall i :: 0 <= i < |r| ==> 'A' <= r[i] <= 'Z'
    {
      match this
      case Get => "GET"
      case Post => "POST"
      case Delete => "DELETE"
      case Put => "PUT"
      case Patch => "PATCH"
    }
  }

  /** The enum's synthesized `init?(rawValue:)`. */
  function MethodFromRawValue(s: string): (m: Option<HttpMethod>)
    ensures m.Some? ==> m.value.RawValue() == s
  {
    if s == "GET" then Some(Get)
    else if s == "POST" then Some(Post)
    else if s == "DELETE" then Some(Delete)
    else if s == "PUT" then Some(Put)
    else if s == "PATCH" then Some(Patch)
    else None
  }

  /** Every method is recovered from its raw value, so the raw values are pairwise distinct. */
  lemma RawValueRoundTrip(m: HttpMethod)
    ensures MethodFromRawValue(m.RawValue()) == Some(m)
  {
  }

  /** The success class of RFC 9110, section 15.3: the statuses `(200...299).contains` accepts. */
  predicate IsSuccessStatus(status: int) {
    200 <= status <= 299
  }

  /**
   * Foundation's `URL.appendingPathComponent`: the component is joined to the
   * base with exactly one '/' between them.
   */
  function AppendPathComponent(base: string, component: string): string {
    var tail := if HasPrefix(component, "/") then component[1..] else component;
    if HasSuffix(base, "/") then base + tail else base + "/" + tail
  }

  /** `OpenAIConfiguration`. */
  datatype Configuration = Configuration(
    apiKey: string,
    organization: Option<string>,
    baseURL: string,
    timeoutInterval: TimeInterval)

  const DefaultBaseURL: string := "https://api.openai.com/v1"
  const DefaultTimeoutInterval: TimeInterval := 60.0

  /** `OpenAIConfiguration(apiKey:)` with every other parameter defaulted. */
  function DefaultConfiguration(apiKey: string): Configuration {
    Configuration(apiKey, None, DefaultBaseURL, DefaultTimeoutInterval)
  }

  const AuthorizationField: string := "Authorization"
  const ContentTypeField: string := "Content-Type"
  const OrganizationField: string := "OpenAI-Organization"
  const AcceptField: string := "Accept"
  const JsonMediaType: string := "application/json"
  const EventStreamMediaType: string := "text/event-stream"

  /** The credentials of RFC 6750, section 2.1: the scheme `Bearer`, one space, the token. */
  function BearerCredentials(token: string): string {
    "Bearer " + token
  }

  /** The token can be read back from the credentials. */
  lemma BearerTokenRecovered(token: string)
    ensures HasPrefix(BearerCredentials(token), "Bearer ")
    ensures BearerCredentials(token)[|"Bearer "|..] == token
  {
  }

  /**
   * The headers every request of the pipelines carries: bearer authorization,
   * a JSON content type and, exactly when one is configured, the organization.
   * Nothing else.
   */
  ghost predicate CarriesDefaultHeaders(config: Configuration, headers: map<string, string>) {
    && AuthorizationField in headers && headers[AuthorizationField] == BearerCredentials(config.apiKey)
    && ContentTypeField in headers && headers[ContentTypeField] == JsonMediaType
    && (OrganizationField in headers <==> config.organization.Some?)
    && (config.organization.Some? ==> headers[OrganizationField] == config.organization.value)
    && headers.Keys <= {AuthorizationField, ContentTypeField, OrganizationField}
  }

  /** A `URLRequest` as the pipelines configure it. */
  datatype Request = Request(
    url: string,
    httpMethod: string,
    timeoutInterval: TimeInterval,
    headers: map<string, string>,
    body: Option<Bytes>)

  /** What `session.data(for:)` hands back: a response that is not an `HTTPURLResponse`, or one that is, with its body. */
  datatype Response = NotHttp | HttpResponse(statusCode: int, data: Bytes)
}
