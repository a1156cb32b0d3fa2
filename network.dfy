/**
 * `DefaultOpenAINetwork` (OpenAISwift/Core/OpenAINetwork.swift and its
 * streaming extension in OpenAISwift/Core/OpenAIStreamingNetwork.swift): builds
 * the `URLRequest` for an endpoint, and classifies what comes back.
 *
 * The URL session is not modelled: the response to a request is a parameter
 * of the method that sends it, and the sent request is returned so that what
 * went out can be stated. JSON coding is a pair of function parameters.
 */
module Network {
  import opened Wrappers
  import opened Http
  import opened Errors
  import opened CoreEndpoint
  import opened Streaming

  /** What `session.bytes(for:)` hands back: a response that is not HTTP, or an HTTP status with the body's lines. */
  datatype StreamResponse = NotHttpStream | HttpStream(statusCode: int, lines: seq<string>)

  /** The request `configureRequest(for:)` builds: the endpoint's URL and method, the configured timeout, the default headers and no body. */
  ghost predicate IsConfigured(config: Configuration, endpoint: Endpoint, request: Request) {
    && request.url == Url(endpoint, config.baseURL)
    && request.httpMethod == Method(endpoint).RawValue()
    && request.timeoutInterval == config.timeoutInterval
    && CarriesDefaultHeaders(config, request.headers)
  }

  /**
   * The request `performStreamingRequest` sends: configured for the endpoint,
   * with `Accept: text/event-stream` added to the default headers and the
   * encoded body.
   */
  ghost predicate IsStreamingRequest(config: Configuration, endpoint: Endpoint, request: Request, body: Bytes) {
    && request.url == Url(endpoint, config.baseURL)
    && request.httpMethod == Method(endpoint).RawValue()
    && request.timeoutInterval == config.timeoutInterval
    && AcceptField in request.headers && request.headers[AcceptField] == EventStreamMediaType
    && CarriesDefaultHeaders(config, request.headers - {AcceptField})
    && request.body == Some(body)
  }

  /** The default headers are fully determined by the configuration. */
  lemma DefaultHeadersUnique(config: Configuration, h1: map<string, string>, h2: map<string, string>)
    requires CarriesDefaultHeaders(config, h1) && CarriesDefaultHeaders(config, h2)
    ensures h1 == h2
  {
    assert h1.Keys == h2.Keys;
  }

  /**
   * The three outcomes of `performRequest` once a response is in: a response
   * that is not HTTP is `invalidResponse`; a status outside 200...299 is
   * `httpError` with the status and the raw body; a 2xx body is decoded, or
   * the decoder's error is wrapped in `decodingError`.
   */
  function Classify<T>(response: Response, decode: Bytes -> Result<T, Cause>): (r: Result<T, OpenAIError>)
    ensures r.Success? <==>
      response.HttpResponse? && IsSuccessStatus(response.statusCode) && decode(response.data).Success?
    ensures r.Success? ==> decode(response.data) == Success(r.value)
    ensures response.NotHttp? <==> r == Failure(InvalidResponse)
    ensures r.Failure? && r.error.HttpError? <==>
      response.HttpResponse? && !IsSuccessStatus(response.statusCode)
    ensures r.Failure? && r.error.HttpError? ==>
      r.error.statusCode == response.statusCode && r.error.data == response.data
    ensures r.Failure? && r.error.DecodingError? ==> decode(response.data) == Failure(r.error.cause)
  {
    match response
    case NotHttp => Failure(InvalidResponse)
    case HttpResponse(status, data) =>
      if !IsSuccessStatus(status) then Failure(HttpError(status, data))
      else match decode(data)
        case Success(value) => Success(value)
        case Failure(cause) => Failure(DecodingError(cause))
  }

  /** An unauthorised request is reported with its status, not as an invalid response. */
  lemma UnauthorizedIsHttpError<T>(data: Bytes, decode: Bytes -> Result<T, Cause>)
    ensures Classify(HttpResponse(401, data), decode) == Failure(HttpError(401, data))
  {
  }

  /**
   * The outcome of a streaming request once a response is in: a response
   * that is not HTTP is `invalidResponse` and a status outside 200...299 is
   * `httpError` with no data, both before any callback; otherwise the
   * callbacks the lines make.
   */
  function StreamOutcome(response: StreamResponse, decode: ChunkDecoder): (r: Result<seq<Callback>, OpenAIError>)
    ensures r.Success? <==> response.HttpStream? && IsSuccessStatus(response.statusCode)
    ensures r.Success? ==> r.value == Callbacks(response.lines, decode)
    ensures response.NotHttpStream? <==> r == Failure(InvalidResponse)
    ensures response.HttpStream? && !IsSuccessStatus(response.statusCode) ==>
      r == Failure(HttpError(response.statusCode, []))
  {
    match response
    case NotHttpStream => Failure(InvalidResponse)
    case HttpStream(status, lines) =>
      if IsSuccessStatus(status) then Success(Callbacks(lines, decode)) else Failure(HttpError(status, []))
  }

  /** `DefaultOpenAINetwork`: a configuration; the URL session is not part of this model. */
  class DefaultOpenAINetwork {
    const configuration: Configuration

    constructor(configuration: Configuration)
      ensures this.configuration == configuration
    {
      this.configuration := configuration;
    }

    /** `defaultHeaders`: bearer authorization and JSON content type, plus the organization when one is configured. */
    method DefaultHeaders() returns (headers: map<string, string>)
      ensures CarriesDefaultHeaders(configuration, headers)
    {
      headers := map[AuthorizationField := BearerCredentials(configuration.apiKey), ContentTypeField := JsonMediaType];
      if configuration.organization.Some? {
        headers := headers[OrganizationField := configuration.organization.value];
      }
    }

    /** `configureRequest(for:)`. */
    method ConfigureRequest(endpoint: Endpoint) returns (request: Request)
      ensures IsConfigured(configuration, endpoint, request) && request.body.None?
    {
      var url := AppendPathComponent(configuration.baseURL, Path(endpoint));
      request := Request(url, "GET", configuration.timeoutInterval, map[], None);
      request := request.(httpMethod := Method(endpoint).RawValue());
      var headers := DefaultHeaders();
      request := request.(headers := headers);
    }

    /**
     * `performRequest(endpoint:body:)`: the configured request carries the
     * encoded body exactly when one is supplied, and the response is
     * classified.
     */
    method PerformRequest<B, T>(endpoint: Endpoint, body: Option<B>, encode: B -> Bytes,
                                response: Response, decode: Bytes -> Result<T, Cause>)
      returns (sent: Request, result: Result<T, OpenAIError>)
      ensures IsConfigured(configuration, endpoint, sent)
      ensures sent.body == if body.Some? then Some(encode(body.value)) else None
      ensures result == Classify(response, decode)
    {
      sent := ConfigureRequest(endpoint);
      if body.Some? {
        sent := sent.(body := Some(encode(body.value)));
      }
      result := Classify(response, decode);
    }

    /**
     * `performStreamingRequest(endpoint:body:delegate:)`: the configured
     * request also accepts an event stream and carries the encoded body;
     * the lines of a 2xx response are read into callbacks.
     */
    method PerformStreamingRequest<B>(endpoint: Endpoint, body: B, encode: B -> Bytes,
                                      response: StreamResponse, decode: ChunkDecoder)
      returns (sent: Request, result: Result<seq<Callback>, OpenAIError>)
      ensures IsStreamingRequest(configuration, endpoint, sent, encode(body))
      ensures result == StreamOutcome(response, decode)
    {
      var request := ConfigureRequest(endpoint);
      var defaults := request.headers;
      request := request.(headers := request.headers[AcceptField := EventStreamMediaType]);
      assert request.headers - {AcceptField} == defaults;
      sent := request.(body := Some(encode(body)));
      match response {
        case NotHttpStream =>
          result := Failure(InvalidResponse);
        case HttpStream(status, lines) =>
          if !IsSuccessStatus(status) {
            result := Failure(HttpError(status, []));
          } else {
            var callbacks := ReadLines(lines, decode);
            result := Success(callbacks);
          }
      }
    }
  }
}
