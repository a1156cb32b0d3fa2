/**
 * `RealTimeEndpoint` (OpenAISwift/Features/RealTime/RealTimeEndpoint.swift):
 * the state of a real-time session over a web socket, and how the frames
 * that arrive on it are reported to the session's delegate.
 *
 * The socket is abstract: the model records which socket was opened, which
 * frames were sent on it and which sockets were cancelled. The delegate is an
 * object identity, and the calls made on delegates are logged in order.
 * `URL(string:)` and the JSON coding of events and messages are parameters.
 */
module RealTime {
  import opened Wrappers
  import opened Http
  import opened Errors
  import opened CoreEndpoint
  import opened Network
  import opened Client

  /** `MessageRole`. */
  datatype MessageRole = System | User | Assistant | Tool

  /** `RealTimeMessage`. */
  datatype RealTimeMessage = RealTimeMessage(role: MessageRole, content: string, name: Option<string>)

  /** `EventType`. */
  datatype EventType = MessageEvent | ErrorEvent | PingEvent

  /** `ErrorInfo`. */
  datatype ErrorInfo = ErrorInfo(code: string, message: string)

  /** `RealTimeEvent`: a frame from the server. */
  datatype RealTimeEvent = RealTimeEvent(eventType: EventType, message: Option<RealTimeMessage>, error: Option<ErrorInfo>)

  /** `SessionStatus`. */
  datatype SessionStatus = Active | Expired | Failed

  /** `RealTimeSession`. */
  datatype RealTimeSession = RealTimeSession(id: string, status: SessionStatus, createdAt: int, expiresAt: int)

  /** `CreateSessionRequest` and `CreateSessionResponse`. */
  datatype CreateSessionRequest = CreateSessionRequest(model: string)
  datatype CreateSessionResponse = CreateSessionResponse(session: RealTimeSession, url: string)

  /** `URLSessionWebSocketTask.Message`: a text frame or a binary one. */
  datatype Frame = TextFrame(text: string) | DataFrame(data: Bytes)

  /** A web socket task, known by the URL it was opened on. */
  datatype WebSocket = WebSocket(url: string)

  /** The identity of a `RealTimeSessionDelegate` object. */
  type DelegateRef = nat

  /** The `Error` a delegate is told about: one of the library's, or one thrown by the decoder or the socket. */
  datatype SessionError = LibraryError(error: OpenAIError) | ThrownError(cause: Cause)

  /** One call on a `RealTimeSessionDelegate`, without the session it is about. */
  datatype SessionEvent =
    | DidReceiveMessage(message: RealTimeMessage)
    | DidEncounterError(error: SessionError)
    | DidChangeStatus(status: SessionStatus)

  /** A call on a delegate: which delegate, about which session, saying what. */
  datatype Notification = Notification(delegate: DelegateRef, session: RealTimeSession, event: SessionEvent)

  /**
   * What `handle(_:)` tells the delegate about a frame: a text frame that does
   * not decode is an error; a message event with a message passes the message
   * on; an error event with error information is a `serverError` carrying its
   * message; a ping, a binary frame, or an event missing its payload says
   * nothing.
   */
  function Dispatch(frame: Frame, decode: string -> Result<RealTimeEvent, Cause>): (events: seq<SessionEvent>)
    ensures |events| <= 1
    ensures frame.DataFrame? ==> events == []
    ensures frame.TextFrame? && decode(frame.text).Failure? ==>
      events == [DidEncounterError(ThrownError(decode(frame.text).error))]
    ensures frame.TextFrame? && decode(frame.text).Success? ==>
      var event := decode(frame.text).value;
      && (event.eventType.PingEvent? ==> events == [])
      && (event.eventType.MessageEvent? ==>
            events == if event.message.Some? then [DidReceiveMessage(event.message.value)] else [])
      && (event.eventType.ErrorEvent? ==>
            events == if event.error.Some? then [DidEncounterError(LibraryError(ServerError(event.error.value.message)))] else [])
  {
    match frame
    case DataFrame(_) => []
    case TextFrame(text) =>
      match decode(text)
      case Failure(cause) => [DidEncounterError(ThrownError(cause))]
      case Success(event) =>
        match event.eventType
        case MessageEvent => if event.message.Some? then [DidReceiveMessage(event.message.value)] else []
        case ErrorEvent =>
          if event.error.Some? then [DidEncounterError(LibraryError(ServerError(event.error.value.message)))] else []
        case PingEvent => []
  }

  /** The server's own error messages reach the delegate verbatim. */
  lemma ServerErrorReachesDelegate(info: ErrorInfo, decode: string -> Result<RealTimeEvent, Cause>, text: string)
    requires decode(text) == Success(RealTimeEvent(ErrorEvent, None, Some(info)))
    ensures |Dispatch(TextFrame(text), decode)| == 1
    ensures Dispatch(TextFrame(text), decode)[0].error.error.message == info.message
  {
  }

  /** The calls on one delegate about one session. */
  function Notify(delegate: DelegateRef, session: RealTimeSession, events: seq<SessionEvent>): (ns: seq<Notification>)
    ensures |ns| == |events|
    ensures forall i :: 0 <= i < |ns| ==> ns[i] == Notification(delegate, session, events[i])
  {
    seq(|events|, i requires 0 <= i < |events| => Notification(delegate, session, events[i]))
  }

  class RealTimeEndpoint {
    const client: OpenAIClient
    var webSocket: Option<WebSocket>
    var currentSession: Option<RealTimeSession>
    var delegate: Option<DelegateRef>
    /** Every call made on a delegate, in order. */
    var notifications: seq<Notification>
    /** The text frames sent, in order. */
    var sentFrames: seq<string>
    /** The sockets cancelled with `goingAway`, in order. */
    var cancelledSockets: seq<WebSocket>

    /** A socket is open exactly while a session is current and its delegate is held. */
    predicate Valid()
      reads this
    {
      && (webSocket.Some? <==> currentSession.Some?)
      && (currentSession.Some? <==> delegate.Some?)
    }

    /** `init(client:)`: no socket, no session, no delegate. */
    constructor(client: OpenAIClient)
      ensures Valid()
      ensures this.client == client
      ensures webSocket.None? && currentSession.None? && delegate.None?
      ensures notifications == [] && sentFrames == [] && cancelledSockets == []
    {
      this.client := client;
      webSocket := None;
      currentSession := None;
      delegate := None;
      notifications := [];
      sentFrames := [];
      cancelledSockets := [];
    }

    /** `create(_:)`: the request as the body of a call to the sessions endpoint. */
    method Create(request: CreateSessionRequest, encode: CreateSessionRequest -> Bytes,
                  response: Response, decode: Bytes -> Result<CreateSessionResponse, Cause>)
      returns (sent: Request, result: Result<CreateSessionResponse, OpenAIError>)
      ensures IsConfigured(client.configuration, RealTimeSessions, sent)
      ensures sent.body == Some(encode(request))
      ensures result == Classify(response, decode)
    {
      sent, result := client.PerformRequest(RealTimeSessions, Some(request), encode, response, decode);
    }

    /**
     * `connect(to:url:delegate:)`. A URL that does not parse is reported to
     * the given delegate as `invalidURL` and nothing else changes; otherwise
     * the session and delegate are held, a socket is opened on the URL and
     * the delegate is told the session is active.
     */
    method Connect(session: RealTimeSession, url: string, newDelegate: DelegateRef, parseURL: string -> Option<string>)
      requires Valid()
      modifies this
      ensures Valid()
      ensures parseURL(url).None? ==>
        && webSocket == old(webSocket) && currentSession == old(currentSession) && delegate == old(delegate)
        && notifications == old(notifications) + [Notification(newDelegate, session, DidEncounterError(LibraryError(InvalidURL)))]
      ensures parseURL(url).Some? ==>
        && webSocket == Some(WebSocket(parseURL(url).value))
        && currentSession == Some(session) && delegate == Some(newDelegate)
        && notifications == old(notifications) + [Notification(newDelegate, session, DidChangeStatus(Active))]
      ensures sentFrames == old(sentFrames) && cancelledSockets == old(cancelledSockets)
    {
      var parsed := parseURL(url);
      if parsed.None? {
        notifications := notifications + [Notification(newDelegate, session, DidEncounterError(LibraryError(InvalidURL)))];
        return;
      }
      currentSession := Some(session);
      delegate := Some(newDelegate);
      webSocket := Some(WebSocket(parsed.value));
      notifications := notifications + [Notification(newDelegate, session, DidChangeStatus(Active))];
    }

    /**
     * `disconnect()`: cancels the socket if there is one, tells the delegate
     * the session expired if one was current, and drops socket, session and
     * delegate. With no current session nothing is reported, so a second
     * disconnect is silent.
     */
    method Disconnect()
      requires Valid()
      modifies this
      ensures Valid()
      ensures webSocket.None? && currentSession.None? && delegate.None?
      ensures cancelledSockets == old(cancelledSockets) + (if old(webSocket).Some? then [old(webSocket).value] else [])
      ensures old(currentSession).None? ==> notifications == old(notifications)
      ensures old(currentSession).Some? ==>
        notifications == old(notifications) + [Notification(old(delegate).value, old(currentSession).value, DidChangeStatus(Expired))]
      ensures sentFrames == old(sentFrames)
    {
      if webSocket.Some? {
        cancelledSockets := cancelledSockets + [webSocket.value];
      }
      webSocket := None;
      if currentSession.Some? && delegate.Some? {
        notifications := notifications + [Notification(delegate.value, currentSession.value, DidChangeStatus(Expired))];
      }
      currentSession := None;
      delegate := None;
    }

    /**
     * `send(_:)`: without a socket the call throws `noActiveSession` and
     * nothing is sent; otherwise the message's JSON text goes out as one
     * text frame.
     */
    method Send(message: RealTimeMessage, encode: RealTimeMessage -> string) returns (error: Option<OpenAIError>)
      requires Valid()
      modifies this
      ensures Valid()
      ensures error.Some? <==> old(currentSession).None?
      ensures error.Some? ==> error.value == NoActiveSession && sentFrames == old(sentFrames)
      ensures error.None? ==> sentFrames == old(sentFrames) + [encode(message)]
      ensures webSocket == old(webSocket) && currentSession == old(currentSession) && delegate == old(delegate)
      ensures notifications == old(notifications) && cancelledSockets == old(cancelledSockets)
    {
      if webSocket.None? {
        return Some(NoActiveSession);
      }
      sentFrames := sentFrames + [encode(message)];
      error := None;
    }

    /** `handle(_:)`: without a current session a frame is dropped; otherwise what it says goes to the delegate. */
    method Handle(frame: Frame, decode: string -> Result<RealTimeEvent, Cause>)
      requires Valid()
      modifies this
      ensures Valid()
      ensures old(currentSession).None? ==> notifications == old(notifications)
      ensures old(currentSession).Some? ==>
        notifications == old(notifications) + Notify(old(delegate).value, old(currentSession).value, Dispatch(frame, decode))
      ensures webSocket == old(webSocket) && currentSession == old(currentSession) && delegate == old(delegate)
      ensures sentFrames == old(sentFrames) && cancelledSockets == old(cancelledSockets)
    {
      if currentSession.None? {
        return;
      }
      var session := currentSession.value;
      var events := Dispatch(frame, decode);
      if delegate.Some? {
        notifications := notifications + Notify(delegate.value, session, events);
      }
    }

    /**
     * The completion of one `receive` on the socket: a frame is handled; a
     * failure is reported to the delegate if a session is current, and the
     * endpoint disconnects. Re-arming the next receive is transport.
     */
    method Received(result: Result<Frame, Cause>, decode: string -> Result<RealTimeEvent, Cause>)
      requires Valid()
      modifies this
      ensures Valid()
      ensures result.Success? && old(currentSession).Some? ==>
        notifications == old(notifications) + Notify(old(delegate).value, old(currentSession).value, Dispatch(result.value, decode))
      ensures result.Failure? && old(currentSession).Some? ==>
        notifications == old(notifications) + Notify(old(delegate).value, old(currentSession).value,
          [DidEncounterError(ThrownError(result.error)), DidChangeStatus(Expired)])
      ensures old(currentSession).None? ==> notifications == old(notifications)
      ensures result.Failure? ==> webSocket.None? && currentSession.None? && delegate.None?
      ensures result.Success? ==> webSocket == old(webSocket) && currentSession == old(currentSession) && delegate == old(delegate)
      ensures sentFrames == old(sentFrames)
      ensures cancelledSockets == old(cancelledSockets)
        + (if result.Failure? && old(webSocket).Some? then [old(webSocket).value] else [])
    {
      match result {
        case Success(frame) =>
          Handle(frame, decode);
        case Failure(cause) =>
          if currentSession.Some? && delegate.Some? {
            notifications := notifications + [Notification(delegate.value, currentSession.value, DidEncounterError(ThrownError(cause)))];
          }
          Disconnect();
      }
    }
  }
}
