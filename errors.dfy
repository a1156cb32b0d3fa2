/**
 * `OpenAIError` (OpenAISwift/Core/OpenAIError.swift): the error taxonomy, its
 * user-facing texts and its hand-written `==`.
 */
module Errors {
  import opened Wrappers
  import opened Text
  import opened Http

  /**
   * An underlying Swift `Error` (a decoder or transport failure). The model
   * keeps only what the package ever looks at: its `localizedDescription`.
   */
  datatype Cause = Cause(localizedDescription: string)

  /** A Foundation `Date`: an offset in seconds from the reference date. */
  datatype Date = Date(timeIntervalSinceReferenceDate: real)

  datatype OpenAIError =
    | InvalidURL
    | InvalidResponse
    | HttpError(statusCode: int, data: Bytes)
    | ServerError(message: string)
    | NoActiveSession
    | InvalidAPIKey
    | RateLimitExceeded(resetTime: Option<Date>)
    | ModelNotAvailable(model: string)
    | NetworkError(cause: Cause)
    | Timeout
    | UnknownError
    | DecodingError(cause: Cause)

  const RateLimitText: string := "Rate limit exceeded"
  const RateLimitRetryText: string := "Rate limit exceeded. Try again after "

  /**
   * `errorDescription`. How a `Date` is interpolated into text is Foundation's
   * business, so it is a parameter.
   */
  function ErrorDescription(e: OpenAIError, describeDate: Date -> string): (r: Option<string>)
    ensures r.Some?
    ensures e.HttpError? ==> r.value == "HTTP error " + DecimalString(e.statusCode)
    ensures e.ServerError? ==> r.value == e.message
    ensures e.RateLimitExceeded? ==> HasPrefix(r.value, RateLimitText)
  {
    match e
    case InvalidURL => Some("The URL was invalid")
    case InvalidResponse => Some("The response was invalid")
    case HttpError(statusCode, _) => Some("HTTP error " + DecimalString(statusCode))
    case ServerError(message) => Some(message)
    case NoActiveSession => Some("No active session")
    case InvalidAPIKey => Some("The API key is missing or invalid")
    case RateLimitExceeded(resetTime) =>
      if resetTime.Some? then Some(RateLimitRetryText + describeDate(resetTime.value))
      else Some(RateLimitText)
    case ModelNotAvailable(model) => Some("The model '" + model + "' is not available")
    case NetworkError(cause) => Some("Network error: " + cause.localizedDescription)
    case Timeout => Some("The request timed out")
    case UnknownError => Some("An unknown error occurred")
    case DecodingError(cause) => Some("Failed to decode response: " + cause.localizedDescription)
  }

  /** The rate-limit text names a retry time exactly when a reset time is known. */
  lemma RateLimitDescriptionMentionsTime(resetTime: Option<Date>, describeDate: Date -> string)
    ensures HasPrefix(ErrorDescription(RateLimitExceeded(resetTime), describeDate).value, RateLimitRetryText)
            <==> resetTime.Some?
  {
    var text := ErrorDescription(RateLimitExceeded(resetTime), describeDate).value;
    if resetTime.None? {
      assert |text| < |RateLimitRetryText|;
    }
  }

  /** `recoverySuggestion`: every case has a non-empty suggestion. */
  function RecoverySuggestion(e: OpenAIError): (r: Option<string>)
    ensures r.Some? && |r.value| > 0
  {
    match e
    case InvalidURL => Some("Please check your request URL")
    case InvalidResponse => Some("Please try again later")
    case HttpError(_, _) => Some("Please check your request parameters and try again")
    case ServerError(_) => Some("Please try again later")
    case NoActiveSession => Some("Please establish a session before making a request")
    case InvalidAPIKey => Some("Please check your API key configuration")
    case RateLimitExceeded(_) => Some("Please wait before making another request")
    case ModelNotAvailable(_) => Some("Please use a different model or check model availability")
    case NetworkError(_) => Some("Please check your internet connection")
    case Timeout => Some("Please try again or increase the timeout interval")
    case UnknownError => Some("Please try again or contact support if the issue persists")
    case DecodingError(_) => Some("Please ensure your request format is correct")
  }

  /**
   * The `==` operator as written: five payload-free cases are listed as equal
   * to themselves, the payload cases compare their payloads (errors by their
   * descriptions), and everything else falls to `default: false`. `invalidURL`
   * is missing from the list.
   */
  predicate EqualsAsWritten(lhs: OpenAIError, rhs: OpenAIError) {
    match (lhs, rhs)
    case (InvalidResponse, InvalidResponse) => true
    case (InvalidAPIKey, InvalidAPIKey) => true
    case (Timeout, Timeout) => true
    case (UnknownError, UnknownError) => true
    case (NoActiveSession, NoActiveSession) => true
    case (HttpError(lhsCode, lhsData), HttpError(rhsCode, rhsData)) => lhsCode == rhsCode && lhsData == rhsData
    case (DecodingError(lhsError), DecodingError(rhsError)) =>
      lhsError.localizedDescription == rhsError.localizedDescription
    case (RateLimitExceeded(lhsTime), RateLimitExceeded(rhsTime)) => lhsTime == rhsTime
    case (ModelNotAvailable(lhsModel), ModelNotAvailable(rhsModel)) => lhsModel == rhsModel
    case (NetworkError(lhsError), NetworkError(rhsError)) =>
      lhsError.localizedDescription == rhsError.localizedDescription
    case (ServerError(lhsMessage), ServerError(rhsMessage)) => lhsMessage == rhsMessage
    case _ => false
  }

  /** `invalidURL == invalidURL` is false as written: the operator is not reflexive. */
  lemma InvalidURLNotEqualToItself()
    ensures !EqualsAsWritten(InvalidURL, InvalidURL)
  {
  }

  /**
   * What the operator as written computes: structural equality, except that
   * `invalidURL` equals nothing. In particular values of different cases are
   * never equal, and `httpError`s are equal iff code and data both are.
   */
  lemma EqualsAsWrittenCharacterized(lhs: OpenAIError, rhs: OpenAIError)
    ensures EqualsAsWritten(lhs, rhs) <==> lhs == rhs && !lhs.InvalidURL?
  {
  }

  /** The as-written operator is symmetric. */
  lemma EqualsAsWrittenSymmetric(lhs: OpenAIError, rhs: OpenAIError)
    ensures EqualsAsWritten(lhs, rhs) == EqualsAsWritten(rhs, lhs)
  {
    EqualsAsWrittenCharacterized(lhs, rhs);
    EqualsAsWrittenCharacterized(rhs, lhs);
  }

  /** The evidently intended `==`: the as-written operator with `invalidURL` added to the list. */
  predicate Equals(lhs: OpenAIError, rhs: OpenAIError) {
    (lhs.InvalidURL? && rhs.InvalidURL?) || EqualsAsWritten(lhs, rhs)
  }

  /** The corrected operator is an equivalence relation, as `Equatable` requires. */
  lemma EqualsIsEquivalence(a: OpenAIError, b: OpenAIError, c: OpenAIError)
    ensures Equals(a, a)
    ensures Equals(a, b) == Equals(b, a)
    ensures Equals(a, b) && Equals(b, c) ==> Equals(a, c)
  {
    EqualsAsWrittenCharacterized(a, a);
    EqualsAsWrittenCharacterized(a, b);
    EqualsAsWrittenCharacterized(b, a);
    EqualsAsWrittenCharacterized(b, c);
    EqualsAsWrittenCharacterized(a, c);
  }

  /** Both operators agree everywhere except on `(invalidURL, invalidURL)`. */
  lemma EqualsDiffersOnlyAtInvalidURL(lhs: OpenAIError, rhs: OpenAIError)
    ensures Equals(lhs, rhs) != EqualsAsWritten(lhs, rhs) <==> lhs.InvalidURL? && rhs.InvalidURL?
  {
    EqualsAsWrittenCharacterized(lhs, rhs);
  }
}
