/**
 * The chat records the pipelines build and read
 * (OpenAISwift/Features/Chat/ChatMessage.swift, ChatCompletionRequest.swift,
 * ChatCompletionResponse.swift, ChatStreamingResponse.swift and
 * OpenAISwift/Models/ChatRole.swift). Only the fields that the modelled
 * operations set or read carry meaning; floating-point fields are copied and
 * never inspected.
 */
module ChatTypes {
  import opened Wrappers
  import opened Models
  import opened FunctionCalls

  /** Swift's `Double`, only ever copied. */
  type Double = real

  /** `ChatRole`, a `String`-backed enum. */
  datatype ChatRole = System | User | Assistant | Function | Tool {
    function RawValue(): (r: string)
      ensures r != []
    {
      match this
      case System => "system"
      case User => "user"
      case Assistant => "assistant"
      case Function => "function"
      case Tool => "tool"
    }
  }

  /**
   * `ChatMessage`. The streaming accumulator builds messages with no content
   * and with a function call, so content is optional and a function call is
   * carried.
   */
  datatype ChatMessage = ChatMessage(
    role: ChatRole,
    content: Option<string>,
    name: Option<string>,
    functionCall: Option<ChatFunctionCall>)

  /** `ChatMessage(role:content:)`. */
  function Message(role: ChatRole, content: string): (m: ChatMessage)
    ensures m.role == role && m.content == Some(content)
    ensures m.name.None? && m.functionCall.None?
  {
    ChatMessage(role, Some(content), None, None)
  }

  /** `ChatCompletionRequest`, with the function-calling fields the chat API passes. */
  datatype ChatCompletionRequest = ChatCompletionRequest(
    model: OpenAIModel,
    messages: seq<ChatMessage>,
    temperature: Option<Double>,
    topP: Option<Double>,
    n: Option<int>,
    stream: Option<bool>,
    stop: Option<seq<string>>,
    maxTokens: Option<int>,
    presencePenalty: Option<Double>,
    frequencyPenalty: Option<Double>,
    functions: Option<seq<FunctionConfiguration>>,
    functionCall: Option<FunctionCallOption>)

  /** `ChatCompletionRequest(model:messages:...)` with every optional parameter left nil. */
  function Request(model: OpenAIModel, messages: seq<ChatMessage>): (r: ChatCompletionRequest)
    ensures r.model == model && r.messages == messages
    ensures r.stream.None? && r.temperature.None? && r.functions.None? && r.functionCall.None?
    ensures r.topP.None? && r.n.None? && r.stop.None? && r.maxTokens.None?
    ensures r.presencePenalty.None? && r.frequencyPenalty.None?
  {
    ChatCompletionRequest(model, messages, None, None, None, None, None, None, None, None, None, None)
  }

  datatype Choice = Choice(index: int, message: ChatMessage, finishReason: Option<string>)

  datatype Usage = Usage(promptTokens: int, completionTokens: int, totalTokens: int)

  /** `ChatCompletionResponse`. */
  datatype ChatCompletionResponse = ChatCompletionResponse(
    id: string,
    object: string,
    created: int,
    model: string,
    choices: seq<Choice>,
    usage: Usage)

  /** `ChatStreamingDelta`, with the function-call fragment the accumulator reads. */
  datatype ChatStreamingDelta = ChatStreamingDelta(
    role: Option<ChatRole>,
    content: Option<string>,
    functionCall: Option<ChatFunctionCall>)

  datatype ChatStreamingChoice = ChatStreamingChoice(
    index: int,
    delta: ChatStreamingDelta,
    finishReason: Option<string>)

  /** `ChatStreamingResponse`: one chunk of a streamed completion. */
  datatype ChatStreamingResponse = ChatStreamingResponse(
    id: string,
    object: string,
    created: int,
    model: string,
    choices: seq<ChatStreamingChoice>)
}
