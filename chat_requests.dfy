/**
 * How the chat conveniences shape their requests and read their responses
 * (OpenAISwift/Features/Chat/ChatAPI.swift and
 * OpenAISwift/Features/Chat/OpenAIClient+ChatEndpoint.swift).
 */
module ChatRequests {
  import opened Wrappers
  import opened Errors
  import opened Models
  import opened FunctionCalls
  import opened ChatTypes

  /** The request `ChatEndpoint.sendMessage` builds: the one user message, and the caller's model, temperature and functions. */
  function MessageRequest(message: string, model: OpenAIModel, temperature: Option<Double>,
                          functions: Option<seq<FunctionConfiguration>>,
                          functionCall: Option<FunctionCallOption>): (r: ChatCompletionRequest)
    ensures r.messages == [Message(User, message)]
    ensures r.model == model && r.temperature == temperature
    ensures r.functions == functions && r.functionCall == functionCall
    ensures r.stream.None?
  {
    ChatCompletionRequest(model, [Message(User, message)], temperature, None, None, None, None, None, None, None,
      functions, functionCall)
  }

  /** `streamingRequest.stream = true` on a copy: streaming is switched on and nothing else changes. */
  function ForceStreaming(request: ChatCompletionRequest): (r: ChatCompletionRequest)
    ensures r.stream == Some(true)
    ensures r.(stream := request.stream) == request
  {
    request.(stream := Some(true))
  }

  /** The request `ChatEndpoint.sendMessageStreaming` builds: that of `sendMessage`, streaming. */
  function StreamingMessageRequest(message: string, model: OpenAIModel, temperature: Option<Double>,
                                   functions: Option<seq<FunctionConfiguration>>,
                                   functionCall: Option<FunctionCallOption>): (r: ChatCompletionRequest)
    ensures r == ForceStreaming(MessageRequest(message, model, temperature, functions, functionCall))
  {
    ChatCompletionRequest(model, [Message(User, message)], temperature, None, None, Some(true), None, None, None, None,
      functions, functionCall)
  }

  /** Forcing streaming twice is forcing it once, so `sendChatCompletionStreaming` sends what `sendMessageStreaming` built. */
  lemma ForceStreamingIdempotent(request: ChatCompletionRequest)
    ensures ForceStreaming(ForceStreaming(request)) == ForceStreaming(request)
  {
  }

  /** The request `OpenAIClient.sendMessage` builds: one user message, every optional parameter nil. */
  function SimpleRequest(message: string, model: OpenAIModel): (r: ChatCompletionRequest)
    ensures r == MessageRequest(message, model, None, None, None)
  {
    Request(model, [Message(User, message)])
  }

  /** `OpenAIClient.sendMessage` reads the first choice's text, an absent text being empty; no choice is `invalidResponse`. */
  function FirstChoiceContent(response: ChatCompletionResponse): (r: Result<string, OpenAIError>)
    ensures r.Failure? <==> response.choices == []
    ensures r.Failure? ==> r.error == InvalidResponse
    ensures r.Success? && response.choices[0].message.content.Some? ==>
      r.value == response.choices[0].message.content.value
    ensures r.Success? && response.choices[0].message.content.None? ==> r.value == ""
  {
    if response.choices == [] then Failure(InvalidResponse)
    else Success(response.choices[0].message.content.GetOr(""))
  }
}
