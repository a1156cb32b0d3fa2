/**
 * `ChatEndpoint`, the chat feature of a client
 * (OpenAISwift/Features/Chat/ChatAPI.swift). Every call goes to the
 * chat-completions endpoint through the client; responses are parameters, as
 * in the client. Callers omitting the model pass `DefaultModel(ChatCompletion)`.
 */
module ChatApi {
  import opened Wrappers
  import opened Http
  import opened Errors
  import opened Models
  import opened FunctionCalls
  import opened ChatTypes
  import opened CoreEndpoint
  import opened Streaming
  import opened Network
  import opened ChatRequests
  import opened Client

  class ChatEndpoint {
    const client: OpenAIClient

    constructor(client: OpenAIClient)
      ensures this.client == client
    {
      this.client := client;
    }

    /** `sendMessage(_:model:temperature:functions:functionCall:)`: one user message, the other arguments passed through. */
    method SendMessage(message: string, model: OpenAIModel, temperature: Option<Double>,
                       functions: Option<seq<FunctionConfiguration>>, functionCall: Option<FunctionCallOption>,
                       encode: ChatCompletionRequest -> Bytes,
                       response: Response, decode: Bytes -> Result<ChatCompletionResponse, Cause>)
      returns (sent: Request, result: Result<ChatCompletionResponse, OpenAIError>)
      ensures IsConfigured(client.configuration, ChatCompletions, sent)
      ensures sent.body == Some(encode(MessageRequest(message, model, temperature, functions, functionCall)))
      ensures result == Classify(response, decode)
    {
      var request := ChatCompletionRequest(model, [Message(User, message)], temperature, None, None, None, None,
        None, None, None, functions, functionCall);
      sent, result := SendChatCompletion(request, encode, response, decode);
    }

    /** `sendMessageStreaming(...)`: the same request with `stream` set, sent as a stream. */
    method SendMessageStreaming(message: string, model: OpenAIModel, temperature: Option<Double>,
                                functions: Option<seq<FunctionConfiguration>>, functionCall: Option<FunctionCallOption>,
                                encode: ChatCompletionRequest -> Bytes,
                                response: StreamResponse, decode: ChunkDecoder)
      returns (sent: Request, result: Result<seq<Callback>, OpenAIError>)
      ensures IsStreamingRequest(client.configuration, ChatCompletions, sent,
        encode(StreamingMessageRequest(message, model, temperature, functions, functionCall)))
      ensures result == StreamOutcome(response, decode)
    {
      var request := ChatCompletionRequest(model, [Message(User, message)], temperature, None, None, Some(true), None,
        None, None, None, functions, functionCall);
      sent, result := SendChatCompletionStreaming(request, encode, response, decode);
      ForceStreamingIdempotent(MessageRequest(message, model, temperature, functions, functionCall));
    }

    /** `sendChatCompletion(_:)`: the request as the body of a chat-completions call. */
    method SendChatCompletion(request: ChatCompletionRequest, encode: ChatCompletionRequest -> Bytes,
                              response: Response, decode: Bytes -> Result<ChatCompletionResponse, Cause>)
      returns (sent: Request, result: Result<ChatCompletionResponse, OpenAIError>)
      ensures IsConfigured(client.configuration, ChatCompletions, sent) && sent.body == Some(encode(request))
      ensures result == Classify(response, decode)
    {
      sent, result := client.PerformRequest(ChatCompletions, Some(request), encode, response, decode);
    }

    /** `sendChatCompletionStreaming(_:delegate:)`: `stream` forced on whatever the caller set, nothing else changed. */
    method SendChatCompletionStreaming(request: ChatCompletionRequest, encode: ChatCompletionRequest -> Bytes,
                                       response: StreamResponse, decode: ChunkDecoder)
      returns (sent: Request, result: Result<seq<Callback>, OpenAIError>)
      ensures IsStreamingRequest(client.configuration, ChatCompletions, sent, encode(ForceStreaming(request)))
      ensures result == StreamOutcome(response, decode)
    {
      var streamingRequest := request.(stream := Some(true));
      sent, result := client.PerformStreamingRequest(ChatCompletions, streamingRequest, encode, response, decode);
    }
  }
}
