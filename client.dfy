/**
 * `OpenAIClient` (OpenAISwift/Core/OpenAIClient.swift) with its chat and
 * embeddings extensions (OpenAISwift/Features/Chat/OpenAIClient+ChatEndpoint.swift,
 * OpenAISwift/Features/Embeddings/EmbeddingEndpoint.swift).
 *
 * The client's `defaultHeaders`, `configureRequest` and `performRequest` are
 * the same code as `DefaultOpenAINetwork`'s, so here they run a network over
 * the client's configuration. The client's `performStreamingRequest`, which
 * the streaming extension calls, is taken to be `DefaultOpenAINetwork`'s.
 * As there, every response is a parameter and the sent request is returned.
 */
module Client {
  import opened Wrappers
  import opened Http
  import opened Errors
  import opened Models
  import opened ChatTypes
  import opened CoreEndpoint
  import opened Streaming
  import opened Network
  import opened ChatRequests
  import opened Embeddings

  class OpenAIClient {
    const configuration: Configuration

    /** `init(configuration:session:)`; the session is not part of this model. */
    constructor(configuration: Configuration)
      ensures this.configuration == configuration
    {
      this.configuration := configuration;
    }

    /** `defaultHeaders`. */
    method DefaultHeaders() returns (headers: map<string, string>)
      ensures CarriesDefaultHeaders(configuration, headers)
    {
      var network := new DefaultOpenAINetwork(configuration);
      headers := network.DefaultHeaders();
    }

    /** `configureRequest(for:)`. */
    method ConfigureRequest(endpoint: Endpoint) returns (request: Request)
      ensures IsConfigured(configuration, endpoint, request) && request.body.None?
    {
      var network := new DefaultOpenAINetwork(configuration);
      request := network.ConfigureRequest(endpoint);
    }

    /** `performRequest(endpoint:body:)`. */
    method PerformRequest<B, T>(endpoint: Endpoint, body: Option<B>, encode: B -> Bytes,
                                response: Response, decode: Bytes -> Result<T, Cause>)
      returns (sent: Request, result: Result<T, OpenAIError>)
      ensures IsConfigured(configuration, endpoint, sent)
      ensures sent.body == if body.Some? then Some(encode(body.value)) else None
      ensures result == Classify(response, decode)
    {
      var network := new DefaultOpenAINetwork(configuration);
      sent, result := network.PerformRequest(endpoint, body, encode, response, decode);
    }

    /** `performStreamingRequest(endpoint:body:delegate:)`, as `DefaultOpenAINetwork` does it. */
    method PerformStreamingRequest<B>(endpoint: Endpoint, body: B, encode: B -> Bytes,
                                      response: StreamResponse, decode: ChunkDecoder)
      returns (sent: Request, result: Result<seq<Callback>, OpenAIError>)
      ensures IsStreamingRequest(configuration, endpoint, sent, encode(body))
      ensures result == StreamOutcome(response, decode)
    {
      var network := new DefaultOpenAINetwork(configuration);
      sent, result := network.PerformStreamingRequest(endpoint, body, encode, response, decode);
    }

    /** `createChatCompletion(_:)`: the request as the body of a chat-completions call. */
    method CreateChatCompletion(request: ChatCompletionRequest, encode: ChatCompletionRequest -> Bytes,
                                response: Response, decode: Bytes -> Result<ChatCompletionResponse, Cause>)
      returns (sent: Request, result: Result<ChatCompletionResponse, OpenAIError>)
      ensures IsConfigured(configuration, ChatCompletions, sent) && sent.body == Some(encode(request))
      ensures result == Classify(response, decode)
    {
      sent, result := PerformRequest(ChatCompletions, Some(request), encode, response, decode);
    }

    /** `createStreamingChatCompletion(_:delegate:)`: the request, streaming, as the body of a streaming chat-completions call. */
    method CreateStreamingChatCompletion(request: ChatCompletionRequest, encode: ChatCompletionRequest -> Bytes,
                                         response: StreamResponse, decode: ChunkDecoder)
      returns (sent: Request, result: Result<seq<Callback>, OpenAIError>)
      ensures IsStreamingRequest(configuration, ChatCompletions, sent, encode(ForceStreaming(request)))
      ensures result == StreamOutcome(response, decode)
    {
      var streamingRequest := request.(stream := Some(true));
      sent, result := PerformStreamingRequest(ChatCompletions, streamingRequest, encode, response, decode);
    }

    /**
     * `sendMessage(_:model:)`: one user message to the model; the text of the
     * first choice, or the error of the call, or `invalidResponse` when there
     * is no choice. Callers omitting the model pass `DefaultModel(ChatCompletion)`.
     */
    method SendMessage(message: string, model: OpenAIModel, encode: ChatCompletionRequest -> Bytes,
                       response: Response, decode: Bytes -> Result<ChatCompletionResponse, Cause>)
      returns (sent: Request, result: Result<string, OpenAIError>)
      ensures IsConfigured(configuration, ChatCompletions, sent)
      ensures sent.body == Some(encode(SimpleRequest(message, model)))
      ensures Classify(response, decode).Failure? ==> result == Failure(Classify(response, decode).error)
      ensures Classify(response, decode).Success? ==> result == FirstChoiceContent(Classify(response, decode).value)
    {
      var messages := [Message(User, message)];
      var request := ChatTypes.Request(model, messages);
      var completion;
      sent, completion := CreateChatCompletion(request, encode, response, decode);
      match completion {
        case Failure(e) =>
          result := Failure(e);
        case Success(r) =>
          if r.choices == [] {
            result := Failure(InvalidResponse);
          } else {
            result := Success(r.choices[0].message.content.GetOr(""));
          }
      }
    }

    /** `sendStreamingMessage(_:model:delegate:)`: one user message, streaming. */
    method SendStreamingMessage(message: string, model: OpenAIModel, encode: ChatCompletionRequest -> Bytes,
                                response: StreamResponse, decode: ChunkDecoder)
      returns (sent: Request, result: Result<seq<Callback>, OpenAIError>)
      ensures IsStreamingRequest(configuration, ChatCompletions, sent, encode(ForceStreaming(SimpleRequest(message, model))))
      ensures result == StreamOutcome(response, decode)
    {
      var messages := [Message(User, message)];
      var request := ChatTypes.Request(model, messages);
      sent, result := CreateStreamingChatCompletion(request, encode, response, decode);
    }

    /** `createEmbeddings(_:)`: the request as the body of an embeddings call. */
    method CreateEmbeddings(request: EmbeddingRequest, encode: EmbeddingRequest -> Bytes,
                            response: Response, decode: Bytes -> Result<EmbeddingResponse, Cause>)
      returns (sent: Request, result: Result<EmbeddingResponse, OpenAIError>)
      ensures IsConfigured(configuration, CoreEndpoint.Embeddings, sent) && sent.body == Some(encode(request))
      ensures result == Classify(response, decode)
    {
      sent, result := PerformRequest(CoreEndpoint.Embeddings, Some(request), encode, response, decode);
    }

    /**
     * `embed(_:model:)`: the text as the only input; the first vector, or
     * the error of the call, or `invalidResponse` when there is none. Callers
     * omitting the model pass `DefaultModel(Embedding)`.
     */
    method Embed(text: string, model: OpenAIModel, encode: EmbeddingRequest -> Bytes,
                 response: Response, decode: Bytes -> Result<EmbeddingResponse, Cause>)
      returns (sent: Request, result: Result<seq<Double>, OpenAIError>)
      ensures IsConfigured(configuration, CoreEndpoint.Embeddings, sent)
      ensures sent.body == Some(encode(EmbedRequest(text, model)))
      ensures Classify(response, decode).Failure? ==> result == Failure(Classify(response, decode).error)
      ensures Classify(response, decode).Success? ==> result == FirstEmbedding(Classify(response, decode).value)
    {
      var request := EmbeddingRequest(model, [text], None);
      var embeddings;
      sent, embeddings := CreateEmbeddings(request, encode, response, decode);
      match embeddings {
        case Failure(e) =>
          result := Failure(e);
        case Success(r) =>
          if r.data == [] {
            result := Failure(InvalidResponse);
          } else {
            result := Success(r.data[0].embedding);
          }
      }
    }
  }
}
