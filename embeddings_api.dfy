/**
 * `EmbeddingsEndpoint`, the embeddings feature of a client
 * (OpenAISwift/Features/Embeddings/EmbeddingsAPI.swift). Calls go to the
 * embeddings endpoint through the client; responses are parameters, as in
 * the client. Callers omitting the model pass `DefaultModel(Embedding)`.
 */
module EmbeddingsApi {
  import opened Wrappers
  import opened Http
  import opened Errors
  import opened Models
  import opened ChatTypes
  import CoreEndpoint
  import opened Network
  import opened Embeddings
  import opened Client

  class EmbeddingsEndpoint {
    const client: OpenAIClient

    constructor(client: OpenAIClient)
      ensures this.client == client
    {
      this.client := client;
    }

    /** `createEmbeddings(_:)`: the request as the body of an embeddings call. */
    method CreateEmbeddings(request: EmbeddingRequest, encode: EmbeddingRequest -> Bytes,
                            response: Response, decode: Bytes -> Result<EmbeddingResponse, Cause>)
      returns (sent: Request, result: Result<EmbeddingResponse, OpenAIError>)
      ensures IsConfigured(client.configuration, CoreEndpoint.Embeddings, sent)
      ensures sent.body == Some(encode(request))
      ensures result == Classify(response, decode)
    {
      sent, result := client.PerformRequest(CoreEndpoint.Embeddings, Some(request), encode, response, decode);
    }

    /** `embed(_:model:)`: the text as the only input; the first vector, or `invalidResponse` when there is none. */
    method Embed(text: string, model: OpenAIModel, encode: EmbeddingRequest -> Bytes,
                 response: Response, decode: Bytes -> Result<EmbeddingResponse, Cause>)
      returns (sent: Request, result: Result<seq<Double>, OpenAIError>)
      ensures IsConfigured(client.configuration, CoreEndpoint.Embeddings, sent)
      ensures sent.body == Some(encode(EmbedRequest(text, model)))
      ensures Classify(response, decode).Failure? ==> result == Failure(Classify(response, decode).error)
      ensures Classify(response, decode).Success? ==> result == FirstEmbedding(Classify(response, decode).value)
    {
      var request := EmbeddingRequest(model, [text], None);
      var embeddings;
      sent, embeddings := CreateEmbeddings(request, encode, response, decode);
      match embeddings {
        case Failure(e) =>
          result := Failure(e);
        case Success(r) =>
          if r.data == [] {
            result := Failure(InvalidResponse);
          } else {
            result := Success(r.data[0].embedding);
          }
      }
    }
  }
}
