/**
 * The records of the embeddings calls (OpenAISwift/Models/EmbeddingRequest.swift,
 * OpenAISwift/Models/EmbeddingResponse.swift) and how `embed` shapes its
 * request and reads its response
 * (OpenAISwift/Features/Embeddings/EmbeddingsAPI.swift and EmbeddingEndpoint.swift).
 */
module Embeddings {
  import opened Wrappers
  import opened Errors
  import opened Models
  import opened ChatTypes

  /** `EmbeddingRequest`. */
  datatype EmbeddingRequest = EmbeddingRequest(model: OpenAIModel, input: seq<string>, user: Option<string>)

  /** `EmbeddingResponse.Embedding`: one vector, copied and never inspected. */
  datatype Embedding = Embedding(object: string, embedding: seq<Double>, index: int)

  datatype EmbeddingUsage = EmbeddingUsage(promptTokens: int, totalTokens: int)

  /** `EmbeddingResponse`. */
  datatype EmbeddingResponse = EmbeddingResponse(
    object: string,
    model: string,
    data: seq<Embedding>,
    usage: EmbeddingUsage)

  /** The request `embed` builds: the text as the only input, no user. */
  function EmbedRequest(text: string, model: OpenAIModel): (r: EmbeddingRequest)
    ensures r.input == [text] && r.model == model && r.user.None?
  {
    EmbeddingRequest(model, [text], None)
  }

  /** `embed` returns the first entry's vector unchanged; an empty `data` is `invalidResponse`. */
  function FirstEmbedding(response: EmbeddingResponse): (r: Result<seq<Double>, OpenAIError>)
    ensures r.Failure? <==> response.data == []
    ensures r.Failure? ==> r.error == InvalidResponse
    ensures r.Success? ==> r.value == response.data[0].embedding
  {
    if response.data == [] then Failure(InvalidResponse) else Success(response.data[0].embedding)
  }
}
