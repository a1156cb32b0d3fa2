# OpenAISwift core, modelled in Dafny

This project models the core of OpenAISwift, a Swift client for the OpenAI
HTTP API, and proves properties of that model. Its parts are:

- **Request pipeline.** `OpenAIClient`, and its twin `DefaultOpenAINetwork`, build requests and classify responses:
  - the bearer `Authorization` header (section 2.1 of RFC 6750), the JSON content type and the optional `OpenAI-Organization` header;
  - URL, method and timeout taken from the endpoint and the configuration;
  - status 200–299 (section 15.3 of RFC 9110) decoded, any other status an `httpError`, a non-HTTP response `invalidResponse`.
- **Streaming.** The line loop of `performStreamingRequest` turns `data: ` lines into delegate callbacks and stops at `[DONE]` or at the first chunk that does not decode. This is a small subset of the event-stream format in section 9.2.6 of the WHATWG HTML Living Standard: no bare `data:`, no multi-line data, no other fields.
- **Chunk accumulator.** `DefaultChatStreamingDelegate` folds the streamed chunks into one assistant message.
- **Routing tables.** The two `OpenAIEndpoint` enums map a case to a method and a path. The public one uses absolute paths, the core one relative paths.
- **Capability tables.** The model tables of `OpenAIModel`: context size, vision, audio, purpose and the default model per purpose.
- **Function-call option codec.** The `name` key codec of `FunctionCallOption`.
- **List queries.** The query items of a `ListQuery`.
- **Errors.** `OpenAIError`'s descriptions, recovery suggestions and hand-written `==`.
- **API key lookup.** The `.env` pipeline of `EnvironmentLoader`.
- **Real-time sessions.** The session state machine of `RealTimeEndpoint`: connect, disconnect, the send guard and event dispatch.
- **Convenience calls.** The chat and embeddings wrappers that build one-message or one-input requests, force streaming and take the first choice or vector.

Transport and the JSON codec are parameters:
- A response is given as a value: not HTTP, or a status with a body or with the lines of a stream.
- Each pipeline method returns the request it would send together with its outcome.
- Decoders are functions into `Result`, and encoders are functions into bytes.
- A delegate's calls are recorded in order, as a sequence of callbacks or as a log held by the object.

Modules:
- `Wrappers`, `Text` and `Http` hold shared pieces: Option/Result, prefixes, split/join, decimal text, HTTP methods, configuration and requests.
- Every other module follows one source file.

## Model

| member | source | states |
|---|---|---|
| Http.MethodFromRawValue | OpenAISwift/Public/OpenAIEndpoint.swift:123-128 | reading a method name back gives a method with that raw value |
| Http.RawValueRoundTrip | OpenAISwift/Public/OpenAIEndpoint.swift:123-128 | each HTTP method is recovered from its raw value (`GET`, `POST`, `DELETE`, `PUT`, `PATCH`) |
| Http.BearerTokenRecovered | OpenAISwift/Core/OpenAIClient.swift:39 | the Authorization value is `Bearer ` followed by exactly the API key |
| Http.IsSuccessStatus | OpenAISwift/Core/OpenAIClient.swift:91 | the success class is the statuses 200 through 299; `Network.Classify` and `Network.UnauthorizedIsHttpError` state what each side of it leads to |
| Http.BearerCredentials | OpenAISwift/Core/OpenAIClient.swift:39 | the Authorization value for a key; `Http.BearerTokenRecovered` shows the key is read back from it |
| Http.CarriesDefaultHeaders | OpenAISwift/Core/OpenAIClient.swift:37-48 | the header contract of both pipelines; `Network.DefaultHeadersUnique` shows it fixes the whole map |
| Http.DefaultConfiguration | OpenAISwift/Public/OpenAIConfiguration.swift:30-40 | `OpenAIConfiguration(apiKey:)`: no organization, base URL `https://api.openai.com/v1`, timeout 60 seconds |
| Http.AppendPathComponent | OpenAISwift/Core/OpenAIEndpoint.swift:110-112 | `appendingPathComponent`: one `/` between base and component; `CoreEndpoint.Url` gives its closed form for relative paths |
| Network.DefaultHeadersUnique | OpenAISwift/Core/OpenAINetwork.swift:29-40 | the default-header contract (Authorization, Content-Type, organization header iff configured, nothing else) fixes the header map completely |
| Network.Classify | OpenAISwift/Core/OpenAINetwork.swift:71-84 | non-HTTP is `invalidResponse`; non-2xx is `httpError(status, data)` with the raw data; 2xx is the decoded value, or `decodingError` with the decoder's error |
| Network.UnauthorizedIsHttpError | OpenAISwift/Core/OpenAIClient.swift:91-93 | a 401 gives `httpError(401, data)`, not `invalidResponse` |
| Network.StreamOutcome | OpenAISwift/Core/OpenAIStreamingNetwork.swift:31-61 | non-HTTP is `invalidResponse`; a non-2xx status is `httpError` with empty data before any line is read; otherwise the callbacks of the line loop |
| Network.DefaultOpenAINetwork.constructor | OpenAISwift/Core/OpenAINetwork.swift:21-27 | the network keeps the given configuration |
| Network.DefaultOpenAINetwork.DefaultHeaders | OpenAISwift/Core/OpenAINetwork.swift:29-40 | bearer Authorization, JSON Content-Type, and the organization header exactly when an organization is configured |
| Network.DefaultOpenAINetwork.ConfigureRequest | OpenAISwift/Core/OpenAINetwork.swift:42-56 | URL is the base URL with the endpoint path appended, method is the endpoint's, timeout is the configured one, default headers, no body |
| Network.DefaultOpenAINetwork.PerformRequest | OpenAISwift/Core/OpenAINetwork.swift:58-85 | the configured request carries the encoded body exactly when one is given; the outcome is `Classify` of the response |
| Network.DefaultOpenAINetwork.PerformStreamingRequest | OpenAISwift/Core/OpenAIStreamingNetwork.swift:18-62 | the configured request adds `Accept: text/event-stream` and the encoded body; the outcome is `StreamOutcome`, computed by the line loop |
| Streaming.Terminal | OpenAISwift/Core/OpenAIStreamingNetwork.swift:45-60 | a stopping payload gives one terminal callback: `didComplete` iff the payload is `[DONE]`, otherwise `didError(decodingError)` |
| Streaming.IsDataLine | OpenAISwift/Core/OpenAIStreamingNetwork.swift:42 | the `data: ` guard; `Streaming.NonDataLineIgnored` shows a line failing it changes nothing |
| Streaming.Payload | OpenAISwift/Core/OpenAIStreamingNetwork.swift:43 | the payload is what follows the `data: ` prefix: the prefix and the payload make up the line |
| Streaming.Callbacks | OpenAISwift/Core/OpenAIStreamingNetwork.swift:41-61 | the callbacks of the line loop, in order; `Streaming.ReadLines` is proved to produce them and `Streaming.CallbacksOfPayloads` to depend only on the payloads |
| Streaming.Dispatch | OpenAISwift/Core/OpenAIStreamingNetwork.swift:45-60 | the callbacks for the payloads; `Streaming.DispatchUntilStop` and `Streaming.DispatchWithoutStop` give their shape |
| Streaming.ReadLines | OpenAISwift/Core/OpenAIStreamingNetwork.swift:41-61 | the imperative loop (skip non-data lines, strip the prefix, stop at `[DONE]` or the first decode failure) yields exactly the callbacks of the line-by-line specification |
| Streaming.Decoded | OpenAISwift/Core/OpenAIStreamingNetwork.swift:50-56 | every decodable payload yields one chunk, in order, equal to what the decoder returned |
| Streaming.CallbacksOfPayloads | OpenAISwift/Core/OpenAIStreamingNetwork.swift:42-43 | the callbacks depend only on the payloads: the data lines in order, each with its first 6 characters removed |
| Streaming.DispatchUntilStop | OpenAISwift/Core/OpenAIStreamingNetwork.swift:45-60 | before the first stopping payload each payload gives one `didReceive` in order; then exactly one terminal callback and nothing after it |
| Streaming.DispatchWithoutStop | OpenAISwift/Core/OpenAIStreamingNetwork.swift:50-56 | with no stopping payload the callbacks are exactly one `didReceive` per payload, in order |
| Streaming.ReceivesCons | OpenAISwift/Core/OpenAIStreamingNetwork.swift:50-56 | the `didReceive` calls of a non-empty run are the first one followed by those of the rest |
| Streaming.TerminalOnlyLast | OpenAISwift/Core/OpenAIStreamingNetwork.swift:41-61 | every callback but the last is `didReceive`, so at most one terminal callback fires per stream |
| Streaming.NoTerminalWithoutStop | OpenAISwift/Core/OpenAIStreamingNetwork.swift:41-61 | lines that run out without `[DONE]` or a decode failure give no terminal callback, one `didReceive` per payload |
| Streaming.NonDataLineIgnored | OpenAISwift/Core/OpenAIStreamingNetwork.swift:42 | inserting a line without the `data: ` prefix anywhere changes no callback |
| Streaming.PayloadsSkipLine | OpenAISwift/Core/OpenAIStreamingNetwork.swift:42 | a line without the prefix contributes no payload |
| Streaming.SentinelCutsStream | OpenAISwift/Core/OpenAIStreamingNetwork.swift:45-48 | whatever follows a `data: [DONE]` line produces no callback |
| StreamingDelegate.Receive | OpenAISwift/Features/Chat/DefaultChatStreamingDelegate.swift:30-41 | a chunk without choices changes nothing; content grows by the first delta's content, arguments by its call's arguments, and the name is replaced by its call's name |
| StreamingDelegate.FinalMessage | OpenAISwift/Features/Chat/DefaultChatStreamingDelegate.swift:43-58 | an assistant message; with a name seen, the call (name, arguments) and content nil iff empty; otherwise the accumulated text and no call |
| StreamingDelegate.Fold | OpenAISwift/Features/Chat/DefaultChatStreamingDelegate.swift:30-41 | the fields after `didReceive` of each chunk in turn; `StreamingDelegate.FoldConcatenates`, `FoldKeepsName` and `FoldLastNameWins` characterize it |
| StreamingDelegate.Outcomes | OpenAISwift/Features/Chat/DefaultChatStreamingDelegate.swift:30-62 | the values the completion receives over a callback sequence; `StreamingDelegate.CompletedStream`, `FailedStream` and `UnterminatedStream` give them for whole streams |
| StreamingDelegate.After | OpenAISwift/Features/Chat/DefaultChatStreamingDelegate.swift:30-62 | the fields after a callback sequence; `StreamingDelegate.AfterReceives` shows they are the fold of the received chunks |
| StreamingDelegate.FoldConcatenates | OpenAISwift/Features/Chat/DefaultChatStreamingDelegate.swift:33-39 | after any chunks, content and arguments are the in-order concatenations of their pieces |
| StreamingDelegate.FoldKeepsName | OpenAISwift/Features/Chat/DefaultChatStreamingDelegate.swift:37-40 | chunks without a function call leave the name as it was |
| StreamingDelegate.FoldLastNameWins | OpenAISwift/Features/Chat/DefaultChatStreamingDelegate.swift:38 | the name after a run of chunks is the one of the last chunk that carried a call |
| StreamingDelegate.FirstChoiceOnly | OpenAISwift/Features/Chat/DefaultChatStreamingDelegate.swift:31-41 | two chunks with the same first delta have the same effect; later choices are never read |
| StreamingDelegate.OutcomesAfterReceives | OpenAISwift/Features/Chat/DefaultChatStreamingDelegate.swift:30-62 | a run of `didReceive` calls produces no completion and leaves the fold of its chunks |
| StreamingDelegate.CompletedStream | OpenAISwift/Features/Chat/DefaultChatStreamingDelegate.swift:43-58 | a stream ending in `[DONE]` completes exactly once, with the final message of the fold of every chunk before it |
| StreamingDelegate.FailedStream | OpenAISwift/Features/Chat/DefaultChatStreamingDelegate.swift:60-62 | a stream cut by an undecodable payload completes exactly once, with `decodingError` carrying the decoder's error |
| StreamingDelegate.UnterminatedStream | OpenAISwift/Features/Chat/DefaultChatStreamingDelegate.swift:30-62 | a stream that just ends never calls the completion |
| StreamingDelegate.DefaultChatStreamingDelegate.constructor | OpenAISwift/Features/Chat/DefaultChatStreamingDelegate.swift:13-26 | empty content, empty arguments, no name, no completion yet |
| StreamingDelegate.DefaultChatStreamingDelegate.DidReceive | OpenAISwift/Features/Chat/DefaultChatStreamingDelegate.swift:30-41 | the three fields become `Receive` of their old values; the completion is not called |
| StreamingDelegate.DefaultChatStreamingDelegate.DidComplete | OpenAISwift/Features/Chat/DefaultChatStreamingDelegate.swift:43-58 | the completion receives `.success` of the final message; the fields are unchanged |
| StreamingDelegate.DefaultChatStreamingDelegate.DidError | OpenAISwift/Features/Chat/DefaultChatStreamingDelegate.swift:60-62 | the completion receives `.failure(error)`; the fields are unchanged |
| StreamingDelegate.OutcomesSnoc | OpenAISwift/Features/Chat/DefaultChatStreamingDelegate.swift:30-62 | one more callback appends its own outcome and acts on the fields the earlier callbacks left |
| StreamingDelegate.AfterReceives | OpenAISwift/Features/Chat/DefaultChatStreamingDelegate.swift:30-45 | after a run of `didReceive` calls the fields are the fold of the chunks |
| StreamingDelegate.DefaultChatStreamingDelegate.Consume | OpenAISwift/Core/OpenAIStreamingNetwork.swift:41-60 | the streaming loop's callbacks made in order on the delegate leave the fields `After` them and hand the completion exactly `Outcomes` of them |
| Client.OpenAIClient.constructor | OpenAISwift/Core/OpenAIClient.swift:28-34 | the client keeps the given configuration |
| Client.OpenAIClient.DefaultHeaders | OpenAISwift/Core/OpenAIClient.swift:37-48 | bearer Authorization, JSON Content-Type, organization header iff configured and equal to it |
| Client.OpenAIClient.ConfigureRequest | OpenAISwift/Core/OpenAIClient.swift:53-67 | base URL plus endpoint path, the endpoint's method, the configured timeout, default headers, no body |
| Client.OpenAIClient.PerformRequest | OpenAISwift/Core/OpenAIClient.swift:74-101 | the body is encoded only when supplied; non-HTTP, non-2xx, decode failure and success classified as `Classify` states |
| Client.OpenAIClient.PerformStreamingRequest | OpenAISwift/Core/OpenAIStreamingNetwork.swift:18-62 | the streaming request and outcome of the streaming pipeline, over the client's configuration |
| Client.OpenAIClient.CreateChatCompletion | OpenAISwift/Features/Chat/OpenAIClient+ChatEndpoint.swift:7-12 | the request, encoded, to the chat-completions endpoint; the classified response |
| Client.OpenAIClient.CreateStreamingChatCompletion | OpenAISwift/Features/Chat/OpenAIClient+ChatEndpoint.swift:18-30 | the request with `stream = true` and every other field unchanged, sent as a stream to chat completions |
| Client.OpenAIClient.SendMessage | OpenAISwift/Features/Chat/OpenAIClient+ChatEndpoint.swift:37-50 | one user message with the given text; the call's error, or `invalidResponse` without choices, or the first choice's content |
| Client.OpenAIClient.SendStreamingMessage | OpenAISwift/Features/Chat/OpenAIClient+ChatEndpoint.swift:57-65 | the one-user-message request, streaming, to chat completions |
| Client.OpenAIClient.CreateEmbeddings | OpenAISwift/Features/Embeddings/EmbeddingEndpoint.swift:7-12 | the request, encoded, to the embeddings endpoint; the classified response |
| Client.OpenAIClient.Embed | OpenAISwift/Features/Embeddings/EmbeddingEndpoint.swift:19-31 | one input holding exactly the text; the call's error, or `invalidResponse` on empty data, or the first vector unchanged |
| ChatRequests.MessageRequest | OpenAISwift/Features/Chat/ChatAPI.swift:68-74 | exactly one user message with the text; model, temperature, functions and function call passed through; no stream flag |
| ChatRequests.ForceStreaming | OpenAISwift/Features/Chat/ChatAPI.swift:105-111 | `stream` is true and every other field is the caller's |
| ChatRequests.StreamingMessageRequest | OpenAISwift/Features/Chat/ChatAPI.swift:86-93 | the message request built with `stream = true` is the non-streaming one with streaming forced |
| ChatRequests.ForceStreamingIdempotent | OpenAISwift/Features/Chat/ChatAPI.swift:105-111 | forcing streaming twice is forcing it once |
| ChatRequests.SimpleRequest | OpenAISwift/Features/Chat/OpenAIClient+ChatEndpoint.swift:41-42 | the client's message request is the feature's with no temperature, functions or function call |
| ChatRequests.FirstChoiceContent | OpenAISwift/Features/Chat/OpenAIClient+ChatEndpoint.swift:45-49 | `invalidResponse` iff there is no choice; otherwise the first choice's content |
| ChatTypes.Message | OpenAISwift/Features/Chat/ChatMessage.swift:14-18 | a message with the given role and content, no name and no function call |
| ChatTypes.Request | OpenAISwift/Features/Chat/ChatCompletionRequest.swift:44 | the given model and messages; every optional setting unset |
| Embeddings.EmbedRequest | OpenAISwift/Features/Embeddings/EmbeddingsAPI.swift:40 | the input is the one-element list of the text, with the given model and no user |
| Embeddings.FirstEmbedding | OpenAISwift/Features/Embeddings/EmbeddingsAPI.swift:43-47 | `invalidResponse` iff data is empty; otherwise the first entry's vector unchanged |
| ChatApi.ChatEndpoint.constructor | OpenAISwift/Features/Chat/ChatAPI.swift:57-59 | the feature keeps the given client |
| ChatApi.ChatEndpoint.SendMessage | OpenAISwift/Features/Chat/ChatAPI.swift:61-76 | sends `MessageRequest` of the arguments to chat completions; the classified response |
| ChatApi.ChatEndpoint.SendMessageStreaming | OpenAISwift/Features/Chat/ChatAPI.swift:78-95 | sends the streaming message request as a stream to chat completions |
| ChatApi.ChatEndpoint.SendChatCompletion | OpenAISwift/Features/Chat/ChatAPI.swift:97-99 | the request, encoded, to chat completions; the classified response |
| ChatApi.ChatEndpoint.SendChatCompletionStreaming | OpenAISwift/Features/Chat/ChatAPI.swift:101-112 | the request with `stream` forced true whatever the caller set, other fields unchanged, as a stream to chat completions |
| EmbeddingsApi.EmbeddingsEndpoint.constructor | OpenAISwift/Features/Embeddings/EmbeddingsAPI.swift:25-27 | the feature keeps the given client |
| EmbeddingsApi.EmbeddingsEndpoint.CreateEmbeddings | OpenAISwift/Features/Embeddings/EmbeddingsAPI.swift:29-34 | the request, encoded, to the embeddings endpoint; the classified response |
| EmbeddingsApi.EmbeddingsEndpoint.Embed | OpenAISwift/Features/Embeddings/EmbeddingsAPI.swift:36-48 | one input holding exactly the text; the call's error, or `invalidResponse` on empty data, or the first vector |
| PublicEndpoint.Method | OpenAISwift/Public/OpenAIEndpoint.swift:45-67 | never PUT or PATCH; DELETE exactly for fileDelete, assistant, thread; GET exactly for fileContent, fineTuningJobEvents, threadRunSteps |
| PublicEndpoint.Segments | OpenAISwift/Public/OpenAIEndpoint.swift:70-118 | every route has at least one path segment |
| PublicEndpoint.Path | OpenAISwift/Public/OpenAIEndpoint.swift:70-118 | every path starts with `/` |
| PublicEndpoint.SegmentsRoundTrip | OpenAISwift/Public/OpenAIEndpoint.swift:70-118 | the case is recovered from its path segments |
| PublicEndpoint.SegmentsWithoutSlash | OpenAISwift/Public/OpenAIEndpoint.swift:70-118 | with identifiers free of `/`, no segment contains `/` |
| PublicEndpoint.RouteInvertsPath | OpenAISwift/Public/OpenAIEndpoint.swift:70-118 | with identifiers free of `/`, the case is recovered from its path |
| PublicEndpoint.PathInjective | OpenAISwift/Public/OpenAIEndpoint.swift:70-118 | with identifiers free of `/`, different cases have different paths |
| PublicEndpoint.SlashInIdentifierAliases | OpenAISwift/Public/OpenAIEndpoint.swift:104-107 | identifiers are embedded verbatim, so an assistant id containing `/files` gives the path of another route with another method |
| PublicEndpoint.ChatCompletionsRoute | OpenAISwift/Public/OpenAIEndpoint.swift:72-73 | chatCompletions is `POST /chat/completions` |
| PublicEndpoint.FileContentRoute | OpenAISwift/Public/OpenAIEndpoint.swift:90-91 | fileContent(id) is `GET /files/<id>/content` |
| PublicEndpoint.FileDeleteRoute | OpenAISwift/Public/OpenAIEndpoint.swift:92-93 | fileDelete(id) is `DELETE /files/<id>` |
| PublicEndpoint.FineTuningCancelRoute | OpenAISwift/Public/OpenAIEndpoint.swift:96-97 | fineTuningJobCancel(id) is `POST /fine_tuning/jobs/<id>/cancel` |
| PublicEndpoint.RunStepsRoute | OpenAISwift/Public/OpenAIEndpoint.swift:116-117 | threadRunSteps(t, r) is `GET /threads/<t>/runs/<r>/steps` |
| CoreEndpoint.Method | OpenAISwift/Core/OpenAIEndpoint.swift:57-67 | only GET or POST; GET exactly for models, model, fineTuneEvents and assistant |
| CoreEndpoint.Segments | OpenAISwift/Core/OpenAIEndpoint.swift:70-107 | the first segment is non-empty and does not start with `/` |
| CoreEndpoint.Path | OpenAISwift/Core/OpenAIEndpoint.swift:70-107 | no path is empty or starts with `/` |
| CoreEndpoint.Url | OpenAISwift/Core/OpenAIEndpoint.swift:110-112 | the base URL with the path appended, with one `/` between them |
| CoreEndpoint.SegmentsRoundTrip | OpenAISwift/Core/OpenAIEndpoint.swift:70-107 | the case is recovered from its path segments |
| CoreEndpoint.SegmentsWithoutSlash | OpenAISwift/Core/OpenAIEndpoint.swift:70-107 | with identifiers free of `/`, no segment contains `/` |
| CoreEndpoint.RouteInvertsPath | OpenAISwift/Core/OpenAIEndpoint.swift:70-107 | with identifiers free of `/`, the case is recovered from its path |
| CoreEndpoint.PathInjective | OpenAISwift/Core/OpenAIEndpoint.swift:70-107 | with identifiers free of `/`, different cases have different paths |
| CoreEndpoint.DefaultChatCompletionsUrl | OpenAISwift/Core/OpenAIEndpoint.swift:59-73 | chatCompletions is POST to `https://api.openai.com/v1/chat/completions` under the default base URL |
| CoreEndpoint.IdentifiedRoutes | OpenAISwift/Core/OpenAIEndpoint.swift:90-103 | `models/<id>`, `assistants/<id>`, `fine-tunes/<id>/events`, the id embedded verbatim |
| CoreEndpoint.RealTimeSessionsRoute | OpenAISwift/Core/OpenAIEndpoint.swift:104-105 | realTimeSessions is POST `sessions` |
| CoreEndpoint.SharedRoutesAgree | OpenAISwift/Core/OpenAIEndpoint.swift:70-107 | for cases both enums have, the public path is `/` plus the core path and gives the same URL; the methods agree except assistant (GET here, DELETE there) |
| Models.FromRawValue | OpenAISwift/Core/OpenAIModel.swift:4-32 | a decoded model has the decoded name as its raw value |
| Models.RawValue | OpenAISwift/Core/OpenAIModel.swift:4-32 | the wire name of each model; `Models.RawValuesDistinct` and `Models.RawValueRoundTrip` show it is injective and read back |
| Models.RawValueRoundTrip | OpenAISwift/Core/OpenAIModel.swift:4-32 | every model is decoded back from its raw value |
| Models.GptRawValueRoundTrip | OpenAISwift/Core/OpenAIModel.swift:6-17 | the chat and first embedding models are decoded back from their raw values |
| Models.OtherRawValueRoundTrip | OpenAISwift/Core/OpenAIModel.swift:18-31 | the remaining models are decoded back from their raw values |
| Models.RawValuesDistinct | OpenAISwift/Core/OpenAIModel.swift:4-32 | the raw values are pairwise distinct |
| Models.MaxTokens | OpenAISwift/Core/OpenAIModel.swift:37-56 | always positive; 8191 for the embedding models, 128000 for gpt4Turbo and gpt4Vision, 8192 for gpt4, 32768 for gpt4_32k, 4096 for gpt3_5Turbo, 16384 for gpt3_5Turbo_16k, 4096 for non-chat non-embedding models |
| Models.SupportsVision | OpenAISwift/Core/OpenAIModel.swift:59-66 | true exactly for gpt4Vision, dalle2 and dalle3 |
| Models.SupportsAudio | OpenAISwift/Core/OpenAIModel.swift:69-76 | true exactly for whisper, tts and ttsHD |
| Models.Purpose | OpenAISwift/Core/OpenAIModel.swift:79-95 | chatCompletion exactly for the six GPT models, embedding exactly for the three embedding models |
| Models.DefaultModel | OpenAISwift/Core/OpenAIModel.swift:111-126 | the default model for a purpose has that purpose |
| Models.AudioMatchesPurpose | OpenAISwift/Core/OpenAIModel.swift:69-95 | audio support exactly when the purpose is transcription or speech |
| Models.DefaultModels | OpenAISwift/Core/OpenAIModel.swift:113-116 | chat defaults to `gpt-3.5-turbo`, embeddings to `text-embedding-ada-002` |
| FunctionCalls.OptionName | OpenAISwift/Features/Chat/ChatFunctionCall.swift:69-76 | the name written for auto, none and a forced name |
| FunctionCalls.Decode | OpenAISwift/Features/Chat/ChatFunctionCall.swift:52-65 | `auto` and `none` decode to their cases, any other name to a forced name; a missing or non-string name decodes as auto; only a non-object fails |
| FunctionCalls.Encode | OpenAISwift/Features/Chat/ChatFunctionCall.swift:67-77 | one key, `name`, holding the option's name |
| FunctionCalls.RoundTrip | OpenAISwift/Features/Chat/ChatFunctionCall.swift:52-77 | decoding the encoding gives the option back, except forced `auto` and `none`, which come back as auto and none |
| FunctionCalls.ReservedNamesCollide | OpenAISwift/Features/Chat/ChatFunctionCall.swift:67-77 | forcing `auto` or `none` encodes the same as auto or none |
| FunctionCalls.ReencodeKeepsName | OpenAISwift/Features/Chat/ChatFunctionCall.swift:52-77 | re-encoding a decoded value writes the same name string back, and decoding again gives the same option |
| FunctionCalls.BabyPredictions | OpenAISwift/Features/Chat/ChatFunctionCall.swift:84-92 | one function named `generate_baby_predictions` with a description and the given schema, and no function call |
| ListQueries.QueryItems | OpenAISwift/Core/Models/CommonModels.swift:42-59 | the imperative item building produces `Items` of the query |
| ListQueries.Items | OpenAISwift/Core/Models/CommonModels.swift:42-59 | the items of a query; `ListQueries.ItemsShape`, `ItemsCarryFields` and `ItemsRoundTrip` characterize them |
| ListQueries.ItemsShape | OpenAISwift/Core/Models/CommonModels.swift:43-58 | one item per non-nil field, each carrying a value, in the order limit, after, before, order |
| ListQueries.ItemsCarryFields | OpenAISwift/Core/Models/CommonModels.swift:45-56 | each name carries its field: limit in decimal, the others verbatim; a nil field has no item |
| ListQueries.ItemsRoundTrip | OpenAISwift/Core/Models/CommonModels.swift:42-59 | the query is recovered from its items |
| ListQueries.DefaultQueryHasNoItems | OpenAISwift/Core/Models/CommonModels.swift:29-58 | a query with every field nil yields no items |
| ListQueries.LookupItems | OpenAISwift/Core/Models/CommonModels.swift:45-56 | looking a name up in the items finds the field of that name, and nothing for other names |
| Text.DecimalRoundTrip | OpenAISwift/Core/Models/CommonModels.swift:46 | `String(limit)` is a decimal rendering that reads back as the same integer |
| Text.DecimalString | OpenAISwift/Core/Models/CommonModels.swift:46 | `String(limit)`: a minus sign for negatives, then the digits; `Text.DecimalRoundTrip` reads it back |
| ListQueries.LimitValue | OpenAISwift/Core/Models/CommonModels.swift:45-47 | the rendered limit, present exactly when the limit is; `ListQueries.ItemsCarryFields` states what the item holds |
| Errors.ErrorDescription | OpenAISwift/Core/OpenAIError.swift:48-78 | every case has a description; `HTTP error <code>`, the server's own message, and a rate-limit text |
| Errors.RateLimitDescriptionMentionsTime | OpenAISwift/Core/OpenAIError.swift:62-66 | the rate-limit description names a retry time iff a reset time is present |
| Errors.RecoverySuggestion | OpenAISwift/Core/OpenAIError.swift:80-107 | every case has a non-empty suggestion |
| Errors.EqualsAsWrittenCharacterized | OpenAISwift/Core/OpenAIError.swift:109-132 | `==` as written holds iff both errors are the same case with equal payloads (codes, data, messages, model names, reset times and the causes' descriptions), except that `invalidURL` equals nothing |
| Errors.EqualsAsWritten | OpenAISwift/Core/OpenAIError.swift:109-132 | the `==` as written; `Errors.EqualsAsWrittenCharacterized` gives what it computes |
| Errors.Equals | OpenAISwift/Core/OpenAIError.swift:109-132 | the corrected `==`, with `invalidURL` equal to itself; `Errors.EqualsIsEquivalence` shows it is an equivalence |
| Errors.EqualsAsWrittenSymmetric | OpenAISwift/Core/OpenAIError.swift:109-132 | `==` as written is symmetric |
| Errors.InvalidURLNotEqualToItself | OpenAISwift/Core/OpenAIError.swift:111-130 | `invalidURL == invalidURL` is false as written |
| Errors.EqualsIsEquivalence | OpenAISwift/Core/OpenAIError.swift:109-132 | the corrected `==` is reflexive, symmetric and transitive |
| Errors.EqualsDiffersOnlyAtInvalidURL | OpenAISwift/Core/OpenAIError.swift:109-132 | the two operators disagree only on `(invalidURL, invalidURL)` |
| EnvironmentLoader.TrimIsTrimming | OpenAISwift/Helpers/EnvironmentLoader.swift:42-47 | trimming removes exactly the set's characters around a middle that neither starts nor ends with one |
| EnvironmentLoader.Trim | OpenAISwift/Helpers/EnvironmentLoader.swift:42-47 | the trimmed text neither starts nor ends with a character of the set |
| EnvironmentLoader.IsWhitespace | OpenAISwift/Helpers/EnvironmentLoader.swift:42 | `CharacterSet.whitespaces`: tab and the space separators, not line breaks |
| EnvironmentLoader.IsQuote | OpenAISwift/Helpers/EnvironmentLoader.swift:47 | the set of the two quote characters `"` and `'` |
| EnvironmentLoader.IsComment | OpenAISwift/Helpers/EnvironmentLoader.swift:38 | a line starting with `#`; `EnvironmentLoader.CommentLineIgnored` shows such lines never change the key |
| EnvironmentLoader.ParseLine | OpenAISwift/Helpers/EnvironmentLoader.swift:39-48 | one line's key value; `EnvironmentLoader.KeyLineYieldsValue`, `EmptyValueIgnored` and `NoSeparatorIgnored` characterize it |
| EnvironmentLoader.FirstKey | OpenAISwift/Helpers/EnvironmentLoader.swift:38-49 | the value of the first non-comment line accepted; `EnvironmentLoader.FirstKeyIsFirstMatch` characterizes it |
| EnvironmentLoader.LoadFromEnvFile | OpenAISwift/Helpers/EnvironmentLoader.swift:28-50 | nil for an unreadable file, else the first key of its lines; `EnvironmentLoader.FileKeyIsFirstMatchingLine` and `CRLFFileBehindCommentHasNoKey` characterize it |
| EnvironmentLoader.SplitLines | OpenAISwift/Helpers/EnvironmentLoader.swift:37 | no piece holds a line feed that is a Character of its own; a line feed inside a piece follows a carriage return |
| EnvironmentLoader.LinesOf | OpenAISwift/Helpers/EnvironmentLoader.swift:37 | the lines are non-empty and hold no line feed that is a Character of its own |
| EnvironmentLoader.SplitOnce | OpenAISwift/Helpers/EnvironmentLoader.swift:40 | at most two non-empty parts, and the first holds no `=` |
| EnvironmentLoader.KeyLineYieldsValue | OpenAISwift/Helpers/EnvironmentLoader.swift:40-47 | a line `KEY=value` with the trimmed key `OPENAI_API_KEY` yields the value trimmed of whitespace and then of quotes, and the value may contain `=` |
| EnvironmentLoader.SplitOnceAtFirst | OpenAISwift/Helpers/EnvironmentLoader.swift:40 | the line is split at its first `=` only |
| EnvironmentLoader.EmptyValueIgnored | OpenAISwift/Helpers/EnvironmentLoader.swift:40-41 | `KEY=` has one part only and yields nothing |
| EnvironmentLoader.NoSeparatorIgnored | OpenAISwift/Helpers/EnvironmentLoader.swift:41 | a line without `=` yields nothing |
| EnvironmentLoader.LeadingSeparatorSkipped | OpenAISwift/Helpers/EnvironmentLoader.swift:40 | a leading `=` is skipped by the split and changes nothing |
| EnvironmentLoader.FirstKeyIsFirstMatch | OpenAISwift/Helpers/EnvironmentLoader.swift:38-49 | the key found is that of the first non-comment line that yields one, and there is one iff some such line does |
| EnvironmentLoader.CommentLineIgnored | OpenAISwift/Helpers/EnvironmentLoader.swift:38 | a line starting with `#` never changes the key found |
| EnvironmentLoader.SplitLinesOfPiece | OpenAISwift/Helpers/EnvironmentLoader.swift:37 | text without line feeds is one piece |
| EnvironmentLoader.SplitLinesAfterPiece | OpenAISwift/Helpers/EnvironmentLoader.swift:37 | a line feed after a piece not ending in a carriage return separates that piece from the rest |
| EnvironmentLoader.SplitLinesGlueAfterCR | OpenAISwift/Helpers/EnvironmentLoader.swift:37 | a line feed after a carriage return does not separate: CR LF is one Character |
| EnvironmentLoader.SplitLinesOfJoin | OpenAISwift/Helpers/EnvironmentLoader.swift:37 | lines (empty ones included) without line feeds and not ending in a carriage return, joined by line feeds, are split back into the same lines |
| EnvironmentLoader.CRLFTextIsOneLine | OpenAISwift/Helpers/EnvironmentLoader.swift:37 | lines ending in a carriage return joined by line feeds, as in a CR LF file, are not split at all |
| EnvironmentLoader.CRLFFileBehindCommentHasNoKey | OpenAISwift/Helpers/EnvironmentLoader.swift:36-49 | a CR LF file whose first line is a comment yields no key |
| EnvironmentLoader.NonEmptyKeepsNonEmpty | OpenAISwift/Helpers/EnvironmentLoader.swift:37 | omitting empty pieces leaves a list without empty pieces unchanged |
| EnvironmentLoader.FirstKeySkipsEmptyLines | OpenAISwift/Helpers/EnvironmentLoader.swift:37-49 | omitting empty lines never changes the key found, when an empty line yields none |
| EnvironmentLoader.EmptyLineYieldsNothing | OpenAISwift/Helpers/EnvironmentLoader.swift:40-43 | an empty line yields no key |
| EnvironmentLoader.FileKeyIsFirstMatchingLine | OpenAISwift/Helpers/EnvironmentLoader.swift:28-50 | for any file with line-feed line ends (blank lines and a final line feed included), the file's key is that of the first non-comment line yielding one |
| EnvironmentLoader.LoadAPIKey | OpenAISwift/Helpers/EnvironmentLoader.swift:13-25 | the file's key wins; otherwise the environment variable; `apiKeyNotFound` iff neither exists |
| RealTime.Dispatch | OpenAISwift/Features/RealTime/RealTimeEndpoint.swift:89-118 | undecodable text reports the thrown error; a message event with a message passes it on; an error event with information reports `serverError(message)`; ping, binary frames and missing payloads report nothing |
| RealTime.ServerErrorReachesDelegate | OpenAISwift/Features/RealTime/RealTimeEndpoint.swift:101-105 | a server error event reaches the delegate once, with the server's message |
| RealTime.Notify | OpenAISwift/Features/RealTime/RealTimeEndpoint.swift:96-111 | each event becomes one call on the delegate about the session, in order |
| RealTime.RealTimeEndpoint.constructor | OpenAISwift/Features/RealTime/RealTimeEndpoint.swift:12-16 | no socket, session or delegate |
| RealTime.RealTimeEndpoint.Create | OpenAISwift/Features/RealTime/RealTimeEndpoint.swift:18-23 | the request, encoded, to the sessions endpoint; the classified response |
| RealTime.RealTimeEndpoint.Connect | OpenAISwift/Features/RealTime/RealTimeEndpoint.swift:25-41 | an unparseable URL reports `invalidURL` to the passed delegate and changes nothing; otherwise session, delegate and socket are installed and `active` is reported |
| RealTime.RealTimeEndpoint.Disconnect | OpenAISwift/Features/RealTime/RealTimeEndpoint.swift:43-53 | socket, session and delegate all nil; `expired` reported only if a session was current, so a second disconnect is silent |
| RealTime.RealTimeEndpoint.Send | OpenAISwift/Features/RealTime/RealTimeEndpoint.swift:55-66 | without a socket `noActiveSession` and nothing sent; otherwise the message's text sent as one frame |
| RealTime.RealTimeEndpoint.Handle | OpenAISwift/Features/RealTime/RealTimeEndpoint.swift:86-119 | without a current session nothing happens; otherwise the frame's events go to the delegate and the state is unchanged |
| RealTime.RealTimeEndpoint.Received | OpenAISwift/Features/RealTime/RealTimeEndpoint.swift:68-84 | a received frame is handled; a receive failure is reported and the endpoint disconnects, cancelling the socket it had; nothing is ever sent |

## Left out

- Transport is not modelled: `URLSession.data` and `bytes`, the websocket task and thrown transport errors. Responses, stream lines and websocket frames are parameters. The re-arming of `receiveMessage` is left out; one completion of it is modelled, as `Received`.
- `bytes.lines` splitting is not modelled: no CRLF or grapheme handling. The stream is given as its lines.
- The JSON codec is not modelled: `JSONEncoder`/`JSONDecoder` are function parameters. An encoder that throws is not modelled; every encoding succeeds.
- `JSONSchema` dynamic coding is opaque: it depends on `Any` casts and float decoding.
- The floating-point fields (temperature, embedding vectors) are `real` and are only copied.
- Percent-encoding in `appendingPathComponent` is not modelled; paths are joined as text.
- `URL(string:)` in `connect` is a parameter, because URL parsing is Foundation's.
- The weak `delegate` of `RealTimeEndpoint` (RealTimeEndpoint.swift:9) is always present here. A deallocated delegate would silently drop calls. The streaming network's delegate is an ordinary parameter, as in the source.
- Retry, backoff, rate-limit reset parsing and timeouts are not implemented in the source, and are not modelled. `rateLimitExceeded` is only described and compared.
- The client's own `performStreamingRequest` is not part of this model. `Client.OpenAIClient.PerformStreamingRequest` follows `DefaultOpenAINetwork.performStreamingRequest` instead.
- `OpenAISwift/Public/OpenAIError.swift` is not part of this model; it is a second error type holding only messages.
- The one-case `ChatEndpoint` enum in `OpenAISwift/Features/Chat/ChatEndpoint.swift` is not part of this model, because it repeats routing the endpoint modules cover.
- The Assistants features are not part of this model. They call `post`/`get`/`delete` helpers that are not part of this model either.
- Swift default arguments are not modelled. Callers pass the model, and `Models.DefaultModels` states the defaults the source uses.
- Some Testing-framework tests expect `invalidResponse` on a 401. This model follows the code, which gives `httpError(401, data)`.
- `functions`/`functionCall` on the chat request and `functionCall` on messages and stream deltas are declared as the code uses them. The record files declare neither.
- `Client.OpenAIClient.PerformRequest`: `OpenAIClient` and `DefaultOpenAINetwork` share one implementation, so the client's pipeline runs a network over its configuration. Aliasing of a shared `URLSession` is not modelled.
- `Errors.EqualsAsWrittenCharacterized`: strings (server messages, model names, the causes' `localizedDescription`) are compared as sequences of Unicode scalars. Swift's `String` `==` compares by canonical equivalence, so two differently normalised spellings of one text are equal in Swift and different here.
- `Streaming.IsDataLine`: `hasPrefix("data: ")` is checked scalar by scalar. Swift compares Characters (grapheme clusters), so a combining mark right after `data: ` makes Swift reject a line that this model accepts.
- `EnvironmentLoader.ParseLine`: `split(separator: "=")` and `hasPrefix("#")` work on scalars here, and the key is compared scalar by scalar. Swift splits and compares Characters with canonical equivalence, so an `=` or `#` carrying a combining mark, or a differently normalised key, behaves differently. Line splitting itself does follow Characters: CR LF is one Character (`EnvironmentLoader.SplitLines`), so a file with CR LF line ends is one line.
- `EnvironmentLoader.LoadAPIKey`: reading the `.env` file and the process environment are parameters (the file's contents, or none; the environment as a map).

## Findings

| source | as written | input that shows it | evidently intended | confidence | as-written member | corrected member |
|---|---|---|---|---|---|---|
| OpenAISwift/Core/OpenAIError.swift:109-132 | `==` lists five payload-free cases as equal to themselves but not `invalidURL`, which falls to `default: false` | `OpenAIError.invalidURL == .invalidURL` is false, so `Equatable`'s reflexivity fails | `invalidURL` equal to itself, making `==` an equivalence | not executed | Errors.InvalidURLNotEqualToItself | Errors.EqualsIsEquivalence |
