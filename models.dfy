/**
 * `OpenAIModel` and `ModelPurpose` (OpenAISwift/Core/OpenAIModel.swift): the
 * model identifiers with their wire names and the capability tables.
 */
module Models {
  import opened Wrappers

  datatype OpenAIModel =
    | Gpt4 | Gpt4Turbo | Gpt4Vision | Gpt4_32k
    | Gpt3_5Turbo | Gpt3_5Turbo_16k
    | Embeddings | EmbeddingsV3 | EmbeddingsV3Large
    | Dalle2 | Dalle3
    | Whisper | Tts | TtsHD
    | ModerationLatest | ModerationStable

  datatype ModelPurpose =
    | ChatCompletion | Embedding | ImageGeneration
    | AudioTranscription | TextToSpeech | Moderation

  /** The `rawValue`, the model name sent on the wire. */
  function RawValue(m: OpenAIModel): string {
    match m
    case Gpt4 => "gpt-4"
    case Gpt4Turbo => "gpt-4-1106-preview"
    case Gpt4Vision => "gpt-4-vision-preview"
    case Gpt4_32k => "gpt-4-32k"
    case Gpt3_5Turbo => "gpt-3.5-turbo"
    case Gpt3_5Turbo_16k => "gpt-3.5-turbo-16k"
    case Embeddings => "text-embedding-ada-002"
    case EmbeddingsV3 => "text-embedding-3-small"
    case EmbeddingsV3Large => "text-embedding-3-large"
    case Dalle2 => "dall-e-2"
    case Dalle3 => "dall-e-3"
    case Whisper => "whisper-1"
    case Tts => "tts-1"
    case TtsHD => "tts-1-hd"
    case ModerationLatest => "text-moderation-latest"
    case ModerationStable => "text-moderation-stable"
  }

  /** The synthesized `init?(rawValue:)`, which `Codable` decoding uses. */
  function FromRawValue(s: string): (m: Option<OpenAIModel>)
    ensures m.Some? ==> RawValue(m.value) == s
  {
    if s == "gpt-4" then Some(Gpt4)
    else if s == "gpt-4-1106-preview" then Some(Gpt4Turbo)
    else if s == "gpt-4-vision-preview" then Some(Gpt4Vision)
    else if s == "gpt-4-32k" then Some(Gpt4_32k)
    else if s == "gpt-3.5-turbo" then Some(Gpt3_5Turbo)
    else if s == "gpt-3.5-turbo-16k" then Some(Gpt3_5Turbo_16k)
    else if s == "text-embedding-ada-002" then Some(Embeddings)
    else if s == "text-embedding-3-small" then Some(EmbeddingsV3)
    else if s == "text-embedding-3-large" then Some(EmbeddingsV3Large)
    else if s == "dall-e-2" then Some(Dalle2)
    else if s == "dall-e-3" then Some(Dalle3)
    else if s == "whisper-1" then Some(Whisper)
    else if s == "tts-1" then Some(Tts)
    else if s == "tts-1-hd" then Some(TtsHD)
    else if s == "text-moderation-latest" then Some(ModerationLatest)
    else if s == "text-moderation-stable" then Some(ModerationStable)
    else None
  }

  lemma GptRawValueRoundTrip(m: OpenAIModel)
    requires m in {Gpt4, Gpt4Turbo, Gpt4Vision, Gpt4_32k, Gpt3_5Turbo, Gpt3_5Turbo_16k, Embeddings, EmbeddingsV3}
    ensures FromRawValue(RawValue(m)) == Some(m)
  {
  }

  lemma OtherRawValueRoundTrip(m: OpenAIModel)
    requires m in {EmbeddingsV3Large, Dalle2, Dalle3, Whisper, Tts, TtsHD, ModerationLatest, ModerationStable}
    ensures FromRawValue(RawValue(m)) == Some(m)
  {
  }

  /** Decoding what was encoded gives the model back. */
  lemma RawValueRoundTrip(m: OpenAIModel)
    ensures FromRawValue(RawValue(m)) == Some(m)
  {
    if m in {Gpt4, Gpt4Turbo, Gpt4Vision, Gpt4_32k, Gpt3_5Turbo, Gpt3_5Turbo_16k, Embeddings, EmbeddingsV3} {
      GptRawValueRoundTrip(m);
    } else {
      OtherRawValueRoundTrip(m);
    }
  }

  /** The raw values are pairwise distinct. */
  lemma RawValuesDistinct(m1: OpenAIModel, m2: OpenAIModel)
    ensures RawValue(m1) == RawValue(m2) ==> m1 == m2
  {
    RawValueRoundTrip(m1);
    RawValueRoundTrip(m2);
  }

  predicate IsEmbeddingModel(m: OpenAIModel) {
    m == Embeddings || m == EmbeddingsV3 || m == EmbeddingsV3Large
  }

  predicate IsGptModel(m: OpenAIModel) {
    m in {Gpt4, Gpt4Turbo, Gpt4Vision, Gpt4_32k, Gpt3_5Turbo, Gpt3_5Turbo_16k}
  }

  /** `maxTokens`: the context size of each model; those without an explicit case get 4096. */
  function MaxTokens(m: OpenAIModel): (tokens: int)
    ensures tokens > 0
    ensures IsEmbeddingModel(m) ==> tokens == 8191
    ensures m == Gpt4Turbo || m == Gpt4Vision ==> tokens == 128000
    ensures m == Gpt4 ==> tokens == 8192
    ensures m == Gpt4_32k ==> tokens == 32768
    ensures m == Gpt3_5Turbo ==> tokens == 4096
    ensures m == Gpt3_5Turbo_16k ==> tokens == 16384
    ensures !IsGptModel(m) && !IsEmbeddingModel(m) ==> tokens == 4096
  {
    match m
    case Gpt4 => 8192
    case Gpt4Turbo => 128000
    case Gpt4Vision => 128000
    case Gpt4_32k => 32768
    case Gpt3_5Turbo => 4096
    case Gpt3_5Turbo_16k => 16384
    case Embeddings | EmbeddingsV3 | EmbeddingsV3Large => 8191
    case _ => 4096
  }

  /** `supportsVision`. */
  function SupportsVision(m: OpenAIModel): (b: bool)
    ensures b <==> m == Gpt4Vision || m == Dalle2 || m == Dalle3
  {
    match m
    case Gpt4Vision | Dalle2 | Dalle3 => true
    case _ => false
  }

  /** `supportsAudio`. */
  function SupportsAudio(m: OpenAIModel): (b: bool)
    ensures b <==> m == Whisper || m == Tts || m == TtsHD
  {
    match m
    case Whisper | Tts | TtsHD => true
    case _ => false
  }

  /** `purpose`. */
  function Purpose(m: OpenAIModel): (p: ModelPurpose)
    ensures p == ChatCompletion <==> IsGptModel(m)
    ensures p == Embedding <==> IsEmbeddingModel(m)
  {
    match m
    case Gpt4 | Gpt4Turbo | Gpt4Vision | Gpt4_32k | Gpt3_5Turbo | Gpt3_5Turbo_16k => ChatCompletion
    case Embeddings | EmbeddingsV3 | EmbeddingsV3Large => Embedding
    case Dalle2 | Dalle3 => ImageGeneration
    case Whisper => AudioTranscription
    case Tts | TtsHD => TextToSpeech
    case ModerationLatest | ModerationStable => Moderation
  }

  /** `defaultModel(for:)`: the recommended model serves the purpose it is recommended for. */
  function DefaultModel(p: ModelPurpose): (m: OpenAIModel)
    ensures Purpose(m) == p
  {
    match p
    case ChatCompletion => Gpt3_5Turbo
    case Embedding => Embeddings
    case ImageGeneration => Dalle3
    case AudioTranscription => Whisper
    case TextToSpeech => Tts
    case Moderation => ModerationLatest
  }

  /** The audio-capable models are exactly those whose purpose is transcription or speech. */
  lemma AudioMatchesPurpose(m: OpenAIModel)
    ensures SupportsAudio(m) <==> Purpose(m) == AudioTranscription || Purpose(m) == TextToSpeech
  {
  }

  /** The defaults the convenience calls rely on: gpt-3.5-turbo for chat, ada-002 for embeddings. */
  lemma DefaultModels()
    ensures DefaultModel(ChatCompletion) == Gpt3_5Turbo && RawValue(Gpt3_5Turbo) == "gpt-3.5-turbo"
    ensures DefaultModel(Embedding) == Embeddings && RawValue(Embeddings) == "text-embedding-ada-002"
  {
  }
}
