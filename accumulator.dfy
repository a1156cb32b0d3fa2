/**
 * `DefaultChatStreamingDelegate`
 * (OpenAISwift/Features/Chat/DefaultChatStreamingDelegate.swift): folds the
 * chunks of a streamed chat completion into one assistant message, handed to
 * a completion closure when the stream completes. The closure is modelled by
 * the log of the values it receives.
 */
module StreamingDelegate {
  import opened Wrappers
  import opened Errors
  import opened FunctionCalls
  import opened ChatTypes
  import opened Streaming

  /** The three accumulator fields, as a value. */
  datatype Accumulated = Accumulated(
    content: string,
    functionCallArguments: string,
    functionCallName: Option<string>)

  /** The fields of a fresh delegate. */
  const Initial: Accumulated := Accumulated("", "", None)

  /** The delta of the first choice, the only one read. */
  function FirstDelta(chunk: ChatStreamingResponse): Option<ChatStreamingDelta> {
    if chunk.choices == [] then None else Some(chunk.choices[0].delta)
  }

  /** The text a chunk adds to the content. */
  function ContentPiece(chunk: ChatStreamingResponse): string {
    var delta := FirstDelta(chunk);
    if delta.Some? && delta.value.content.Some? then delta.value.content.value else ""
  }

  predicate HasCall(chunk: ChatStreamingResponse) {
    FirstDelta(chunk).Some? && FirstDelta(chunk).value.functionCall.Some?
  }

  function CallOf(chunk: ChatStreamingResponse): ChatFunctionCall
    requires HasCall(chunk)
  {
    FirstDelta(chunk).value.functionCall.value
  }

  /** The text a chunk adds to the function-call arguments. */
  function ArgumentsPiece(chunk: ChatStreamingResponse): string {
    if HasCall(chunk) then CallOf(chunk).arguments else ""
  }

  /** What `didReceive` does to the fields. */
  function Receive(acc: Accumulated, chunk: ChatStreamingResponse): (r: Accumulated)
    ensures chunk.choices == [] ==> r == acc
    ensures r.content == acc.content + ContentPiece(chunk)
    ensures r.functionCallArguments == acc.functionCallArguments + ArgumentsPiece(chunk)
    ensures r.functionCallName == if HasCall(chunk) then Some(CallOf(chunk).name) else acc.functionCallName
  {
    match FirstDelta(chunk)
    case None => acc
    case Some(delta) =>
      var content := if delta.content.Some? then acc.content + delta.content.value else acc.content;
      if delta.functionCall.Some? then
        Accumulated(content, acc.functionCallArguments + delta.functionCall.value.arguments,
          Some(delta.functionCall.value.name))
      else Accumulated(content, acc.functionCallArguments, acc.functionCallName)
  }

  /** The message `didComplete` builds from the fields. */
  function FinalMessage(acc: Accumulated): (m: ChatMessage)
    ensures m.role == Assistant && m.name.None?
    ensures acc.functionCallName.None? ==> m.content == Some(acc.content) && m.functionCall.None?
    ensures acc.functionCallName.Some? ==>
      && m.functionCall == Some(ChatFunctionCall(acc.functionCallName.value, acc.functionCallArguments))
      && (m.content.None? <==> acc.content == "")
      && (m.content.Some? ==> m.content.value == acc.content)
  {
    match acc.functionCallName
    case Some(name) =>
      ChatMessage(Assistant, if acc.content == "" then None else Some(acc.content), None,
        Some(ChatFunctionCall(name, acc.functionCallArguments)))
    case None => Message(Assistant, acc.content)
  }

  /** The fields after receiving the chunks in order. */
  function Fold(acc: Accumulated, chunks: seq<ChatStreamingResponse>): Accumulated
    decreases |chunks|
  {
    if chunks == [] then acc else Fold(Receive(acc, chunks[0]), chunks[1..])
  }

  /** The strings one after the other. */
  function Concatenation(pieces: seq<string>): string {
    if pieces == [] then "" else pieces[0] + Concatenation(pieces[1..])
  }

  function ContentPieces(chunks: seq<ChatStreamingResponse>): seq<string> {
    seq(|chunks|, j requires 0 <= j < |chunks| => ContentPiece(chunks[j]))
  }

  function ArgumentsPieces(chunks: seq<ChatStreamingResponse>): seq<string> {
    seq(|chunks|, j requires 0 <= j < |chunks| => ArgumentsPiece(chunks[j]))
  }

  /**
   * The content is the in-order concatenation of every present first-choice
   * `delta.content`, and the arguments that of every function-call delta's
   * arguments.
   */
  lemma {:induction false} FoldConcatenates(acc: Accumulated, chunks: seq<ChatStreamingResponse>)
    ensures Fold(acc, chunks).content == acc.content + Concatenation(ContentPieces(chunks))
    ensures Fold(acc, chunks).functionCallArguments
      == acc.functionCallArguments + Concatenation(ArgumentsPieces(chunks))
    decreases |chunks|
  {
    if chunks != [] {
      FoldConcatenates(Receive(acc, chunks[0]), chunks[1..]);
      assert ContentPieces(chunks)[1..] == ContentPieces(chunks[1..]);
      assert ArgumentsPieces(chunks)[1..] == ArgumentsPieces(chunks[1..]);
    }
  }

  /** Chunks without a function call leave the function-call name as it was. */
  lemma {:induction false} FoldKeepsName(acc: Accumulated, chunks: seq<ChatStreamingResponse>)
    requires forall j :: 0 <= j < |chunks| ==> !HasCall(chunks[j])
    ensures Fold(acc, chunks).functionCallName == acc.functionCallName
    decreases |chunks|
  {
    if chunks != [] {
      assert !HasCall(chunks[0]);
      assert forall k :: 0 <= k < |chunks| - 1 ==> chunks[1..][k] == chunks[k + 1];
      FoldKeepsName(Receive(acc, chunks[0]), chunks[1..]);
    }
  }

  /** Each function-call delta overwrites the name: the last chunk carrying one decides it. */
  lemma {:induction false} FoldLastNameWins(acc: Accumulated, chunks: seq<ChatStreamingResponse>, j: nat)
    requires j < |chunks| && HasCall(chunks[j])
    requires forall k :: j < k < |chunks| ==> !HasCall(chunks[k])
    ensures Fold(acc, chunks).functionCallName == Some(CallOf(chunks[j]).name)
    decreases |chunks|
  {
    var rest := chunks[1..];
    if j == 0 {
      assert forall k :: 0 <= k < |rest| ==> rest[k] == chunks[k + 1];
      FoldKeepsName(Receive(acc, chunks[0]), rest);
    } else {
      assert rest[j - 1] == chunks[j];
      assert forall k :: j - 1 < k < |rest| ==> rest[k] == chunks[k + 1];
      FoldLastNameWins(Receive(acc, chunks[0]), rest, j - 1);
    }
  }

  /** Only the first choice is read: chunks that agree on it have the same effect. */
  lemma FirstChoiceOnly(acc: Accumulated, a: ChatStreamingResponse, b: ChatStreamingResponse)
    requires a.choices != [] && b.choices != [] && a.choices[0].delta == b.choices[0].delta
    ensures Receive(acc, a) == Receive(acc, b)
  {
  }

  /** The values the completion receives when the callbacks are made in order on a delegate with the given fields. */
  function Outcomes(acc: Accumulated, callbacks: seq<Callback>): seq<Result<ChatMessage, OpenAIError>>
    decreases |callbacks|
  {
    if callbacks == [] then []
    else match callbacks[0]
      case DidReceive(chunk) => Outcomes(Receive(acc, chunk), callbacks[1..])
      case DidComplete => [Success(FinalMessage(acc))] + Outcomes(acc, callbacks[1..])
      case DidError(e) => [Failure(e)] + Outcomes(acc, callbacks[1..])
  }

  /** Receiving chunks only changes the fields; the completion is not called. */
  lemma {:induction false} OutcomesAfterReceives(acc: Accumulated, chunks: seq<ChatStreamingResponse>, rest: seq<Callback>)
    ensures Outcomes(acc, Receives(chunks) + rest) == Outcomes(Fold(acc, chunks), rest)
    decreases |chunks|
  {
    if chunks == [] {
      assert Receives(chunks) + rest == rest;
    } else {
      var all := Receives(chunks) + rest;
      assert all[0] == DidReceive(chunks[0]);
      assert all[1..] == Receives(chunks[1..]) + rest;
      OutcomesAfterReceives(Receive(acc, chunks[0]), chunks[1..], rest);
    }
  }

  /**
   * A stream whose first stopping payload is the sentinel hands the
   * completion exactly one message: the fold of every chunk before it.
   */
  lemma CompletedStream(lines: seq<string>, decode: ChunkDecoder, k: nat)
    requires k < |Payloads(lines)| && Payloads(lines)[k] == DoneSentinel
    requires forall j :: 0 <= j < k ==> Payloads(lines)[j] != DoneSentinel && decode(Payloads(lines)[j]).Success?
    ensures Outcomes(Initial, Callbacks(lines, decode))
      == [Success(FinalMessage(Fold(Initial, Decoded(Payloads(lines)[..k], decode))))]
  {
    var payloads := Payloads(lines);
    CallbacksOfPayloads(lines, decode);
    DispatchUntilStop(payloads, k, decode);
    OutcomesAfterReceives(Initial, Decoded(payloads[..k], decode), [DidComplete]);
  }

  /** A stream whose first stopping payload does not decode hands the completion exactly that decoding error. */
  lemma FailedStream(lines: seq<string>, decode: ChunkDecoder, k: nat)
    requires k < |Payloads(lines)| && Payloads(lines)[k] != DoneSentinel && decode(Payloads(lines)[k]).Failure?
    requires forall j :: 0 <= j < k ==> Payloads(lines)[j] != DoneSentinel && decode(Payloads(lines)[j]).Success?
    ensures Outcomes(Initial, Callbacks(lines, decode)) == [Failure(DecodingError(decode(Payloads(lines)[k]).error))]
  {
    var payloads := Payloads(lines);
    CallbacksOfPayloads(lines, decode);
    DispatchUntilStop(payloads, k, decode);
    OutcomesAfterReceives(Initial, Decoded(payloads[..k], decode), [Terminal(payloads[k], decode)]);
  }

  /** A stream that runs out without the sentinel or a failure never calls the completion. */
  lemma UnterminatedStream(lines: seq<string>, decode: ChunkDecoder)
    requires forall j :: 0 <= j < |Payloads(lines)| ==>
      Payloads(lines)[j] != DoneSentinel && decode(Payloads(lines)[j]).Success?
    ensures Outcomes(Initial, Callbacks(lines, decode)) == []
  {
    var payloads := Payloads(lines);
    CallbacksOfPayloads(lines, decode);
    DispatchWithoutStop(payloads, decode);
    OutcomesAfterReceives(Initial, Decoded(payloads, decode), []);
    assert Receives(Decoded(payloads, decode)) + [] == Receives(Decoded(payloads, decode));
  }

  /** The fields after the callbacks are made in order: every `didReceive` folds its chunk in. */
  function After(acc: Accumulated, callbacks: seq<Callback>): Accumulated
    decreases |callbacks|
  {
    if callbacks == [] then acc
    else After(if callbacks[0].DidReceive? then Receive(acc, callbacks[0].chunk) else acc, callbacks[1..])
  }

  /** One more callback: its outcome is appended, and it acts on the fields the earlier ones left. */
  lemma {:induction false} OutcomesSnoc(acc: Accumulated, callbacks: seq<Callback>, c: Callback)
    ensures After(acc, callbacks + [c]) == After(After(acc, callbacks), [c])
    ensures Outcomes(acc, callbacks + [c]) == Outcomes(acc, callbacks) + Outcomes(After(acc, callbacks), [c])
    decreases |callbacks|
  {
    if callbacks == [] {
      assert callbacks + [c] == [c];
    } else {
      var next := if callbacks[0].DidReceive? then Receive(acc, callbacks[0].chunk) else acc;
      assert (callbacks + [c])[0] == callbacks[0];
      assert (callbacks + [c])[1..] == callbacks[1..] + [c];
      OutcomesSnoc(next, callbacks[1..], c);
    }
  }

  /** The fields after a run of `didReceive` calls are the fold of their chunks. */
  lemma {:induction false} AfterReceives(acc: Accumulated, chunks: seq<ChatStreamingResponse>)
    ensures After(acc, Receives(chunks)) == Fold(acc, chunks)
    decreases |chunks|
  {
    if chunks != [] {
      assert Receives(chunks)[0] == DidReceive(chunks[0]);
      assert Receives(chunks)[1..] == Receives(chunks[1..]);
      AfterReceives(Receive(acc, chunks[0]), chunks[1..]);
    }
  }

  /** `DefaultChatStreamingDelegate`; `completions` logs the values passed to `completion`. */
  class DefaultChatStreamingDelegate {
    var content: string
    var functionCallArguments: string
    var functionCallName: Option<string>
    var completions: seq<Result<ChatMessage, OpenAIError>>

    function Fields(): Accumulated
      reads this
    {
      Accumulated(content, functionCallArguments, functionCallName)
    }

    /** `init(completion:)`: empty content and arguments, no name. */
    constructor()
      ensures Fields() == Initial && completions == []
    {
      content := "";
      functionCallArguments := "";
      functionCallName := None;
      completions := [];
    }

    /** `didReceive(chunk:)`: appends the first choice's content and function-call arguments and takes its name. */
    method DidReceive(chunk: ChatStreamingResponse)
      modifies this
      ensures Fields() == Receive(old(Fields()), chunk)
      ensures completions == old(completions)
    {
      if chunk.choices == [] {
        return;
      }
      var choice := chunk.choices[0];
      if choice.delta.content.Some? {
        content := content + choice.delta.content.value;
      }
      if choice.delta.functionCall.Some? {
        functionCallName := Some(choice.delta.functionCall.value.name);
        functionCallArguments := functionCallArguments + choice.delta.functionCall.value.arguments;
      }
    }

    /** `didComplete()`: hands the built assistant message to the completion. */
    method DidComplete()
      modifies this
      ensures Fields() == old(Fields())
      ensures completions == old(completions) + [Success(FinalMessage(old(Fields())))]
    {
      var message: ChatMessage;
      if functionCallName.Some? {
        message := ChatMessage(Assistant, if content == "" then None else Some(content), None,
          Some(ChatFunctionCall(functionCallName.value, functionCallArguments)));
      } else {
        message := Message(Assistant, content);
      }
      completions := completions + [Success(message)];
    }

    /** `didError(_:)`: hands the error to the completion; the fields are untouched. */
    method DidError(error: OpenAIError)
      modifies this
      ensures Fields() == old(Fields())
      ensures completions == old(completions) + [Failure(error)]
    {
      completions := completions + [Failure(error)];
    }

    /**
     * The streaming loop's calls on this delegate: each callback in order,
     * as `performStreamingRequest` makes them.
     */
    method Consume(callbacks: seq<Callback>)
      modifies this
      ensures Fields() == After(old(Fields()), callbacks)
      ensures completions == old(completions) + Outcomes(old(Fields()), callbacks)
    {
      var i := 0;
      while i < |callbacks|
        invariant 0 <= i <= |callbacks|
        invariant Fields() == After(old(Fields()), callbacks[..i])
        invariant completions == old(completions) + Outcomes(old(Fields()), callbacks[..i])
      {
        OutcomesSnoc(old(Fields()), callbacks[..i], callbacks[i]);
        assert callbacks[..i + 1] == callbacks[..i] + [callbacks[i]];
        match callbacks[i] {
          case DidReceive(chunk) => DidReceive(chunk);
          case DidComplete => DidComplete();
          case DidError(e) => DidError(e);
        }
        i := i + 1;
      }
      assert callbacks[..i] == callbacks;
    }
  }
}
