/**
 * The line loop of `performStreamingRequest`
 * (OpenAISwift/Core/OpenAIStreamingNetwork.swift): a server-sent event stream,
 * read line by line, becomes a sequence of delegate callbacks. Only lines of
 * the form `data: <payload>` are read, a subset of the event-stream format of
 * section 9.2.6 of the WHATWG HTML Living Standard: no bare `data:` field, no
 * multi-line data and no other fields. The delegate is a protocol; here the
 * calls made on it are returned in order.
 */
module Streaming {
  import opened Wrappers
  import opened Text
  import opened Errors
  import opened ChatTypes

  /** One call on a `ChatStreamingDelegate`. */
  datatype Callback =
    | DidReceive(chunk: ChatStreamingResponse)
    | DidComplete
    | DidError(error: OpenAIError)
  {
    predicate IsTerminal() {
      DidComplete? || DidError?
    }
  }

  /**
   * Turns a payload into a chunk: the UTF-8 encoding of the payload followed
   * by the JSON decoding of `ChatStreamingResponse`, with the error it raises.
   */
  type ChunkDecoder = string -> Result<ChatStreamingResponse, Cause>

  const DataPrefix: string := "data: "
  const DoneSentinel: string := "[DONE]"

  predicate IsDataLine(line: string) {
    HasPrefix(line, DataPrefix)
  }

  /** `line.dropFirst(6)`: the line without its `data: ` prefix. */
  function Payload(line: string): (payload: string)
    requires IsDataLine(line)
    ensures DataPrefix + payload == line
  {
    line[|DataPrefix|..]
  }

  /** The payloads that end the stream: the sentinel, and any that do not decode. */
  predicate IsStop(payload: string, decode: ChunkDecoder) {
    payload == DoneSentinel || decode(payload).Failure?
  }

  /** The callback a stopping payload makes. */
  function Terminal(payload: string, decode: ChunkDecoder): (c: Callback)
    requires IsStop(payload, decode)
    ensures c.IsTerminal()
    ensures c.DidComplete? <==> payload == DoneSentinel
  {
    if payload == DoneSentinel then DidComplete else DidError(DecodingError(decode(payload).error))
  }

  /** The callbacks the loop makes for the given lines, in order. */
  function Callbacks(lines: seq<string>, decode: ChunkDecoder): seq<Callback> {
    if lines == [] then []
    else if !IsDataLine(lines[0]) then Callbacks(lines[1..], decode)
    else
      var payload := Payload(lines[0]);
      if payload == DoneSentinel then [DidComplete]
      else match decode(payload)
        case Success(chunk) => [DidReceive(chunk)] + Callbacks(lines[1..], decode)
        case Failure(cause) => [DidError(DecodingError(cause))]
  }

  /**
   * The `for try await line in bytes.lines` loop: skips lines without the
   * prefix, completes on the sentinel, reports each decoded chunk, and stops
   * with an error at the first payload that does not decode.
   */
  method ReadLines(lines: seq<string>, decode: ChunkDecoder) returns (callbacks: seq<Callback>)
    ensures callbacks == Callbacks(lines, decode)
  {
    callbacks := [];
    var i := 0;
    while i < |lines|
      invariant 0 <= i <= |lines|
      invariant callbacks + Callbacks(lines[i..], decode) == Callbacks(lines, decode)
    {
      var line := lines[i];
      assert lines[i..][1..] == lines[i + 1..];
      if !IsDataLine(line) {
        i := i + 1;
        continue;
      }
      var data := line[|DataPrefix|..];
      if data == DoneSentinel {
        callbacks := callbacks + [DidComplete];
        break;
      }
      match decode(data) {
        case Success(chunk) =>
          callbacks := callbacks + [DidReceive(chunk)];
        case Failure(cause) =>
          callbacks := callbacks + [DidError(DecodingError(cause))];
          break;
      }
      i := i + 1;
    }
  }

  /** The payloads of the data lines, in order. */
  function Payloads(lines: seq<string>): seq<string> {
    if lines == [] then []
    else if IsDataLine(lines[0]) then [Payload(lines[0])] + Payloads(lines[1..])
    else Payloads(lines[1..])
  }

  /** The callbacks for a sequence of payloads. */
  function Dispatch(payloads: seq<string>, decode: ChunkDecoder): seq<Callback> {
    if payloads == [] then []
    else if IsStop(payloads[0], decode) then [Terminal(payloads[0], decode)]
    else [DidReceive(decode(payloads[0]).value)] + Dispatch(payloads[1..], decode)
  }

  /** The chunks the payloads decode to, in order. */
  function Decoded(payloads: seq<string>, decode: ChunkDecoder): (chunks: seq<ChatStreamingResponse>)
    requires forall j :: 0 <= j < |payloads| ==> decode(payloads[j]).Success?
    ensures |chunks| == |payloads|
    ensures forall j :: 0 <= j < |payloads| ==> decode(payloads[j]) == Success(chunks[j])
  {
    seq(|payloads|, j requires 0 <= j < |payloads| => decode(payloads[j]).value)
  }

  /** A `didReceive` for each chunk, in order. */
  function Receives(chunks: seq<ChatStreamingResponse>): seq<Callback> {
    seq(|chunks|, j requires 0 <= j < |chunks| => DidReceive(chunks[j]))
  }

  /** Lines that are not data lines make no callback and do not stop the loop. */
  lemma {:induction false} CallbacksOfPayloads(lines: seq<string>, decode: ChunkDecoder)
    ensures Callbacks(lines, decode) == Dispatch(Payloads(lines), decode)
  {
    if lines != [] {
      CallbacksOfPayloads(lines[1..], decode);
      if IsDataLine(lines[0]) {
        assert Payloads(lines)[1..] == Payloads(lines[1..]);
      }
    }
  }

  /**
   * Up to the first stopping payload each payload makes exactly one
   * `didReceive` with its chunk, in order; the stopping payload makes one
   * terminal callback (`didComplete` for the sentinel, `didError` with the
   * decoding error otherwise), and nothing follows it.
   */
  lemma {:induction false} DispatchUntilStop(payloads: seq<string>, k: nat, decode: ChunkDecoder)
    requires k < |payloads| && IsStop(payloads[k], decode)
    requires forall j :: 0 <= j < k ==> payloads[j] != DoneSentinel && decode(payloads[j]).Success?
    ensures Dispatch(payloads, decode) == Receives(Decoded(payloads[..k], decode)) + [Terminal(payloads[k], decode)]
  {
    if k > 0 {
      var rest := payloads[1..];
      assert rest[k - 1] == payloads[k];
      assert forall j :: 0 <= j < k - 1 ==> rest[j] == payloads[j + 1];
      DispatchUntilStop(rest, k - 1, decode);
      assert rest[..k - 1] == payloads[..k][1..];
      ReceivesCons(payloads[..k], decode);
    }
  }

  /** Without a stopping payload every payload makes exactly one `didReceive`, and nothing else happens. */
  lemma {:induction false} DispatchWithoutStop(payloads: seq<string>, decode: ChunkDecoder)
    requires forall j :: 0 <= j < |payloads| ==> payloads[j] != DoneSentinel && decode(payloads[j]).Success?
    ensures Dispatch(payloads, decode) == Receives(Decoded(payloads, decode))
  {
    if payloads != [] {
      var rest := payloads[1..];
      assert forall j :: 0 <= j < |rest| ==> rest[j] == payloads[j + 1];
      DispatchWithoutStop(rest, decode);
      ReceivesCons(payloads, decode);
    }
  }

  lemma ReceivesCons(payloads: seq<string>, decode: ChunkDecoder)
    requires payloads != []
    requires forall j :: 0 <= j < |payloads| ==> decode(payloads[j]).Success?
    ensures Receives(Decoded(payloads, decode))
      == [DidReceive(decode(payloads[0]).value)] + Receives(Decoded(payloads[1..], decode))
  {
    assert forall j :: 0 <= j < |payloads| - 1 ==> payloads[1..][j] == payloads[j + 1];
  }

  /** At most one terminal callback is made, and only as the last one. */
  lemma {:induction false} TerminalOnlyLast(payloads: seq<string>, decode: ChunkDecoder)
    ensures forall i :: 0 <= i < |Dispatch(payloads, decode)| - 1 ==> Dispatch(payloads, decode)[i].DidReceive?
  {
    if payloads != [] && !IsStop(payloads[0], decode) {
      TerminalOnlyLast(payloads[1..], decode);
    }
  }

  /** Lines that run out without the sentinel or a failure make no terminal callback. */
  lemma NoTerminalWithoutStop(lines: seq<string>, decode: ChunkDecoder)
    requires forall j :: 0 <= j < |Payloads(lines)| ==>
      Payloads(lines)[j] != DoneSentinel && decode(Payloads(lines)[j]).Success?
    ensures forall i :: 0 <= i < |Callbacks(lines, decode)| ==> Callbacks(lines, decode)[i].DidReceive?
    ensures |Callbacks(lines, decode)| == |Payloads(lines)|
  {
    CallbacksOfPayloads(lines, decode);
    DispatchWithoutStop(Payloads(lines), decode);
  }

  /** A line without the `data: ` prefix, wherever it stands, changes nothing. */
  lemma NonDataLineIgnored(before: seq<string>, line: string, after: seq<string>, decode: ChunkDecoder)
    requires !IsDataLine(line)
    ensures Callbacks(before + [line] + after, decode) == Callbacks(before + after, decode)
  {
    PayloadsSkipLine(before, line, after);
    CallbacksOfPayloads(before + [line] + after, decode);
    CallbacksOfPayloads(before + after, decode);
  }

  lemma {:induction false} PayloadsSkipLine(before: seq<string>, line: string, after: seq<string>)
    requires !IsDataLine(line)
    ensures Payloads(before + [line] + after) == Payloads(before + after)
  {
    if before == [] {
      assert (before + [line] + after)[1..] == after;
      assert before + after == after;
    } else {
      PayloadsSkipLine(before[1..], line, after);
      assert (before + [line] + after)[1..] == before[1..] + [line] + after;
      assert (before + after)[1..] == before[1..] + after;
    }
  }

  /** After the sentinel nothing is read: the lines that follow it make no difference. */
  lemma {:induction false} SentinelCutsStream(before: seq<string>, after: seq<string>, decode: ChunkDecoder)
    ensures Callbacks(before + [DataPrefix + DoneSentinel] + after, decode)
      == Callbacks(before + [DataPrefix + DoneSentinel], decode)
  {
    var done := DataPrefix + DoneSentinel;
    if before == [] {
      assert (before + [done] + after)[0] == done;
      assert (before + [done])[0] == done;
      assert Payload(done) == DoneSentinel;
    } else {
      SentinelCutsStream(before[1..], after, decode);
      assert (before + [done] + after)[1..] == before[1..] + [done] + after;
      assert (before + [done])[1..] == before[1..] + [done];
    }
  }
}
