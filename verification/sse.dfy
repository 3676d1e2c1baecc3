/** Decoding of an event-stream response body (src/mcp/upstream-client.ts,
    `parseSSEResponse`): a simplified reading of the `data:` field. Only lines
    that begin with `data: ` count, and their payloads are concatenated with no
    separator between them. */
module Sse {
  import opened Results
  import opened Strings
  import opened Protocol

  const DataMarker := "data: "
  const NoData := "No data found in SSE response"

  predicate IsDataLine(line: string) {
    StartsWith(line, DataMarker)
  }

  /** What one line adds to the payload: everything after the marker, or nothing. */
  function LinePayload(line: string): string {
    if IsDataLine(line) then line[|DataMarker|..] else ""
  }

  /** The payload carried by a list of lines. */
  function DataOf(lines: seq<string>): string {
    if |lines| == 0 then "" else LinePayload(lines[0]) + DataOf(lines[1..])
  }

  /** The payload carried by a body, split on `\n`. */
  function Data(text: string): string {
    DataOf(Split(text, '\n'))
  }

  /** `parseSSEResponse`: fails with "No data found" exactly when the payload is
      empty, fails when the parser rejects the payload, and otherwise yields what
      the parser makes of it. */
  function Parse(text: string, decode: Decoder): (r: Result<Response, string>)
    ensures r == Err(NoData) <==> Data(text) == ""
    ensures r.Ok? <==> Data(text) != "" && decode(Data(text)).Some?
    ensures r.Ok? ==> r.value == decode(Data(text)).value
  {
    var payload := Data(text);
    if payload == "" then Err(NoData)
    else match decode(payload)
      case None => Err(ParseFailure)
      case Some(resp) => Ok(resp)
  }

  lemma {:induction false} DataOfAppend(a: seq<string>, b: seq<string>)
    ensures DataOf(a + b) == DataOf(a) + DataOf(b)
    decreases |a|
  {
    if |a| == 0 {
      assert a + b == b;
    } else {
      DataOfAppend(a[1..], b);
      assert (a + b)[1..] == a[1..] + b;
    }
  }

  /** A line without the marker contributes nothing, wherever it stands. */
  lemma OtherLinesIgnored(before: seq<string>, line: string, after: seq<string>)
    requires !IsDataLine(line)
    ensures DataOf(before + [line] + after) == DataOf(before + after)
  {
    DataOfAppend(before + [line], after);
    DataOfAppend(before, [line]);
    DataOfAppend(before, after);
  }

  /** The payload is empty exactly when every data line has an empty payload
      (in particular when there is no data line at all). */
  lemma {:induction false} DataEmptyIff(lines: seq<string>)
    ensures DataOf(lines) == "" <==>
            forall k :: 0 <= k < |lines| && IsDataLine(lines[k]) ==> |lines[k]| == |DataMarker|
    decreases |lines|
  {
    if |lines| > 0 {
      DataEmptyIff(lines[1..]);
      assert forall k :: 1 <= k < |lines| ==> lines[1..][k - 1] == lines[k];
    }
  }

  /** The payload of a single data line is the text after the marker. */
  lemma SingleDataLine(payload: string)
    ensures DataOf([DataMarker + payload]) == payload
  {
    assert (DataMarker + payload)[..|DataMarker|] == DataMarker;
    assert (DataMarker + payload)[|DataMarker|..] == payload;
  }

  function Concat(pieces: seq<string>): string {
    if |pieces| == 0 then "" else pieces[0] + Concat(pieces[1..])
  }

  /** The lines of an event-stream body carrying `pieces` as data. */
  function DataLines(pieces: seq<string>): (r: seq<string>)
    ensures |r| == |pieces|
    ensures forall k :: 0 <= k < |pieces| ==> r[k] == DataMarker + pieces[k]
  {
    if |pieces| == 0 then [] else [DataMarker + pieces[0]] + DataLines(pieces[1..])
  }

  /** An event-stream body carrying `pieces` on consecutive data lines. */
  function Encode(pieces: seq<string>): string {
    Join(DataLines(pieces), '\n')
  }

  lemma {:induction false} DataOfDataLines(pieces: seq<string>)
    ensures DataOf(DataLines(pieces)) == Concat(pieces)
    decreases |pieces|
  {
    if |pieces| > 0 {
      DataOfDataLines(pieces[1..]);
      SingleDataLine(pieces[0]);
    }
  }

  lemma EncodeDecodes(pieces: seq<string>)
    requires |pieces| >= 1
    requires forall k :: 0 <= k < |pieces| ==> '\n' !in pieces[k]
    ensures Data(Encode(pieces)) == Concat(pieces)
  {
    var lines := DataLines(pieces);
    assert '\n' !in DataMarker;
    assert forall k :: 0 <= k < |lines| ==> '\n' !in lines[k];
    SplitJoin(lines, '\n');
    DataOfDataLines(pieces);
  }

  /** A payload split across several data lines decodes to the same payload as
      one line carrying all of it. */
  lemma SplitPayloadRoundTrip(pieces: seq<string>)
    requires |pieces| >= 1
    requires forall k :: 0 <= k < |pieces| ==> '\n' !in pieces[k]
    ensures Data(Encode(pieces)) == Concat(pieces)
    ensures Data(Encode(pieces)) == Data(Encode([Concat(pieces)]))
  {
    EncodeDecodes(pieces);
    NoNewlineInConcat(pieces);
    EncodeDecodes([Concat(pieces)]);
    assert Concat([Concat(pieces)]) == Concat(pieces);
  }

  lemma {:induction false} NoNewlineInConcat(pieces: seq<string>)
    requires forall k :: 0 <= k < |pieces| ==> '\n' !in pieces[k]
    ensures '\n' !in Concat(pieces)
    decreases |pieces|
  {
    if |pieces| > 0 {
      NoNewlineInConcat(pieces[1..]);
    }
  }

  /** The source's loop over the lines of the body (lines 73-80), accumulating
      payloads in order; it computes the payload `Data` describes. */
  method CollectData(text: string) returns (data: string)
    ensures data == Data(text)
  {
    var lines := Split(text, '\n');
    data := "";
    var i := 0;
    while i < |lines|
      invariant 0 <= i <= |lines|
      invariant data == DataOf(lines[..i])
    {
      var line := lines[i];
      if StartsWith(line, DataMarker) {
        data := data + line[|DataMarker|..];
      }
      DataOfAppend(lines[..i], [line]);
      assert lines[..i + 1] == lines[..i] + [line];
      i := i + 1;
    }
    assert lines[..|lines|] == lines;
  }
}
