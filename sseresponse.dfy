/** The backend's writer of server-sent events: each payload is written
    as one data frame and flushed at once. */
module SseResponse {
  import opened Common
  import opened GoValue
  import opened LineReader
  import opened BackendCompletion
  import opened SseRequest

  const StreamingUnsupported := Error("streaming unsupported")
  const EventStream := "text/event-stream;charset=utf-8"

  /** An `http.ResponseWriter`: whether it can flush, its header, the body
      written so far and how much of it has been flushed to the client. */
  class ResponseWriter {
    const flusher: bool
    var header: map<string, string>
    var body: string
    var flushed: nat

    constructor(flusher: bool)
      ensures this.flusher == flusher && header == map[] && body == "" && flushed == 0
    {
      this.flusher := flusher;
      header := map[];
      body := "";
      flushed := 0;
    }
  }

  /** One data frame: the prefix, the payload as given, and a blank line. */
  function Frame(payload: string): string {
    DataPrefix + payload + "\n\n"
  }

  /** The payload of an error frame: the message inside a JSON object,
      not escaped. */
  function ErrorPayload(msg: string): string {
    "{\"error\": \"" + msg + "\"}"
  }

  /** Writes one frame: the content type is set, the frame appended and
      everything flushed; a writer that cannot flush is refused and left
      as it was. */
  method WriteFrame(w: ResponseWriter, payload: string) returns (err: Option<GoError>)
    modifies w
    ensures !w.flusher ==>
      (err == Some(StreamingUnsupported) &&
       w.header == old(w.header) && w.body == old(w.body) && w.flushed == old(w.flushed))
    ensures w.flusher ==>
      (err == None && w.header == old(w.header)["Content-Type" := EventStream] &&
       w.body == old(w.body) + Frame(payload) && w.flushed == |w.body|)
  {
    if !w.flusher {
      return Some(StreamingUnsupported);
    }
    w.header := w.header["Content-Type" := EventStream];
    w.body := w.body + Frame(payload);
    w.flushed := |w.body|;
    return None;
  }

  /** `WriteStreamResponse`: the payload as one frame. */
  method WriteStreamResponse(w: ResponseWriter, b: string) returns (err: Option<GoError>)
    modifies w
    ensures !w.flusher ==>
      (err == Some(StreamingUnsupported) &&
       w.header == old(w.header) && w.body == old(w.body) && w.flushed == old(w.flushed))
    ensures w.flusher ==>
      (err == None && w.header == old(w.header)["Content-Type" := EventStream] &&
       w.body == old(w.body) + Frame(b) && w.flushed == |w.body|)
  {
    err := WriteFrame(w, b);
  }

  /** `WriteStreamErrorResponse`: the error's message as an error frame. */
  method WriteStreamErrorResponse(w: ResponseWriter, e: GoError) returns (err: Option<GoError>)
    modifies w
    ensures !w.flusher ==>
      (err == Some(StreamingUnsupported) &&
       w.header == old(w.header) && w.body == old(w.body) && w.flushed == old(w.flushed))
    ensures w.flusher ==>
      (err == None && w.header == old(w.header)["Content-Type" := EventStream] &&
       w.body == old(w.body) + Frame(ErrorPayload(e.msg)) && w.flushed == |w.body|)
  {
    err := WriteFrame(w, ErrorPayload(e.msg));
  }

  /** Frames written one after another. */
  function Frames(payloads: seq<string>): string
    decreases |payloads|
  {
    if |payloads| == 0 then "" else Frame(payloads[0]) + Frames(payloads[1..])
  }

  /** The lines of frames written one after another: each data line
      followed by a blank one. */
  function FrameLines(payloads: seq<string>): (r: seq<string>)
    ensures |r| == 2 * |payloads|
    decreases |payloads|
  {
    if |payloads| == 0 then [] else [DataPrefix + payloads[0], ""] + FrameLines(payloads[1..])
  }

  /** The k-th payload's data line comes at 2k, its blank line at 2k + 1. */
  lemma {:induction false} FrameLinesAt(payloads: seq<string>, k: nat)
    requires k < |payloads|
    ensures FrameLines(payloads)[2 * k] == DataPrefix + payloads[k]
    ensures FrameLines(payloads)[2 * k + 1] == ""
    decreases k
  {
    if k > 0 {
      FrameLinesAt(payloads[1..], k - 1);
      var tail := FrameLines(payloads[1..]);
      assert FrameLines(payloads) == [DataPrefix + payloads[0], ""] + tail;
      assert FrameLines(payloads)[2 * k] == tail[2 * (k - 1)];
      assert FrameLines(payloads)[2 * k + 1] == tail[2 * (k - 1) + 1];
    }
  }

  /** A payload that reads back as written: one line that the reader's
      trimming leaves alone. */
  predicate Readable(payload: string) {
    |payload| > 0 && !HasChar(payload, '\n') && !IsSpace(payload[|payload| - 1])
  }

  /** The data line of a readable payload holds no newline and is its own trim. */
  lemma DataLine(payload: string)
    requires Readable(payload)
    ensures !HasChar(DataPrefix + payload, '\n') && TrimSpace(DataPrefix + payload) == DataPrefix + payload
  {
    assert !HasChar(DataPrefix, '\n');
    HasCharConcat(DataPrefix, payload, '\n');
    var line := DataPrefix + payload;
    assert line[|line| - 1] == payload[|payload| - 1];
    TrimmedAlready(line);
  }

  /** A data line and the blank line after it split off the front. */
  lemma SplitFrame(line: string, rest: string)
    requires !HasChar(line, '\n')
    ensures Split(line + "\n\n" + rest, '\n') == [line, ""] + Split(rest, '\n')
  {
    var tail := ['\n'] + rest;
    var whole := ['\n'] + tail;
    assert line + "\n\n" + rest == line + whole;
    SplitPrefix(line, whole, '\n');
    assert whole[1..] == [] + tail;
    SplitPrefix([], tail, '\n');
    assert tail[1..] == rest;
  }

  /** The first frame, then the others. */
  lemma FramesFirst(payloads: seq<string>)
    requires |payloads| > 0
    ensures Frames(payloads) == (DataPrefix + payloads[0]) + "\n\n" + Frames(payloads[1..])
  {
  }

  /** Two lines in front of a list that ends with an empty one. */
  lemma Regroup(whole: seq<string>, front: seq<string>, tail: seq<string>, rest: seq<string>)
    requires whole == front + rest && rest == tail + [""]
    ensures whole == (front + tail) + [""]
  {
  }

  /** Frames written one after another split into their lines, each data
      line followed by a blank one, and an empty remainder. */
  lemma {:induction false} FramesSplit(payloads: seq<string>)
    requires forall k :: 0 <= k < |payloads| ==> Readable(payloads[k])
    ensures Split(Frames(payloads), '\n') == FrameLines(payloads) + [""]
    decreases |payloads|
  {
    if |payloads| > 0 {
      var line := DataPrefix + payloads[0];
      var rest := Frames(payloads[1..]);
      FramesSplit(payloads[1..]);
      DataLine(payloads[0]);
      FramesFirst(payloads);
      SplitFrame(line, rest);
      Regroup(Split(Frames(payloads), '\n'), [line, ""], FrameLines(payloads[1..]), Split(rest, '\n'));
    } else {
      assert Frames(payloads) == "";
      assert !HasChar("", '\n');
    }
  }

  /** The reader sees frames written one after another as their lines, in
      order, with nothing left over. */
  lemma FramesLines(payloads: seq<string>)
    requires forall k :: 0 <= k < |payloads| ==> Readable(payloads[k])
    ensures Lines(Frames(payloads)) == Source(FrameLines(payloads), "")
  {
    FramesSplit(payloads);
    var parts := FrameLines(payloads) + [""];
    assert parts[..|parts| - 1] == FrameLines(payloads);
  }

  /** The data line of a readable payload: the reader answers the
      payload and moves one line on. */
  lemma DataAt(src: Source, pos: nat, payload: string, decodeChunk: string -> Result<CompletionValue, GoError>,
               decodeError: string -> Option<string>, merged: Option<CompletionValue>)
    requires Readable(payload)
    requires pos < |src.lines| && src.lines[pos] == DataPrefix + payload
    ensures var a := Respond(payload, decodeChunk, decodeError, merged);
      Scan(src, pos, decodeChunk, decodeError, merged) == RecvEnd(a.outcome, pos + 1, a.merged)
  {
    DataLine(payload);
    var line := TrimSpace(src.lines[pos]);
    assert line == DataPrefix + payload;
    PrefixThenRest(DataPrefix, payload);
    ScanData(src, pos, decodeChunk, decodeError, merged);
  }

  /** A blank line is passed over. */
  lemma BlankAt(src: Source, pos: nat, decodeChunk: string -> Result<CompletionValue, GoError>,
                decodeError: string -> Option<string>, merged: Option<CompletionValue>)
    requires pos < |src.lines| && src.lines[pos] == ""
    ensures Scan(src, pos, decodeChunk, decodeError, merged) == Scan(src, pos + 1, decodeChunk, decodeError, merged)
  {
    assert TrimSpace("") == "";
    ScanSkip(src, pos, decodeChunk, decodeError, merged);
  }

  /** Round trip: of frames written one after another, the k-th is what
      the reader answers on reaching its data line, and the blank line
      after it is passed over on the way to the next. */
  lemma ReadBack(payloads: seq<string>, k: nat, decodeChunk: string -> Result<CompletionValue, GoError>,
                 decodeError: string -> Option<string>, merged: Option<CompletionValue>)
    requires forall k :: 0 <= k < |payloads| ==> Readable(payloads[k])
    requires k < |payloads|
    ensures var src := Lines(Frames(payloads));
      var a := Respond(payloads[k], decodeChunk, decodeError, merged);
      Scan(src, 2 * k, decodeChunk, decodeError, merged) == RecvEnd(a.outcome, 2 * k + 1, a.merged) &&
      Scan(src, 2 * k + 1, decodeChunk, decodeError, merged) == Scan(src, 2 * k + 2, decodeChunk, decodeError, merged)
  {
    var src := Lines(Frames(payloads));
    FrameLinesAt(payloads, k);
    FramesLines(payloads);
    var a := Respond(payloads[k], decodeChunk, decodeError, merged);
    assert Scan(src, 2 * k, decodeChunk, decodeError, merged) == RecvEnd(a.outcome, 2 * k + 1, a.merged) by {
      DataAt(src, 2 * k, payloads[k], decodeChunk, decodeError, merged);
    }
    BlankAt(src, 2 * k + 1, decodeChunk, decodeError, merged);
  }

  /** A chunk framed and read back is the chunk: the reader decodes the
      payload it was given, and the first chunk becomes the merged one. */
  lemma ChunkRoundTrip(payload: string, c: CompletionValue, decodeChunk: string -> Result<CompletionValue, GoError>,
                       decodeError: string -> Option<string>)
    requires Readable(payload) && !StartsWith(payload, ErrorStartToken) && payload != DoneToken
    requires decodeChunk(payload) == Ok(c)
    ensures Scan(Lines(Frame(payload)), 0, decodeChunk, decodeError, None) == RecvEnd(Received(c), 1, Some(c))
  {
    assert Frames([payload]) == Frame(payload);
    ReadBack([payload], 0, decodeChunk, decodeError, None);
  }

  /** An error frame is recognised by its prefix: the reader answers it
      with an error, never with a chunk, and leaves the merged completion
      as it was. */
  lemma ErrorFrameRecognised(msg: string, decodeChunk: string -> Result<CompletionValue, GoError>,
                             decodeError: string -> Option<string>, merged: Option<CompletionValue>)
    requires !HasChar(msg, '\n')
    ensures var e := Scan(Lines(Frame(ErrorPayload(msg))), 0, decodeChunk, decodeError, merged);
      e.outcome.Failed? && e.merged == merged
  {
    var payload := ErrorPayload(msg);
    assert !HasChar("{\"error\": \"", '\n') && !HasChar("\"}", '\n');
    HasCharConcat("{\"error\": \"", msg, '\n');
    HasCharConcat("{\"error\": \"" + msg, "\"}", '\n');
    assert payload[|payload| - 1] == '}';
    assert Frames([payload]) == Frame(payload);
    ReadBack([payload], 0, decodeChunk, decodeError, merged);
    assert StartsWith(payload, ErrorStartToken);
  }
}
