/** The backend's reader of the completion stream the conversation service
    sends: opening the stream, and `Recv`, which reads server-sent lines
    until it can hand back one completion chunk, the end of the stream or
    an error, folding every chunk into the completion merged so far. */
module SseRequest {
  import opened Common
  import opened GoValue
  import opened LineReader
  import opened BackendCompletion

  const DataPrefix := "data: "
  const DoneToken := "[DONE]"
  const ErrorStartToken := "{\"error\""

  /** `io.EOF`, the end of the stream after "[DONE]". */
  const Eof := Error("EOF")
  const EofBeforeDone := Error("EOF comes before [DONE]")
  const ErrorUnreadable := Error("failed to unmarshal error response")

  /** What one `Recv` call answers: a chunk, or an error (`io.EOF` after
      "[DONE]"). */
  datatype Outcome =
    | Received(chunk: CompletionValue)
    | Failed(error: GoError)

  /** A data line, once the prefix is gone: an error report ends the call
      with the message it carries, "[DONE]" with `io.EOF`, and anything
      else is decoded as a chunk. */
  function HandleData(data: string, decodeChunk: string -> Result<CompletionValue, GoError>,
                      decodeError: string -> Option<string>): (r: Outcome)
    ensures StartsWith(data, ErrorStartToken) ==>
      r == Failed(if decodeError(data).Some? then Error(decodeError(data).value) else ErrorUnreadable)
    ensures !StartsWith(data, ErrorStartToken) && data == DoneToken ==> r == Failed(Eof)
    ensures r.Received? <==>
      !StartsWith(data, ErrorStartToken) && data != DoneToken && decodeChunk(data).Ok?
    ensures r.Received? ==> decodeChunk(data) == Ok(r.chunk)
  {
    if StartsWith(data, ErrorStartToken) then
      match decodeError(data)
      case None => Failed(ErrorUnreadable)
      case Some(msg) => Failed(Error(msg))
    else if data == DoneToken then Failed(Eof)
    else match decodeChunk(data)
      case Err(e) => Failed(e)
      case Ok(c) => Received(c)
  }

  /** A chunk folded into the completion merged so far: the first one is
      the merged completion itself. */
  function Absorb(merged: Option<CompletionValue>, c: CompletionValue): Result<CompletionValue, GoError>
  {
    if merged.None? then Ok(c) else MergeValue(merged.value, Some(c))
  }

  /** The answer to one data line and the merged completion after it. */
  datatype Answer = Answer(outcome: Outcome, merged: Option<CompletionValue>)

  /** A data line answered: an error leaves the merged completion as it
      was, a chunk is folded into it, and a failing fold is the error. */
  function Respond(data: string, decodeChunk: string -> Result<CompletionValue, GoError>,
                   decodeError: string -> Option<string>, merged: Option<CompletionValue>): (r: Answer)
    ensures r.outcome.Received? ==> r.merged.Some? && Absorb(merged, r.outcome.chunk) == Ok(r.merged.value)
    ensures r.outcome.Failed? ==> r.merged == merged
  {
    match HandleData(data, decodeChunk, decodeError)
    case Failed(e) => Answer(Failed(e), merged)
    case Received(c) =>
      match Absorb(merged, c)
      case Err(e) => Answer(Failed(e), merged)
      case Ok(m) => Answer(Received(c), Some(m))
  }

  /** Where a `Recv` call ends: its outcome, the reader's position and
      the merged completion. */
  datatype RecvEnd = RecvEnd(outcome: Outcome, pos: nat, merged: Option<CompletionValue>)

  /** The loop of `Recv` from a reader position. A read that ends in
      `io.EOF` ends the call, whatever it read; a trimmed line without the
      data prefix is skipped; a data line is answered and ends the call. */
  function Scan(src: Source, pos: nat, decodeChunk: string -> Result<CompletionValue, GoError>,
                decodeError: string -> Option<string>, merged: Option<CompletionValue>): (r: RecvEnd)
    ensures r.outcome.Received? ==> r.merged.Some? && Absorb(merged, r.outcome.chunk) == Ok(r.merged.value)
    ensures r.outcome.Failed? ==> r.merged == merged
    decreases |src.lines| - pos
  {
    if pos >= |src.lines| then RecvEnd(Failed(EofBeforeDone), NextPos(src, pos), merged)
    else
      var line := TrimSpace(src.lines[pos]);
      if !StartsWith(line, DataPrefix) then Scan(src, pos + 1, decodeChunk, decodeError, merged)
      else
        var a := Respond(line[|DataPrefix|..], decodeChunk, decodeError, merged);
        RecvEnd(a.outcome, pos + 1, a.merged)
  }

  /** One line that is not a data line is passed over. */
  lemma ScanSkip(src: Source, pos: nat, decodeChunk: string -> Result<CompletionValue, GoError>,
                 decodeError: string -> Option<string>, merged: Option<CompletionValue>)
    requires pos < |src.lines| && !StartsWith(TrimSpace(src.lines[pos]), DataPrefix)
    ensures Scan(src, pos, decodeChunk, decodeError, merged) == Scan(src, pos + 1, decodeChunk, decodeError, merged)
  {
  }

  /** A data line is answered. */
  lemma ScanData(src: Source, pos: nat, decodeChunk: string -> Result<CompletionValue, GoError>,
                 decodeError: string -> Option<string>, merged: Option<CompletionValue>)
    requires pos < |src.lines| && StartsWith(TrimSpace(src.lines[pos]), DataPrefix)
    ensures var a := Respond(TrimSpace(src.lines[pos])[|DataPrefix|..], decodeChunk, decodeError, merged);
      Scan(src, pos, decodeChunk, decodeError, merged) == RecvEnd(a.outcome, pos + 1, a.merged)
  {
  }

  /** At the end of the input, before any "[DONE]", every call fails the
      same way. */
  lemma RunOut(src: Source, pos: nat, decodeChunk: string -> Result<CompletionValue, GoError>,
               decodeError: string -> Option<string>, merged: Option<CompletionValue>)
    requires pos >= |src.lines|
    ensures Scan(src, pos, decodeChunk, decodeError, merged).outcome == Failed(EofBeforeDone)
  {
  }

  /** The lines that, once trimmed, are not data lines. */
  predicate Skipped(lines: seq<string>) {
    forall i :: 0 <= i < |lines| ==> !StartsWith(TrimSpace(lines[i]), DataPrefix)
  }

  /** Lines that are not data lines are passed over: a call reads on to
      the first data line, and a stream without one fails at its end. */
  lemma {:induction false} SkipsNonData(src: Source, pos: nat, k: nat,
                                        decodeChunk: string -> Result<CompletionValue, GoError>,
                                        decodeError: string -> Option<string>, merged: Option<CompletionValue>)
    requires pos + k <= |src.lines| && Skipped(src.lines[pos..pos + k])
    ensures Scan(src, pos, decodeChunk, decodeError, merged) == Scan(src, pos + k, decodeChunk, decodeError, merged)
    decreases k
  {
    if k > 0 {
      assert src.lines[pos..pos + k][0] == src.lines[pos];
      ScanSkip(src, pos, decodeChunk, decodeError, merged);
      assert src.lines[pos + 1..pos + k] == src.lines[pos..pos + k][1..];
      SkipsNonData(src, pos + 1, k - 1, decodeChunk, decodeError, merged);
    }
  }

  /** A data line ends the call one line on: "[DONE]" with `io.EOF`, an
      error report with its message, a chunk with that chunk folded in. */
  lemma DataLineEnds(src: Source, pos: nat, data: string,
                     decodeChunk: string -> Result<CompletionValue, GoError>,
                     decodeError: string -> Option<string>, merged: Option<CompletionValue>)
    requires pos < |src.lines| && TrimSpace(src.lines[pos]) == DataPrefix + data
    ensures var e := Scan(src, pos, decodeChunk, decodeError, merged);
      e.pos == pos + 1 &&
      (data == DoneToken ==> e.outcome == Failed(Eof) && e.merged == merged) &&
      (StartsWith(data, ErrorStartToken) && decodeError(data).Some? ==>
         e.outcome == Failed(Error(decodeError(data).value))) &&
      (!StartsWith(data, ErrorStartToken) && data != DoneToken && decodeChunk(data).Ok? &&
       Absorb(merged, decodeChunk(data).value).Ok? ==>
         e.outcome == Received(decodeChunk(data).value) && e.merged == Some(Absorb(merged, decodeChunk(data).value).value))
  {
    var line := DataPrefix + data;
    assert StartsWith(line, DataPrefix) && line[|DataPrefix|..] == data;
    ScanData(src, pos, decodeChunk, decodeError, merged);
    if data == DoneToken {
      assert !StartsWith(data, ErrorStartToken) by {
        assert data[1] != ErrorStartToken[1];
      }
    }
  }

  /** `CreateChatStream`: a failed request or send is returned as is; a
      status of 300 or more is an error carrying the status and the body;
      anything else streams the body. */
  function CreateChatStream<R>(request: Result<R, GoError>, send: R -> Result<HttpReply, GoError>)
    : (r: Result<Source, GoError>)
    ensures r.Ok? <==> request.Ok? && send(request.value).Ok? && send(request.value).value.status < 300
    ensures r.Ok? ==> r.value == send(request.value).value.stream
    ensures (request.Ok? && send(request.value).Ok? && send(request.value).value.status >= 300 &&
             send(request.value).value.body.Ok?) ==>
      r == Err(Error("response status code is not in 200-299, status code: " +
                     IntToString(send(request.value).value.status) + ", body: " + send(request.value).value.body.value))
  {
    match request
    case Err(e) => Err(e)
    case Ok(req) =>
      match send(req)
      case Err(e) => Err(e)
      case Ok(reply) =>
        if reply.status >= 300 then
          match reply.body
          case Err(e) => Err(e)
          case Ok(body) => Err(Error("response status code is not in 200-299, status code: " +
                                     IntToString(reply.status) + ", body: " + body))
        else Ok(reply.stream)
  }

  /** `SSEStream`: the reader over the body and the completion merged from
      every chunk read so far. */
  /** The lines `Recv` passes over before the next data line, or all of
      them: the scan from there is the scan from where reading started. */
  method SkipToData(src: Source, start: nat, decodeChunk: string -> Result<CompletionValue, GoError>,
                    decodeError: string -> Option<string>, ghost merged: Option<CompletionValue>) returns (p: nat)
    ensures p >= start && Scan(src, p, decodeChunk, decodeError, merged) == Scan(src, start, decodeChunk, decodeError, merged)
    ensures p < |src.lines| ==> StartsWith(TrimSpace(src.lines[p]), DataPrefix)
  {
    p := start;
    while p < |src.lines| && !StartsWith(TrimSpace(src.lines[p]), DataPrefix)
      invariant p >= start && Scan(src, p, decodeChunk, decodeError, merged) == Scan(src, start, decodeChunk, decodeError, merged)
      decreases |src.lines| - p
    {
      ScanSkip(src, p, decodeChunk, decodeError, merged);
      p := p + 1;
    }
  }

  class SSEStream {
    const src: Source
    var pos: nat
    var merged: Completion?

    constructor(src: Source)
      ensures this.src == src && pos == 0 && merged == null
    {
      this.src := src;
      pos := 0;
      merged := null;
    }

    /** The objects the merged completion occupies. */
    function Footprint(): (r: set<object>)
      reads this`merged, merged
      ensures this !in r
    {
      if merged == null then {} else if merged.delta == null then {merged} else {merged, merged.delta}
    }

    /** The merged completion's contents, if any. */
    function MergedValue(): Option<CompletionValue>
      reads this`merged, Footprint()
    {
      if merged == null then None else Some(merged.Value())
    }

    /** `ReadUntilNow`: the completion merged so far. */
    function ReadUntilNow(): (r: Completion?)
      reads this`merged, Footprint()
      ensures r == null <==> MergedValue().None?
      ensures r != null ==> MergedValue() == Some(r.Value())
    {
      merged
    }

    /** One data line of `Recv`'s loop answered; the reader does not move. */
    method Reply(data: string, decodeChunk: string -> Result<CompletionValue, GoError>,
                 decodeError: string -> Option<string>)
      returns (chunk: Completion?, err: Option<GoError>)
      modifies Footprint(), this`merged
      ensures var a := Respond(data, decodeChunk, decodeError, old(MergedValue()));
        MergedValue() == a.merged &&
        (a.outcome.Failed? ==> chunk == null && err == Some(a.outcome.error)) &&
        (a.outcome.Received? ==> err == None && chunk != null && chunk.Value() == a.outcome.chunk)
      ensures chunk != null ==> fresh(chunk)
      ensures chunk != null && old(merged) == null ==> merged == chunk
      ensures old(merged) != null ==> merged == old(merged)
    {
      if StartsWith(data, ErrorStartToken) {
        var report := decodeError(data);
        if report.None? {
          return null, Some(ErrorUnreadable);
        }
        return null, Some(Error(report.value));
      }
      if data == DoneToken {
        return null, Some(Eof);
      }
      var parsed := decodeChunk(data);
      if parsed.Err? {
        return null, Some(parsed.error);
      }
      chunk := new Completion(parsed.value);
      if merged != null {
        var e := merged.Merge(chunk);
        if e.Some? {
          return null, e;
        }
      } else {
        merged := chunk;
      }
      return chunk, None;
    }

    /** `Recv`: reads to the next data line and answers it. The first chunk
        returned is the merged completion itself; every later one is a
        fresh object whose delta is appended to the merged one. */
    method Recv(decodeChunk: string -> Result<CompletionValue, GoError>, decodeError: string -> Option<string>)
      returns (chunk: Completion?, err: Option<GoError>)
      modifies this, Footprint()
      ensures var e := Scan(src, old(pos), decodeChunk, decodeError, old(MergedValue()));
        pos == e.pos && MergedValue() == e.merged &&
        (e.outcome.Failed? ==> chunk == null && err == Some(e.outcome.error)) &&
        (e.outcome.Received? ==> err == None && chunk != null && chunk.Value() == e.outcome.chunk)
      ensures chunk != null ==> fresh(chunk)
      ensures chunk != null && old(merged) == null ==> merged == chunk
      ensures old(merged) != null ==> merged == old(merged)
    {
      ghost var before := MergedValue();
      ghost var e := Scan(src, pos, decodeChunk, decodeError, before);
      var p := SkipToData(src, pos, decodeChunk, decodeError, before);
      if p >= |src.lines| {
        assert e == RecvEnd(Failed(EofBeforeDone), NextPos(src, p), before);
        pos := NextPos(src, p);
        return null, Some(EofBeforeDone);
      }
      var line := TrimSpace(src.lines[p]);
      ScanData(src, p, decodeChunk, decodeError, before);
      ghost var a := Respond(line[|DataPrefix|..], decodeChunk, decodeError, before);
      assert e == RecvEnd(a.outcome, p + 1, a.merged);
      pos := p + 1;
      assert MergedValue() == before;
      chunk, err := Reply(line[|DataPrefix|..], decodeChunk, decodeError);
    }
  }
}
