/** The v2 GPT streaming reader: opening a stream, and `Recv`, which reads
    server-sent lines until it can hand back one chat response, the end of
    the stream, or an error, while folding every chunk it reads into the
    response merged so far. */
module GptStream {
  import opened Common
  import opened GoValue
  import opened ChatV2
  import opened GptModel
  import opened LineReader

  const DataPrefix := "data: "
  const DoneToken := "[DONE]"
  const ErrorStartToken := "{error"
  const Upstage := "upstage"

  const EofBeforeDone := Error("v2 EOF comes before [DONE]")

  /** What one `Recv` call answers. `Finished` is a return of `io.EOF`,
      with the merged response when the call was merging; `Diverges` is a
      call that never returns. */
  datatype Outcome =
    | Response(resp: ChatResponse)
    | Failed(error: GoError)
    | Finished(last: Option<ChatResponse>)
    | Diverges

  /** The error for a stream that ends before "[DONE]": the accumulated
      error lines once an error has started. */
  function EofError(isError: bool, errRaw: string): GoError
  {
    if isError then Error(errRaw) else EofBeforeDone
  }

  /** A conversion into a chat response, as an outcome. */
  function Converted(r: Result<ChatResponse, GoError>, done: bool): Outcome
  {
    match r
    case Err(e) => Failed(e)
    case Ok(resp) => if done then Finished(Some(resp)) else Response(resp)
  }

  /** What handling one trimmed line leads to: a return, or another turn of
      the loop with new local state. */
  datatype Step =
    | Return(outcome: Outcome, merged: Option<ResponseValue>)
    | Again(shouldMerge: bool, isError: bool, errRaw: string, merged: Option<ResponseValue>)

  /** One trimmed line. A line that is not a data line is skipped. Once a
      data line reads "{error", every data line is accumulated. "[DONE]"
      ends the stream. Any other data is a chunk: a chunk without choices
      is skipped; the others are folded into the merged response, and are
      returned one by one until a function call or tool calls switch the
      call into merging. */
  function HandleLine(line: string, parse: string -> Result<Chunk, GoError>, codec: ArgumentCodec,
                      merged: Option<ResponseValue>, shouldMerge: bool, isError: bool, errRaw: string): (r: Step)
    ensures !StartsWith(line, DataPrefix) ==> r == Again(shouldMerge, isError, errRaw, merged)
    ensures r.Again? ==> (shouldMerge ==> r.shouldMerge) && (isError ==> r.isError)
    ensures r.Return? && shouldMerge ==> !r.outcome.Response?
  {
    if !StartsWith(line, DataPrefix) then Again(shouldMerge, isError, errRaw, merged)
    else
      var data := line[|DataPrefix|..];
      var isError := isError || data == ErrorStartToken;
      if isError then Again(shouldMerge, true, errRaw + line, merged)
      else if data == DoneToken then
        if !shouldMerge then Return(Finished(None), merged)
        else if merged.None? then Return(Failed(NilDereference), merged)
        else Return(Converted(ToChatResponse(merged.value.choices, codec), true), merged)
      else match parse(data)
        case Err(e) => Return(Failed(e), merged)
        case Ok(chunk) =>
          if |chunk.choices| < 1 then Again(shouldMerge, false, errRaw, merged)
          else
            var delta := chunk.choices[0].delta;
            var shouldMerge := shouldMerge ||
              (delta.Some? && (delta.value.functionCall.Some? || delta.value.toolCalls.Some?));
            var folded := if merged.Some? then MergeValue(merged.value, chunk) else Ok(ChunkValue(chunk));
            match folded
            case Err(e) => Return(Failed(e), merged)
            case Ok(m) =>
              if shouldMerge then Again(true, false, errRaw, Some(m))
              else Return(Converted(ToChatResponse(ChunkValue(chunk).choices, codec), false), Some(m))
  }

  /** Where a `Recv` call ends: its outcome, the reader's position and
      the merged response. */
  datatype RecvEnd = RecvEnd(outcome: Outcome, pos: nat, merged: Option<ResponseValue>)

  /** The loop of `Recv` from a reader position and local state. A provider
      other than "upstage" stops at `io.EOF` before looking at what was
      read. For "upstage" the source never checks the read error: `repaired`
      false is that code, which after the end of the input reads an empty
      line, skips it, and reads again forever; `repaired` true handles what
      was read with `io.EOF` and then reports the end as the other providers
      do. */
  function Scan(src: Source, pos: nat, provider: string, repaired: bool,
                parse: string -> Result<Chunk, GoError>, codec: ArgumentCodec,
                merged: Option<ResponseValue>, shouldMerge: bool, isError: bool, errRaw: string): (r: RecvEnd)
    requires pos <= |src.lines| + 1
    ensures r.pos <= |src.lines| + 1
    decreases |src.lines| + 1 - pos
  {
    var eof := pos >= |src.lines|;
    var next := NextPos(src, pos);
    if provider != Upstage && eof then RecvEnd(Failed(EofError(isError, errRaw)), next, merged)
    else if provider == Upstage && !repaired && pos > |src.lines| then RecvEnd(Diverges, pos, merged)
    else match HandleLine(TrimSpace(ReadAt(src, pos)), parse, codec, merged, shouldMerge, isError, errRaw)
      case Return(outcome, m) => RecvEnd(outcome, next, m)
      case Again(sm, ie, er, m) =>
        if eof && repaired then RecvEnd(Failed(EofError(ie, er)), next, m)
        else Scan(src, next, provider, repaired, parse, codec, m, sm, ie, er)
  }

  /** `Recv` as the source has it. */
  function RecvAsWritten(src: Source, pos: nat, provider: string, parse: string -> Result<Chunk, GoError>,
                         codec: ArgumentCodec, merged: Option<ResponseValue>): RecvEnd
    requires pos <= |src.lines| + 1
  {
    Scan(src, pos, provider, false, parse, codec, merged, false, false, "")
  }

  /** `Recv` with the end of the input checked for every provider. */
  function RecvSpec(src: Source, pos: nat, provider: string, parse: string -> Result<Chunk, GoError>,
                    codec: ArgumentCodec, merged: Option<ResponseValue>): RecvEnd
    requires pos <= |src.lines| + 1
  {
    Scan(src, pos, provider, true, parse, codec, merged, false, false, "")
  }

  /** No line from a position on, nor the tail, is a data line. */
  predicate NoDataFrom(src: Source, pos: nat)
  {
    (forall i :: pos <= i < |src.lines| ==> !StartsWith(TrimSpace(src.lines[i]), DataPrefix)) &&
    !StartsWith(TrimSpace(src.tail), DataPrefix)
  }

  /** A stream that runs out without another data line: every provider but
      "upstage" reports the end before "[DONE]" (or the error collected so
      far); "upstage" as written never returns, and repaired it reports the
      same error. */
  lemma {:induction false} RunOutWithoutData(src: Source, pos: nat, provider: string, repaired: bool,
                                             parse: string -> Result<Chunk, GoError>, codec: ArgumentCodec,
                                             merged: Option<ResponseValue>, shouldMerge: bool, isError: bool, errRaw: string)
    requires pos <= |src.lines| + 1 && NoDataFrom(src, pos)
    ensures var r := Scan(src, pos, provider, repaired, parse, codec, merged, shouldMerge, isError, errRaw);
      (provider != Upstage || repaired ==> r.outcome == Failed(EofError(isError, errRaw))) &&
      (provider == Upstage && !repaired ==> r.outcome == Diverges)
    decreases |src.lines| + 1 - pos
  {
    var eof := pos >= |src.lines|;
    if !(provider != Upstage && eof) && !(provider == Upstage && !repaired && pos > |src.lines|) {
      assert !StartsWith(TrimSpace(ReadAt(src, pos)), DataPrefix);
      if !(eof && repaired) {
        ScanQuiet(src, pos, provider, repaired, parse, codec, merged, shouldMerge, isError, errRaw);
        RunOutWithoutData(src, NextPos(src, pos), provider, repaired, parse, codec, merged, shouldMerge, isError, errRaw);
      }
    }
  }

  /** A line that is not a data line, read before the end, is passed over
      with the local state as it was. */
  lemma ScanQuiet(src: Source, pos: nat, provider: string, repaired: bool,
                  parse: string -> Result<Chunk, GoError>, codec: ArgumentCodec,
                  merged: Option<ResponseValue>, shouldMerge: bool, isError: bool, errRaw: string)
    requires pos <= |src.lines| + 1 && !StartsWith(TrimSpace(ReadAt(src, pos)), DataPrefix)
    requires !(provider != Upstage && pos >= |src.lines|)
    requires !(provider == Upstage && !repaired && pos > |src.lines|)
    requires !(pos >= |src.lines| && repaired)
    ensures Scan(src, pos, provider, repaired, parse, codec, merged, shouldMerge, isError, errRaw) ==
      Scan(src, NextPos(src, pos), provider, repaired, parse, codec, merged, shouldMerge, isError, errRaw)
  {
  }

  /** An empty body: as written, "upstage" `Recv` never returns, while the
      repaired loop, like every other provider, reports the missing
      "[DONE]". */
  lemma AsWrittenUpstageEmptyStreamDiverges(src: Source, parse: string -> Result<Chunk, GoError>, codec: ArgumentCodec)
    requires src.lines == [] && src.tail == ""
    ensures RecvAsWritten(src, 0, Upstage, parse, codec, None).outcome == Diverges
    ensures RecvSpec(src, 0, Upstage, parse, codec, None).outcome == Failed(EofBeforeDone)
    ensures RecvSpec(src, 0, "openai", parse, codec, None).outcome == Failed(EofBeforeDone)
  {
    assert NoDataFrom(src, 0) by {
      assert TrimSpace(src.tail) == "";
    }
    assert RecvAsWritten(src, 0, Upstage, parse, codec, None).outcome == Diverges by {
      RunOutWithoutData(src, 0, Upstage, false, parse, codec, None, false, false, "");
    }
    assert RecvSpec(src, 0, Upstage, parse, codec, None).outcome == Failed(EofBeforeDone) by {
      RunOutWithoutData(src, 0, Upstage, true, parse, codec, None, false, false, "");
    }
    assert RecvSpec(src, 0, "openai", parse, codec, None).outcome == Failed(EofBeforeDone) by {
      RunOutWithoutData(src, 0, "openai", true, parse, codec, None, false, false, "");
    }
  }

  /** The trimmed data lines of full lines from a position on. */
  function DataLines(lines: seq<string>, pos: nat): string
    decreases |lines| - pos
  {
    if pos >= |lines| then ""
    else (if StartsWith(TrimSpace(lines[pos]), DataPrefix) then TrimSpace(lines[pos]) else "") + DataLines(lines, pos + 1)
  }

  /** A full line that does not end the call moves the loop on to the next
      line with the new local state. */
  lemma ScanAgain(src: Source, pos: nat, provider: string, repaired: bool,
                  parse: string -> Result<Chunk, GoError>, codec: ArgumentCodec,
                  merged: Option<ResponseValue>, shouldMerge: bool, isError: bool, errRaw: string)
    requires pos < |src.lines|
    requires HandleLine(TrimSpace(src.lines[pos]), parse, codec, merged, shouldMerge, isError, errRaw).Again?
    ensures var st := HandleLine(TrimSpace(src.lines[pos]), parse, codec, merged, shouldMerge, isError, errRaw);
      Scan(src, pos, provider, repaired, parse, codec, merged, shouldMerge, isError, errRaw) ==
      Scan(src, pos + 1, provider, repaired, parse, codec, st.merged, st.shouldMerge, st.isError, st.errRaw)
  {
    assert ReadAt(src, pos) == src.lines[pos];
  }

  /** After an error has started, a data line is collected and any other
      line skipped. */
  lemma HandleLineInError(line: string, parse: string -> Result<Chunk, GoError>, codec: ArgumentCodec,
                          merged: Option<ResponseValue>, shouldMerge: bool, errRaw: string)
    ensures HandleLine(line, parse, codec, merged, shouldMerge, true, errRaw) ==
      Again(shouldMerge, true, if StartsWith(line, DataPrefix) then errRaw + line else errRaw, merged)
  {
  }

  /** Once an error has started, a provider other than "upstage" reports at
      the end of the input an error made of the lines collected so far and
      every later data line, "[DONE]" included. */
  lemma {:induction false} ErrorAccumulates(src: Source, pos: nat, provider: string, repaired: bool,
                                            parse: string -> Result<Chunk, GoError>, codec: ArgumentCodec,
                                            merged: Option<ResponseValue>, shouldMerge: bool, errRaw: string)
    requires pos <= |src.lines| + 1 && provider != Upstage
    ensures Scan(src, pos, provider, repaired, parse, codec, merged, shouldMerge, true, errRaw).outcome ==
      Failed(Error(errRaw + DataLines(src.lines, pos)))
    decreases |src.lines| + 1 - pos
  {
    if pos >= |src.lines| {
      assert errRaw + DataLines(src.lines, pos) == errRaw;
    } else {
      var line := TrimSpace(src.lines[pos]);
      var collected := if StartsWith(line, DataPrefix) then errRaw + line else errRaw;
      HandleLineInError(line, parse, codec, merged, shouldMerge, errRaw);
      ScanAgain(src, pos, provider, repaired, parse, codec, merged, shouldMerge, true, errRaw);
      ErrorAccumulates(src, pos + 1, provider, repaired, parse, codec, merged, shouldMerge, collected);
      var rest := DataLines(src.lines, pos + 1);
      var head := if StartsWith(line, DataPrefix) then line else "";
      DataLinesStep(src.lines, pos);
      Collected(errRaw, line, rest, StartsWith(line, DataPrefix));
    }
  }

  /** Collecting a line, or not, before the rest. */
  lemma Collected(errRaw: string, line: string, rest: string, data: bool)
    ensures (if data then errRaw + line else errRaw) + rest == errRaw + ((if data then line else "") + rest)
  {
    if data {
      assert (errRaw + line) + rest == errRaw + (line + rest);
    } else {
      assert "" + rest == rest;
    }
  }

  lemma DataLinesStep(lines: seq<string>, pos: nat)
    requires pos < |lines|
    ensures DataLines(lines, pos) ==
      (if StartsWith(TrimSpace(lines[pos]), DataPrefix) then TrimSpace(lines[pos]) else "") + DataLines(lines, pos + 1)
  {
  }

  /** Once a call merges, it never hands back a single chunk: it ends only
      with "[DONE]", an error or the end of the input. */
  lemma {:induction false} MergingHoldsBack(src: Source, pos: nat, provider: string, repaired: bool,
                                            parse: string -> Result<Chunk, GoError>, codec: ArgumentCodec,
                                            merged: Option<ResponseValue>, isError: bool, errRaw: string)
    requires pos <= |src.lines| + 1
    ensures !Scan(src, pos, provider, repaired, parse, codec, merged, true, isError, errRaw).outcome.Response?
    decreases |src.lines| + 1 - pos
  {
    var eof := pos >= |src.lines|;
    if !(provider != Upstage && eof) && !(provider == Upstage && !repaired && pos > |src.lines|) {
      var step := HandleLine(TrimSpace(ReadAt(src, pos)), parse, codec, merged, true, isError, errRaw);
      if step.Again? && !(eof && repaired) {
        MergingHoldsBack(src, NextPos(src, pos), provider, repaired, parse, codec, step.merged, step.isError, step.errRaw);
      }
    }
  }

  /** A chunk line with choices and neither function nor tool calls, read
      outside merging: it is handed back converted, and folded into the
      merged response, becoming it when there was none. */
  lemma ChunkReturnedAndFolded(src: Source, pos: nat, provider: string, repaired: bool,
                               parse: string -> Result<Chunk, GoError>, codec: ArgumentCodec,
                               merged: Option<ResponseValue>, data: string, chunk: Chunk)
    requires pos < |src.lines| && TrimSpace(src.lines[pos]) == DataPrefix + data
    requires data != ErrorStartToken && data != DoneToken && parse(data) == Ok(chunk)
    requires |chunk.choices| > 0
    requires var d := chunk.choices[0].delta; d.None? || (d.value.functionCall.None? && d.value.toolCalls.None?)
    requires merged.Some? ==> MergeValue(merged.value, chunk).Ok?
    ensures var r := Scan(src, pos, provider, repaired, parse, codec, merged, false, false, "");
      r.pos == pos + 1 &&
      r.outcome == Converted(ToChatResponse(ChoicesOf(chunk.choices), codec), false) &&
      r.merged == Some(if merged.Some? then MergeValue(merged.value, chunk).value else ChunkValue(chunk))
  {
    var line := DataPrefix + data;
    assert StartsWith(line, DataPrefix) && line[|DataPrefix|..] == data;
  }

  /** "[DONE]" outside merging ends the stream with nothing more. */
  lemma DoneEndsStream(src: Source, pos: nat, provider: string, repaired: bool,
                       parse: string -> Result<Chunk, GoError>, codec: ArgumentCodec, merged: Option<ResponseValue>)
    requires pos < |src.lines| && TrimSpace(src.lines[pos]) == DataPrefix + DoneToken
    ensures Scan(src, pos, provider, repaired, parse, codec, merged, false, false, "") ==
      RecvEnd(Finished(None), pos + 1, merged)
  {
    var line := DataPrefix + DoneToken;
    assert StartsWith(line, DataPrefix) && line[|DataPrefix|..] == DoneToken;
  }

  /** `CreateChatStream`: a client that cannot stream is refused; the
      request is built by the builder of the provider ("upstage" or
      "openai"; any other provider leaves the request nil, and sending it
      panics); a status of 300 or more is an error carrying the body. */
  function CreateChatStream<R>(streamable: bool, model: string, provider: string,
                               solarRequest: Result<R, GoError>, openAIRequest: Result<R, GoError>,
                               send: R -> Result<HttpReply, GoError>): (r: Result<Source, GoError>)
    ensures !streamable ==> r == Err(Error("model " + model + " cannot stream"))
    ensures streamable && provider !in {Upstage, "openai"} ==> r == Err(NilDereference)
    ensures r.Ok? ==> (streamable && ((provider == Upstage && solarRequest.Ok? && send(solarRequest.value).Ok? &&
      send(solarRequest.value).value.status < 300) || (provider == "openai" && openAIRequest.Ok? &&
      send(openAIRequest.value).Ok? && send(openAIRequest.value).value.status < 300)))
  {
    if !streamable then Err(Error("model " + model + " cannot stream"))
    else if provider != Upstage && provider != "openai" then Err(NilDereference)
    else
      var request := if provider == Upstage then solarRequest else openAIRequest;
      match request
      case Err(e) => Err(e)
      case Ok(req) =>
        match send(req)
        case Err(e) => Err(e)
        case Ok(reply) =>
          if reply.status >= 300 then
            match reply.body
            case Err(e) => Err(e)
            case Ok(body) => Err(Error("response status code is not in 200-299, status code: " +
                                       IntToString(reply.status) + ", body: " + body))
          else Ok(reply.stream)
  }

  /** `GPTStream`: the reader over the body and the response merged from
      every chunk read so far. */
  class GPTStream {
    const src: Source
    var pos: nat
    var merged: ChatCompletionResponse?

    constructor(src: Source)
      ensures this.src == src && pos == 0 && merged == null
    {
      this.src := src;
      pos := 0;
      merged := null;
    }

    /** The merged response's contents, if any. */
    function MergedValue(): Option<ResponseValue>
      reads this, merged
    {
      if merged == null then None else Some(merged.Value())
    }

    /** `ReadUntilNow`: the response merged so far. */
    function ReadUntilNow(): (r: ChatCompletionResponse?)
      reads this
      ensures r == null <==> MergedValue().None?
    {
      merged
    }

    /** One trimmed line of `Recv`'s loop: a return, or the loop's new
        local state. */
    method Handle(line: string, parse: string -> Result<Chunk, GoError>, codec: ArgumentCodec,
                  shouldMerge: bool, isError: bool, errRaw: string)
      returns (ret: Option<Outcome>, sm: bool, ie: bool, er: string)
      modifies this, merged
      ensures pos == old(pos)
      ensures merged != null ==> merged == old(merged) || fresh(merged)
      ensures var st := HandleLine(line, parse, codec, old(MergedValue()), shouldMerge, isError, errRaw);
        MergedValue() == st.merged &&
        (st.Return? ==> ret == Some(st.outcome)) &&
        (st.Again? ==> ret == None && sm == st.shouldMerge && ie == st.isError && er == st.errRaw)
    {
      sm, ie, er := shouldMerge, isError, errRaw;
      if !StartsWith(line, DataPrefix) {
        return None, sm, ie, er;
      }
      var data := line[|DataPrefix|..];
      if data == ErrorStartToken {
        ie := true;
      }
      if ie {
        er := er + line;
        return None, sm, ie, er;
      }
      if data == DoneToken {
        if sm {
          if merged == null {
            return Some(Failed(NilDereference)), sm, ie, er;
          }
          var converted := ToChatResponse(merged.choices, codec);
          return Some(Converted(converted, true)), sm, ie, er;
        }
        return Some(Finished(None)), sm, ie, er;
      }
      var parsed := parse(data);
      if parsed.Err? {
        return Some(Failed(parsed.error)), sm, ie, er;
      }
      var chunk := parsed.value;
      if |chunk.choices| < 1 {
        return None, sm, ie, er;
      }
      var delta := chunk.choices[0].delta;
      if delta.Some? && (delta.value.functionCall.Some? || delta.value.toolCalls.Some?) {
        sm := true;
      }
      if merged != null {
        var err := merged.Merge(chunk);
        if err.Some? {
          return Some(Failed(err.value)), sm, ie, er;
        }
      } else {
        merged := ResponseOfChunk(chunk);
      }
      if !sm {
        var response := ResponseOfChunk(chunk);
        var converted := ToChatResponse(response.choices, codec);
        return Some(Converted(converted, false)), sm, ie, er;
      }
      return None, sm, ie, er;
    }

    /** `Recv`, with the end of the input checked for every provider. */
    method Recv(provider: string, parse: string -> Result<Chunk, GoError>, codec: ArgumentCodec) returns (o: Outcome)
      requires pos <= |src.lines| + 1
      modifies this, merged
      ensures var e := RecvSpec(src, old(pos), provider, parse, codec, old(MergedValue()));
        o == e.outcome && pos == e.pos && MergedValue() == e.merged
    {
      var shouldMerge := false;
      var isError := false;
      var errRaw := "";
      while true
        invariant pos <= |src.lines| + 1
        invariant merged != null ==> merged == old(merged) || fresh(merged)
        invariant Scan(src, pos, provider, true, parse, codec, MergedValue(), shouldMerge, isError, errRaw) ==
          RecvSpec(src, old(pos), provider, parse, codec, old(MergedValue()))
        decreases |src.lines| + 1 - pos
      {
        var eof := pos >= |src.lines|;
        var raw := ReadAt(src, pos);
        pos := NextPos(src, pos);
        if provider != Upstage && eof {
          return Failed(EofError(isError, errRaw));
        }
        var ret, sm, ie, er := Handle(TrimSpace(raw), parse, codec, shouldMerge, isError, errRaw);
        if ret.Some? {
          return ret.value;
        }
        shouldMerge, isError, errRaw := sm, ie, er;
        if eof {
          return Failed(EofError(isError, errRaw));
        }
      }
    }
  }
}
