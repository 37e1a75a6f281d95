/** The OpenAI-compatible chat completion response of the v2 GPT client:
    streamed chunks, their conversion into a response, the merge of a chunk
    into an accumulated response, and the conversion into a chat response. */
module GptModel {
  import opened Common
  import opened GoValue
  import opened ChatV2

  /** `ChatCompletionFunctionCallResp`. */
  datatype FunctionCallResp = FunctionCallResp(name: string, arguments: string)

  /** `ChatCompletionToolsResp`; its function may be nil. */
  datatype ToolResp = ToolResp(index: int, id: string, typ: string, fn: Option<FunctionCallResp>)

  /** `ChatCompletionMessage`. A nil tool-call list is `None`. */
  datatype CompletionMessage = CompletionMessage(role: string, content: string, name: string,
                                                 functionCall: Option<FunctionCallResp>,
                                                 toolCalls: Option<seq<ToolResp>>, toolCallId: string)

  const EmptyMessage := CompletionMessage("", "", "", None, None, "")

  /** `ChatCompletionResponseChoice`. */
  datatype Choice = Choice(index: int, message: CompletionMessage, finishReason: string)

  /** `ChatCompletionResponseUsage`. */
  datatype Usage = Usage(promptTokens: int, completionTokens: int, totalTokens: int)

  /** `ChatCompletionResponseChunkChoice`; its delta may be nil. */
  datatype ChunkChoice = ChunkChoice(index: int, delta: Option<CompletionMessage>, finishReason: string)

  /** `ChatCompletionResponseChunk`. */
  datatype Chunk = Chunk(id: string, objectType: string, created: int, model: string, choices: seq<ChunkChoice>)

  const IndexOutOfRange := Panic("index out of range")

  /** The error of a merge across responses; the two values it prints are
      not modelled. */
  const DifferentIds := Error("responses must have same id")

  /** A function call with a delta appended, created empty when absent. */
  function ConcatCall(call: Option<FunctionCallResp>, d: FunctionCallResp): (r: FunctionCallResp)
    ensures call.None? ==> r == d
    ensures call.Some? ==> r.name == call.value.name + d.name && r.arguments == call.value.arguments + d.arguments
  {
    var base := if call.Some? then call.value else FunctionCallResp("", "");
    assert call.None? ==> base.name + d.name == d.name && base.arguments + d.arguments == d.arguments;
    FunctionCallResp(base.name + d.name, base.arguments + d.arguments)
  }

  /** One delta tool call merged into the list: an index at or past the
      end appends one empty entry first; an index past even that panics. */
  function MergeToolCall(calls: seq<ToolResp>, d: ToolResp): (r: Result<seq<ToolResp>, GoError>)
    ensures r.Ok? <==> 0 <= d.index <= |calls|
    ensures r.Ok? ==> |r.value| == if d.index == |calls| then |calls| + 1 else |calls|
    ensures r.Ok? ==> forall k :: 0 <= k < |calls| && k != d.index ==> r.value[k] == calls[k]
  {
    if d.index < 0 then Err(IndexOutOfRange)
    else
      var grown := if d.index >= |calls| then calls + [ToolResp(0, "", "", None)] else calls;
      if d.index >= |grown| then Err(IndexOutOfRange)
      else
        var t := grown[d.index];
        var fn := if d.fn.Some? then Some(ConcatCall(t.fn, d.fn.value)) else t.fn;
        Ok(grown[d.index := t.(id := t.id + d.id, typ := t.typ + d.typ, fn := fn)])
  }

  /** The delta tool calls merged one after another. */
  function MergeToolCalls(calls: seq<ToolResp>, deltas: seq<ToolResp>): (r: Result<seq<ToolResp>, GoError>)
    ensures r.Ok? ==> |r.value| >= |calls|
    decreases |deltas|
  {
    if |deltas| == 0 then Ok(calls)
    else match MergeToolCall(calls, deltas[0])
      case Err(e) => Err(e)
      case Ok(next) => MergeToolCalls(next, deltas[1..])
  }

  /** The ids of the deltas aimed at entry j, in stream order. */
  function IdsAt(deltas: seq<ToolResp>, j: int): string
  {
    if |deltas| == 0 then "" else (if deltas[0].index == j then deltas[0].id else "") + IdsAt(deltas[1..], j)
  }

  /** The types of the deltas aimed at entry j, in stream order. */
  function TypesAt(deltas: seq<ToolResp>, j: int): string
  {
    if |deltas| == 0 then "" else (if deltas[0].index == j then deltas[0].typ else "") + TypesAt(deltas[1..], j)
  }

  /** Entry j's id, empty past the end. */
  function IdOf(calls: seq<ToolResp>, j: int): string
  {
    if 0 <= j < |calls| then calls[j].id else ""
  }

  /** Entry j's type, empty past the end. */
  function TypeOf(calls: seq<ToolResp>, j: int): string
  {
    if 0 <= j < |calls| then calls[j].typ else ""
  }

  /** Entry j's function call, none past the end. */
  function FnOf(calls: seq<ToolResp>, j: int): Option<FunctionCallResp>
  {
    if 0 <= j < |calls| then calls[j].fn else None
  }

  /** Entry j's function name, empty without a function call. */
  function FnNameOf(calls: seq<ToolResp>, j: int): string
  {
    if FnOf(calls, j).Some? then FnOf(calls, j).value.name else ""
  }

  /** Entry j's function arguments, empty without a function call. */
  function FnArgsOf(calls: seq<ToolResp>, j: int): string
  {
    if FnOf(calls, j).Some? then FnOf(calls, j).value.arguments else ""
  }

  /** The function names of the deltas aimed at entry j, in stream order. */
  function NamesAt(deltas: seq<ToolResp>, j: int): string
  {
    if |deltas| == 0 then ""
    else (if deltas[0].index == j && deltas[0].fn.Some? then deltas[0].fn.value.name else "") + NamesAt(deltas[1..], j)
  }

  /** The function arguments of the deltas aimed at entry j, in stream order. */
  function ArgsAt(deltas: seq<ToolResp>, j: int): string
  {
    if |deltas| == 0 then ""
    else (if deltas[0].index == j && deltas[0].fn.Some? then deltas[0].fn.value.arguments else "") + ArgsAt(deltas[1..], j)
  }

  /** Some delta aimed at entry j carries a function call. */
  predicate FnAimedAt(deltas: seq<ToolResp>, j: int)
  {
    exists i :: 0 <= i < |deltas| && deltas[i].index == j && deltas[i].fn.Some?
  }

  /** One merge step appends the delta's id, type, function name and
      arguments to the entry it aims at, which has a function call after
      it exactly when it had one or the delta carries one; every other
      entry is left alone. */
  lemma MergeToolCallAt(calls: seq<ToolResp>, d: ToolResp, j: int)
    requires MergeToolCall(calls, d).Ok?
    ensures IdOf(MergeToolCall(calls, d).value, j) == IdOf(calls, j) + (if d.index == j then d.id else "")
    ensures TypeOf(MergeToolCall(calls, d).value, j) == TypeOf(calls, j) + (if d.index == j then d.typ else "")
    ensures FnOf(MergeToolCall(calls, d).value, j).Some? <==> FnOf(calls, j).Some? || (d.index == j && d.fn.Some?)
    ensures FnNameOf(MergeToolCall(calls, d).value, j) ==
      FnNameOf(calls, j) + (if d.index == j && d.fn.Some? then d.fn.value.name else "")
    ensures FnArgsOf(MergeToolCall(calls, d).value, j) ==
      FnArgsOf(calls, j) + (if d.index == j && d.fn.Some? then d.fn.value.arguments else "")
  {
    if d.index == j && d.fn.Some? && FnOf(calls, j).None? {
      assert FnNameOf(calls, j) + d.fn.value.name == d.fn.value.name;
      assert FnArgsOf(calls, j) + d.fn.value.arguments == d.fn.value.arguments;
    }
  }

  /** After a merge, each tool call's id, type, function name and
      arguments are what it had (nothing for an entry the merge appended)
      followed by those of every delta aimed at it, in order; it has a
      function call exactly when it had one or some delta aimed at it
      carried one. */
  lemma MergeToolCallsConcatenates(calls: seq<ToolResp>, deltas: seq<ToolResp>, j: int)
    requires MergeToolCalls(calls, deltas).Ok?
    ensures IdOf(MergeToolCalls(calls, deltas).value, j) == IdOf(calls, j) + IdsAt(deltas, j)
    ensures TypeOf(MergeToolCalls(calls, deltas).value, j) == TypeOf(calls, j) + TypesAt(deltas, j)
    ensures FnNameOf(MergeToolCalls(calls, deltas).value, j) == FnNameOf(calls, j) + NamesAt(deltas, j)
    ensures FnArgsOf(MergeToolCalls(calls, deltas).value, j) == FnArgsOf(calls, j) + ArgsAt(deltas, j)
    ensures FnOf(MergeToolCalls(calls, deltas).value, j).Some? <==> FnOf(calls, j).Some? || FnAimedAt(deltas, j)
  {
    MergeIdsConcatenate(calls, deltas, j);
    MergeTypesConcatenate(calls, deltas, j);
    MergeNamesConcatenate(calls, deltas, j);
    MergeArgsConcatenate(calls, deltas, j);
    MergeFnPresence(calls, deltas, j);
  }

  lemma {:induction false} MergeNamesConcatenate(calls: seq<ToolResp>, deltas: seq<ToolResp>, j: int)
    requires MergeToolCalls(calls, deltas).Ok?
    ensures FnNameOf(MergeToolCalls(calls, deltas).value, j) == FnNameOf(calls, j) + NamesAt(deltas, j)
    decreases |deltas|
  {
    if |deltas| == 0 {
      assert FnNameOf(calls, j) + [] == FnNameOf(calls, j);
    } else {
      var d := deltas[0];
      var next := MergeToolCall(calls, d).value;
      assert MergeToolCalls(calls, deltas) == MergeToolCalls(next, deltas[1..]);
      var x := if d.index == j && d.fn.Some? then d.fn.value.name else [];
      assert NamesAt(deltas, j) == x + NamesAt(deltas[1..], j);
      MergeToolCallAt(calls, d, j);
      MergeNamesConcatenate(next, deltas[1..], j);
      assert FnNameOf(calls, j) + x + NamesAt(deltas[1..], j) == FnNameOf(calls, j) + (x + NamesAt(deltas[1..], j));
    }
  }

  lemma {:induction false} MergeArgsConcatenate(calls: seq<ToolResp>, deltas: seq<ToolResp>, j: int)
    requires MergeToolCalls(calls, deltas).Ok?
    ensures FnArgsOf(MergeToolCalls(calls, deltas).value, j) == FnArgsOf(calls, j) + ArgsAt(deltas, j)
    decreases |deltas|
  {
    if |deltas| == 0 {
      assert FnArgsOf(calls, j) + [] == FnArgsOf(calls, j);
    } else {
      var d := deltas[0];
      var next := MergeToolCall(calls, d).value;
      assert MergeToolCalls(calls, deltas) == MergeToolCalls(next, deltas[1..]);
      var x := if d.index == j && d.fn.Some? then d.fn.value.arguments else [];
      assert ArgsAt(deltas, j) == x + ArgsAt(deltas[1..], j);
      MergeToolCallAt(calls, d, j);
      MergeArgsConcatenate(next, deltas[1..], j);
      assert FnArgsOf(calls, j) + x + ArgsAt(deltas[1..], j) == FnArgsOf(calls, j) + (x + ArgsAt(deltas[1..], j));
    }
  }

  lemma {:induction false} MergeFnPresence(calls: seq<ToolResp>, deltas: seq<ToolResp>, j: int)
    requires MergeToolCalls(calls, deltas).Ok?
    ensures FnOf(MergeToolCalls(calls, deltas).value, j).Some? <==> FnOf(calls, j).Some? || FnAimedAt(deltas, j)
    decreases |deltas|
  {
    if |deltas| > 0 {
      var d := deltas[0];
      var next := MergeToolCall(calls, d).value;
      assert MergeToolCalls(calls, deltas) == MergeToolCalls(next, deltas[1..]);
      MergeToolCallAt(calls, d, j);
      MergeFnPresence(next, deltas[1..], j);
      if FnAimedAt(deltas[1..], j) {
        var i :| 0 <= i < |deltas[1..]| && deltas[1..][i].index == j && deltas[1..][i].fn.Some?;
        assert deltas[i + 1] == deltas[1..][i];
      }
      if FnAimedAt(deltas, j) && !(d.index == j && d.fn.Some?) {
        var i :| 0 <= i < |deltas| && deltas[i].index == j && deltas[i].fn.Some?;
        assert deltas[1..][i - 1] == deltas[i];
      }
      if d.index == j && d.fn.Some? {
        assert FnAimedAt(deltas, j) by { assert deltas[0] == d; }
      }
    }
  }

  lemma {:induction false} MergeIdsConcatenate(calls: seq<ToolResp>, deltas: seq<ToolResp>, j: int)
    requires MergeToolCalls(calls, deltas).Ok?
    ensures IdOf(MergeToolCalls(calls, deltas).value, j) == IdOf(calls, j) + IdsAt(deltas, j)
    decreases |deltas|
  {
    if |deltas| == 0 {
      assert IdOf(calls, j) + [] == IdOf(calls, j);
    } else {
      var d := deltas[0];
      var next := MergeToolCall(calls, d).value;
      assert MergeToolCalls(calls, deltas) == MergeToolCalls(next, deltas[1..]);
      var x := if d.index == j then d.id else [];
      assert IdsAt(deltas, j) == x + IdsAt(deltas[1..], j);
      MergeToolCallAt(calls, d, j);
      MergeIdsConcatenate(next, deltas[1..], j);
      assert IdOf(calls, j) + x + IdsAt(deltas[1..], j) == IdOf(calls, j) + (x + IdsAt(deltas[1..], j));
    }
  }

  lemma {:induction false} MergeTypesConcatenate(calls: seq<ToolResp>, deltas: seq<ToolResp>, j: int)
    requires MergeToolCalls(calls, deltas).Ok?
    ensures TypeOf(MergeToolCalls(calls, deltas).value, j) == TypeOf(calls, j) + TypesAt(deltas, j)
    decreases |deltas|
  {
    if |deltas| == 0 {
      assert TypeOf(calls, j) + [] == TypeOf(calls, j);
    } else {
      var d := deltas[0];
      var next := MergeToolCall(calls, d).value;
      assert MergeToolCalls(calls, deltas) == MergeToolCalls(next, deltas[1..]);
      var x := if d.index == j then d.typ else [];
      assert TypesAt(deltas, j) == x + TypesAt(deltas[1..], j);
      MergeToolCallAt(calls, d, j);
      MergeTypesConcatenate(next, deltas[1..], j);
      assert TypeOf(calls, j) + x + TypesAt(deltas[1..], j) == TypeOf(calls, j) + (x + TypesAt(deltas[1..], j));
    }
  }

  /** A delta message merged into a message: role and content appended;
      then either its function call or its tool calls. */
  function MergeMessage(m: CompletionMessage, d: CompletionMessage): (r: Result<CompletionMessage, GoError>)
    ensures r.Ok? ==> (r.value.role == m.role + d.role && r.value.content == m.content + d.content &&
      r.value.name == m.name && r.value.toolCallId == m.toolCallId)
    ensures d.functionCall.Some? ==> (r.Ok? && r.value.functionCall == Some(ConcatCall(m.functionCall, d.functionCall.value)) &&
      r.value.toolCalls == m.toolCalls)
    ensures d.functionCall.None? ==> (r.Ok? ==> r.value.functionCall == m.functionCall)
    ensures d.functionCall.None? && d.toolCalls.Some? && |d.toolCalls.value| > 0 ==>
      (r.Ok? <==> MergeToolCalls(OrEmpty(m.toolCalls), d.toolCalls.value).Ok?) &&
      (r.Ok? ==> r.value.toolCalls == Some(MergeToolCalls(OrEmpty(m.toolCalls), d.toolCalls.value).value))
    ensures d.functionCall.None? && (d.toolCalls.None? || d.toolCalls == Some([])) ==>
      (r.Ok? && r.value.toolCalls == m.toolCalls)
  {
    var appended := m.(role := m.role + d.role, content := m.content + d.content);
    if d.functionCall.Some? then Ok(appended.(functionCall := Some(ConcatCall(m.functionCall, d.functionCall.value))))
    else if d.toolCalls.Some? && |d.toolCalls.value| > 0 then
      match MergeToolCalls(OrEmpty(m.toolCalls), d.toolCalls.value)
      case Err(e) => Err(e)
      case Ok(calls) => Ok(appended.(toolCalls := Some(calls)))
    else Ok(appended)
  }

  /** A chunk choice merged into a choice: the finish reason appended, and
      the delta merged when there is one. */
  function MergeChoice(c: Choice, dc: ChunkChoice): (r: Result<Choice, GoError>)
    ensures r.Ok? ==> r.value.index == c.index && r.value.finishReason == c.finishReason + dc.finishReason
    ensures dc.delta.None? ==> r == Ok(c.(finishReason := c.finishReason + dc.finishReason))
  {
    var c := c.(finishReason := c.finishReason + dc.finishReason);
    if dc.delta.None? then Ok(c)
    else match MergeMessage(c.message, dc.delta.value)
      case Err(e) => Err(e)
      case Ok(m) => Ok(c.(message := m))
  }

  /** The first choice merged with the chunk's first choice; the others
      are kept. Either list empty panics. */
  function MergeFirst(choices: seq<Choice>, deltas: seq<ChunkChoice>): (r: Result<seq<Choice>, GoError>)
    ensures (|choices| == 0 || |deltas| == 0) ==> r == Err(IndexOutOfRange)
    ensures r.Ok? ==> (|r.value| == |choices| && r.value[1..] == choices[1..] &&
      Ok(r.value[0]) == MergeChoice(choices[0], deltas[0]))
  {
    if |choices| == 0 || |deltas| == 0 then Err(IndexOutOfRange)
    else match MergeChoice(choices[0], deltas[0])
      case Err(e) => Err(e)
      case Ok(c) => Ok(choices[0 := c])
  }

  /** The contents of a `ChatCompletionResponse`. */
  datatype ResponseValue = ResponseValue(id: string, objectType: string, created: int,
                                         choices: seq<Choice>, usage: Usage)

  /** A chunk merged into a response: a chunk of another response is
      refused; otherwise only the first choice takes in the chunk's first
      choice, and everything else is kept. */
  function MergeValue(v: ResponseValue, delta: Chunk): (r: Result<ResponseValue, GoError>)
    ensures delta.id != v.id ==> r == Err(DifferentIds)
    ensures delta.id == v.id ==> (r.Ok? <==> MergeFirst(v.choices, delta.choices).Ok?)
    ensures r.Ok? ==> r.value == v.(choices := MergeFirst(v.choices, delta.choices).value)
  {
    if delta.id != v.id then Err(DifferentIds)
    else match MergeFirst(v.choices, delta.choices)
      case Err(e) => Err(e)
      case Ok(choices) => Ok(v.(choices := choices))
  }

  /** The choices of a chunk as response choices, in order. */
  function ChoicesOf(ccs: seq<ChunkChoice>): (r: seq<Choice>)
    ensures |r| == |ccs| && forall i :: 0 <= i < |ccs| ==> r[i] == ChoiceOf(ccs[i])
  {
    if |ccs| == 0 then [] else [ChoiceOf(ccs[0])] + ChoicesOf(ccs[1..])
  }

  /** The response a chunk converts to. */
  function ChunkValue(c: Chunk): ResponseValue
  {
    ResponseValue(c.id, c.objectType, c.created, ChoicesOf(c.choices), Usage(0, 0, 0))
  }

  /** `ChatCompletionResponse`. */
  class ChatCompletionResponse {
    var id: string
    var objectType: string
    var created: int
    var choices: seq<Choice>
    var usage: Usage

    constructor(id: string, objectType: string, created: int, choices: seq<Choice>)
      ensures this.id == id && this.objectType == objectType && this.created == created && this.choices == choices
      ensures usage == Usage(0, 0, 0)
    {
      this.id := id;
      this.objectType := objectType;
      this.created := created;
      this.choices := choices;
      this.usage := Usage(0, 0, 0);
    }

    /** The response's contents. */
    function Value(): ResponseValue
      reads this
    {
      ResponseValue(id, objectType, created, choices, usage)
    }

    /** `Merge`: a chunk of another response is refused and nothing
        changes; otherwise only the first choice takes in the chunk's
        first choice. */
    method Merge(delta: Chunk) returns (err: Option<GoError>)
      modifies this
      ensures id == old(id) && objectType == old(objectType) && created == old(created) && usage == old(usage)
      ensures delta.id != old(id) ==> err == Some(DifferentIds) && choices == old(choices)
      ensures delta.id == old(id) && MergeFirst(old(choices), delta.choices).Ok? ==>
        err == None && choices == MergeFirst(old(choices), delta.choices).value
      ensures delta.id == old(id) && MergeFirst(old(choices), delta.choices).Err? ==>
        err == Some(MergeFirst(old(choices), delta.choices).error) && choices == old(choices)
      ensures err.None? ==> MergeValue(old(Value()), delta) == Ok(Value())
      ensures err.Some? ==> MergeValue(old(Value()), delta) == Err(err.value) && Value() == old(Value())
    {
      if id != delta.id {
        return Some(DifferentIds);
      }
      if |choices| == 0 || |delta.choices| == 0 {
        return Some(IndexOutOfRange);
      }
      var choice := choices[0];
      var deltaChoice := delta.choices[0];
      choice := choice.(finishReason := choice.finishReason + deltaChoice.finishReason);
      if deltaChoice.delta.Some? {
        var d := deltaChoice.delta.value;
        var message := choice.message.(role := choice.message.role + d.role,
                                       content := choice.message.content + d.content);
        if d.functionCall.Some? {
          message := message.(functionCall := Some(ConcatCall(message.functionCall, d.functionCall.value)));
        } else if d.toolCalls.Some? && |d.toolCalls.value| > 0 {
          var calls, e := MergeToolCallsInPlace(OrEmpty(message.toolCalls), d.toolCalls.value);
          if e.Some? {
            return e;
          }
          message := message.(toolCalls := Some(calls));
        }
        choice := choice.(message := message);
      }
      choices := choices[0 := choice];
      return None;
    }
  }

  /** The loop over the delta tool calls. */
  method MergeToolCallsInPlace(calls: seq<ToolResp>, deltas: seq<ToolResp>) returns (r: seq<ToolResp>, err: Option<GoError>)
    ensures MergeToolCalls(calls, deltas).Ok? ==> err == None && r == MergeToolCalls(calls, deltas).value
    ensures MergeToolCalls(calls, deltas).Err? ==> err == Some(MergeToolCalls(calls, deltas).error)
  {
    r := calls;
    var i := 0;
    while i < |deltas|
      invariant 0 <= i <= |deltas|
      invariant MergeToolCalls(r, deltas[i..]) == MergeToolCalls(calls, deltas)
    {
      var toolCall := deltas[i];
      var idx := toolCall.index;
      if idx < 0 {
        return r, Some(IndexOutOfRange);
      }
      if idx >= |r| {
        r := r + [ToolResp(0, "", "", None)];
      }
      if idx >= |r| {
        return r, Some(IndexOutOfRange);
      }
      var fn := if toolCall.fn.Some? then Some(ConcatCall(r[idx].fn, toolCall.fn.value)) else r[idx].fn;
      r := r[idx := r[idx].(id := r[idx].id + toolCall.id, typ := r[idx].typ + toolCall.typ, fn := fn)];
      assert deltas[i..][1..] == deltas[i + 1..];
      i := i + 1;
    }
    err := None;
  }

  /** A chunk choice as a response choice: the delta, or an empty message. */
  function ChoiceOf(cc: ChunkChoice): Choice
  {
    Choice(cc.index, if cc.delta.Some? then cc.delta.value else EmptyMessage, cc.finishReason)
  }

  /** `ChatCompletionResponseChunk.ChatCompletionResponse`: id, objectType and
      creation time kept, one choice per chunk choice, in order, with its
      index, finish reason and delta. */
  method ResponseOfChunk(c: Chunk) returns (r: ChatCompletionResponse)
    ensures fresh(r)
    ensures r.id == c.id && r.objectType == c.objectType && r.created == c.created && r.usage == Usage(0, 0, 0)
    ensures |r.choices| == |c.choices|
    ensures forall i :: 0 <= i < |c.choices| ==> r.choices[i] == ChoiceOf(c.choices[i])
    ensures r.Value() == ChunkValue(c)
  {
    var choices: seq<Choice> := [];
    var i := 0;
    while i < |c.choices|
      invariant 0 <= i <= |c.choices|
      invariant |choices| == i
      invariant forall j :: 0 <= j < i ==> choices[j] == ChoiceOf(c.choices[j])
    {
      var choice := Choice(c.choices[i].index, EmptyMessage, c.choices[i].finishReason);
      if c.choices[i].delta.Some? {
        choice := choice.(message := c.choices[i].delta.value);
      }
      choices := choices + [choice];
      i := i + 1;
    }
    r := new ChatCompletionResponse(c.id, c.objectType, c.created, choices);
  }

  /** `json.Compact` of the arguments, and `json.Unmarshal` of the compacted
      arguments into the function-call parameters, read for their
      `assistant_message` field (empty when the object has none); both can
      fail. */
  datatype ArgumentCodec = ArgumentCodec(compact: string -> Result<string, GoError>,
                                         assistantMessage: string -> Result<string, GoError>)

  /** A tool call with a function whose arguments do not compact, or whose
      compacted arguments do not unmarshal into the function-call parameters. */
  predicate ToolFails(codec: ArgumentCodec, t: ToolResp)
  {
    t.fn.Some? && (codec.compact(t.fn.value.arguments).Err? ||
      codec.assistantMessage(codec.compact(t.fn.value.arguments).value).Err?)
  }

  /** The assistant message a tool call's function yields. */
  function AssistantMessageOf(codec: ArgumentCodec, t: ToolResp): string
    requires t.fn.Some? && !ToolFails(codec, t)
  {
    codec.assistantMessage(codec.compact(t.fn.value.arguments).value).value
  }

  /** The conversion fails exactly when some tool call's function fails
      to convert. */
  lemma {:induction false} ToolsToChatFails(tools: seq<ToolResp>, codec: ArgumentCodec, content: string)
    ensures ToolsToChat(tools, codec, content).Err? <==> exists i :: 0 <= i < |tools| && ToolFails(codec, tools[i])
    decreases |tools|
  {
    if |tools| > 0 {
      var t := tools[0];
      if !ToolFails(codec, t) {
        var next := if t.fn.None? then content else AssistantMessageOf(codec, t);
        assert ToolsToChat(tools, codec, content).Err? <==> ToolsToChat(tools[1..], codec, next).Err?;
        ToolsToChatFails(tools[1..], codec, next);
        if exists i :: 0 <= i < |tools[1..]| && ToolFails(codec, tools[1..][i]) {
          var i :| 0 <= i < |tools[1..]| && ToolFails(codec, tools[1..][i]);
          assert tools[i + 1] == tools[1..][i];
        }
        if exists i :: 0 <= i < |tools| && ToolFails(codec, tools[i]) {
          var i :| 0 <= i < |tools| && ToolFails(codec, tools[i]);
          assert tools[1..][i - 1] == tools[i];
        }
      }
    }
  }

  /** The content left behind is the assistant message of the last tool
      call with a function. */
  lemma {:induction false} ToolsToChatContent(tools: seq<ToolResp>, codec: ArgumentCodec, content: string, i: int)
    requires 0 <= i < |tools| && tools[i].fn.Some? && forall k :: i < k < |tools| ==> tools[k].fn.None?
    requires ToolsToChat(tools, codec, content).Ok?
    ensures !ToolFails(codec, tools[i]) && ToolsToChat(tools, codec, content).value.1 == AssistantMessageOf(codec, tools[i])
    decreases |tools|
  {
    var t := tools[0];
    var next := if t.fn.None? || ToolFails(codec, t) then content else AssistantMessageOf(codec, t);
    if i == 0 {
      assert forall k :: 0 <= k < |tools[1..]| ==> tools[1..][k].fn.None? by {
        forall k | 0 <= k < |tools[1..]| ensures tools[1..][k].fn.None? {
          assert tools[1..][k] == tools[k + 1];
        }
      }
    } else {
      assert ToolsToChat(tools, codec, content).value.1 == ToolsToChat(tools[1..], codec, next).value.1;
      assert tools[1..][i - 1] == tools[i];
      ToolsToChatContent(tools[1..], codec, next, i - 1);
    }
  }

  /** The tool calls as chat tools, and the content they leave behind: the
      assistant message of the last tool call with a function. */
  function ToolsToChat(tools: seq<ToolResp>, codec: ArgumentCodec, content: string): (r: Result<(seq<ChatTool>, string), GoError>)
    ensures r.Ok? ==> (|r.value.0| == |tools| &&
      forall i :: 0 <= i < |tools| ==> (r.value.0[i].id == tools[i].id && r.value.0[i].typ == tools[i].typ &&
        (r.value.0[i].fn.Some? <==> tools[i].fn.Some?)))
    ensures r.Ok? ==> forall i :: 0 <= i < |tools| && r.value.0[i].fn.Some? ==>
      (r.value.0[i].fn.value.name == tools[i].fn.value.name &&
       codec.compact(tools[i].fn.value.arguments) == Ok(r.value.0[i].fn.value.arguments))
    ensures (forall i :: 0 <= i < |tools| ==> tools[i].fn.None?) ==> r.Ok? && r.value.1 == content
    decreases |tools|
  {
    if |tools| == 0 then Ok(([], content))
    else
      var t := tools[0];
      var head: Result<(ChatTool, string), GoError> :=
        if t.fn.None? then Ok((ChatTool(t.id, t.typ, None), content))
        else match codec.compact(t.fn.value.arguments)
          case Err(e) => Err(e)
          case Ok(compacted) =>
            match codec.assistantMessage(compacted)
            case Err(e) => Err(e)
            case Ok(message) => Ok((ChatTool(t.id, t.typ, Some(ChatFunction(t.fn.value.name, compacted))), message));
      match head
      case Err(e) => Err(e)
      case Ok((tool, content)) =>
        match ToolsToChat(tools[1..], codec, content)
        case Err(e) => Err(e)
        case Ok((rest, content)) => Ok(([tool] + rest, content))
  }

  /** `ChatCompletionResponse.ChatResponse`: role, content and finish
      reason of the first choice. A "function_call" finish takes the
      content from the call's assistant message and carries the compacted
      arguments; a "tool_calls" finish carries one chat tool per tool
      call. */
  function ToChatResponse(choices: seq<Choice>, codec: ArgumentCodec): (r: Result<ChatResponse, GoError>)
    ensures |choices| == 0 ==> r == Err(IndexOutOfRange)
    ensures r.Ok? ==> (r.value.payload.role == choices[0].message.role &&
      r.value.finishReason == choices[0].finishReason)
    ensures r.Ok? && choices[0].finishReason !in {"function_call", "tool_calls"} ==>
      r.value.payload.content == choices[0].message.content && r.value.functionCall.None? && r.value.toolCalls == []
    ensures |choices| > 0 && choices[0].finishReason == "function_call" && choices[0].message.functionCall.None? ==>
      r == Err(NilDereference)
    ensures r.Ok? && choices[0].finishReason == "function_call" ==>
      var call := choices[0].message.functionCall.value;
      var compacted := codec.compact(call.arguments);
      compacted.Ok? && codec.assistantMessage(compacted.value) == Ok(r.value.payload.content) &&
      r.value.functionCall == Some(ChatFunction(call.name, compacted.value))
    ensures r.Ok? && choices[0].finishReason == "tool_calls" ==>
      var converted := ToolsToChat(OrEmpty(choices[0].message.toolCalls), codec, choices[0].message.content);
      converted.Ok? && r.value.toolCalls == converted.value.0 && r.value.payload.content == converted.value.1 &&
      r.value.functionCall.None?
  {
    if |choices| == 0 then Err(IndexOutOfRange)
    else
      var c := choices[0];
      var payload := ChatPayload(c.message.role, c.message.content, None, None, None, "");
      if c.finishReason == "function_call" then
        if c.message.functionCall.None? then Err(NilDereference)
        else
          var call := c.message.functionCall.value;
          match codec.compact(call.arguments)
          case Err(e) => Err(e)
          case Ok(compacted) =>
            match codec.assistantMessage(compacted)
            case Err(e) => Err(e)
            case Ok(message) =>
              Ok(ChatResponse(payload.(content := message), c.finishReason, Some(ChatFunction(call.name, compacted)), []))
      else if c.finishReason == "tool_calls" then
        match ToolsToChat(OrEmpty(c.message.toolCalls), codec, c.message.content)
        case Err(e) => Err(e)
        case Ok((tools, content)) => Ok(ChatResponse(payload.(content := content), c.finishReason, None, tools))
      else Ok(ChatResponse(payload, c.finishReason, None, []))
  }
}
