/** The wire types of the first-generation chat client: a completion
    response, the chunks a stream delivers, merging a chunk into the
    response read so far, and turning a response into a chat response. */
module LegacyModel {
  import opened Common
  import opened GoValue
  import CV = ChatV2
  import GM = GptModel

  /** `ChatCompletionFunctionCallResp`. */
  datatype FunctionCall = FunctionCall(name: string, arguments: string)

  /** `ChatCompletionMessage`; a nil function call is `None`. */
  datatype CompletionMessage = CompletionMessage(role: string, content: string, name: string,
                                                 functionCall: Option<FunctionCall>)

  /** `ChatCompletionResponseChoice`. */
  datatype Choice = Choice(index: int, message: CompletionMessage, finishReason: string)

  /** `ChatCompletionResponseChunkChoice`; a nil delta is `None`. */
  datatype ChunkChoice = ChunkChoice(index: int, delta: Option<CompletionMessage>, finishReason: string)

  /** `ChatCompletionResponseChunk`. */
  datatype Chunk = Chunk(id: string, objectType: string, created: int, model: string, choices: seq<ChunkChoice>)

  /** The contents of a `ChatCompletionResponse`. */
  datatype ResponseValue = ResponseValue(id: string, objectType: string, created: int,
                                         choices: seq<Choice>, usage: GM.Usage)

  /** A function-call delta appended to the call so far, an empty call
      standing in for a missing one. */
  function ConcatCall(call: Option<FunctionCall>, d: FunctionCall): FunctionCall
  {
    var base := if call.Some? then call.value else FunctionCall("", "");
    FunctionCall(base.name + d.name, base.arguments + d.arguments)
  }

  /** The name and arguments of a call, empty when there is none. */
  function NameOf(call: Option<FunctionCall>): string
  {
    if call.Some? then call.value.name else ""
  }

  function ArgumentsOf(call: Option<FunctionCall>): string
  {
    if call.Some? then call.value.arguments else ""
  }

  /** A delta merged into a message: role and content appended, the name
      kept, and the function call appended to when the delta has one. */
  function MergeMessage(m: CompletionMessage, d: CompletionMessage): (r: CompletionMessage)
    ensures r.role == m.role + d.role && r.content == m.content + d.content && r.name == m.name
    ensures r.functionCall.Some? <==> (m.functionCall.Some? || d.functionCall.Some?)
    ensures NameOf(r.functionCall) == NameOf(m.functionCall) + NameOf(d.functionCall)
    ensures ArgumentsOf(r.functionCall) == ArgumentsOf(m.functionCall) + ArgumentsOf(d.functionCall)
  {
    var fc := if d.functionCall.Some? then Some(ConcatCall(m.functionCall, d.functionCall.value)) else m.functionCall;
    assert d.functionCall.None? ==> NameOf(m.functionCall) + NameOf(d.functionCall) == NameOf(m.functionCall);
    assert d.functionCall.None? ==> ArgumentsOf(m.functionCall) + ArgumentsOf(d.functionCall) == ArgumentsOf(m.functionCall);
    CompletionMessage(m.role + d.role, m.content + d.content, m.name, fc)
  }

  /** `ChatCompletionResponse.Merge` on values: a chunk of another
      response is refused; a response or a chunk without choices, or a
      first chunk choice without delta, panics; otherwise only the first
      choice changes, taking in the finish reason and the delta of the
      chunk's first choice. */
  function MergeValue(v: ResponseValue, delta: Chunk): (r: Result<ResponseValue, GoError>)
    ensures r.Ok? <==> (delta.id == v.id && |v.choices| > 0 && |delta.choices| > 0 && delta.choices[0].delta.Some?)
    ensures delta.id != v.id ==> r == Err(GM.DifferentIds)
    ensures delta.id == v.id && (|v.choices| == 0 || |delta.choices| == 0) ==> r == Err(GM.IndexOutOfRange)
    ensures r.Ok? ==> (r.value.id == v.id && r.value.objectType == v.objectType && r.value.created == v.created &&
      r.value.usage == v.usage && |r.value.choices| == |v.choices| && r.value.choices[1..] == v.choices[1..] &&
      r.value.choices[0] == Choice(v.choices[0].index,
        MergeMessage(v.choices[0].message, delta.choices[0].delta.value),
        v.choices[0].finishReason + delta.choices[0].finishReason))
  {
    if v.id != delta.id then Err(GM.DifferentIds)
    else if |v.choices| == 0 || |delta.choices| == 0 then Err(GM.IndexOutOfRange)
    else if delta.choices[0].delta.None? then Err(NilDereference)
    else
      var c := v.choices[0];
      var dc := delta.choices[0];
      Ok(v.(choices := v.choices[0 := Choice(c.index, MergeMessage(c.message, dc.delta.value),
                                             c.finishReason + dc.finishReason)]))
  }

  /** The chunks merged in turn, stopping at the first refusal. */
  function MergeAll(v: ResponseValue, chunks: seq<Chunk>): Result<ResponseValue, GoError>
    decreases |chunks|
  {
    if |chunks| == 0 then Ok(v)
    else match MergeValue(v, chunks[0])
      case Err(e) => Err(e)
      case Ok(w) => MergeAll(w, chunks[1..])
  }

  /** Every chunk belongs to the response and has a first choice with a
      delta, and the response has a first choice. */
  predicate Mergeable(v: ResponseValue, chunks: seq<Chunk>)
  {
    |v.choices| > 0 &&
    forall i :: 0 <= i < |chunks| ==>
      chunks[i].id == v.id && |chunks[i].choices| > 0 && chunks[i].choices[0].delta.Some?
  }

  /** The first delta of a chunk, an empty message when there is none. */
  function FirstDelta(c: Chunk): CompletionMessage
  {
    if |c.choices| > 0 && c.choices[0].delta.Some? then c.choices[0].delta.value
    else CompletionMessage("", "", "", None)
  }

  function FirstFinish(c: Chunk): string
  {
    if |c.choices| > 0 then c.choices[0].finishReason else ""
  }

  /** The contents, roles, finish reasons, call names and call arguments
      of the chunks' first choices, concatenated in order. */
  function Contents(chunks: seq<Chunk>): string
  {
    if |chunks| == 0 then "" else FirstDelta(chunks[0]).content + Contents(chunks[1..])
  }

  function Roles(chunks: seq<Chunk>): string
  {
    if |chunks| == 0 then "" else FirstDelta(chunks[0]).role + Roles(chunks[1..])
  }

  function Finishes(chunks: seq<Chunk>): string
  {
    if |chunks| == 0 then "" else FirstFinish(chunks[0]) + Finishes(chunks[1..])
  }

  function CallNames(chunks: seq<Chunk>): string
  {
    if |chunks| == 0 then "" else NameOf(FirstDelta(chunks[0]).functionCall) + CallNames(chunks[1..])
  }

  function CallArguments(chunks: seq<Chunk>): string
  {
    if |chunks| == 0 then "" else ArgumentsOf(FirstDelta(chunks[0]).functionCall) + CallArguments(chunks[1..])
  }

  /** What a merge keeps of a response, and its first choice's fields. */
  predicate Extends(w: ResponseValue, v: ResponseValue, content: string, role: string, finish: string,
                    name: string, arguments: string)
    requires |v.choices| > 0
  {
    w.id == v.id && w.objectType == v.objectType && w.created == v.created && w.usage == v.usage &&
    |w.choices| == |v.choices| && w.choices[1..] == v.choices[1..] &&
    w.choices[0].index == v.choices[0].index && w.choices[0].message.name == v.choices[0].message.name &&
    w.choices[0].message.content == v.choices[0].message.content + content &&
    w.choices[0].message.role == v.choices[0].message.role + role &&
    w.choices[0].finishReason == v.choices[0].finishReason + finish &&
    NameOf(w.choices[0].message.functionCall) == NameOf(v.choices[0].message.functionCall) + name &&
    ArgumentsOf(w.choices[0].message.functionCall) == ArgumentsOf(v.choices[0].message.functionCall) + arguments
  }

  /** Appending to the first choice twice is appending the two parts. */
  lemma ExtendsTrans(u: ResponseValue, v: ResponseValue, w: ResponseValue,
                     c1: string, r1: string, f1: string, n1: string, a1: string,
                     c2: string, r2: string, f2: string, n2: string, a2: string)
    requires |u.choices| > 0 && Extends(v, u, c1, r1, f1, n1, a1) && Extends(w, v, c2, r2, f2, n2, a2)
    ensures Extends(w, u, c1 + c2, r1 + r2, f1 + f2, n1 + n2, a1 + a2)
  {
    var m0, m1, m2 := u.choices[0].message, v.choices[0].message, w.choices[0].message;
    assert m2.content == (m0.content + c1) + c2 == m0.content + (c1 + c2);
    assert m2.role == (m0.role + r1) + r2 == m0.role + (r1 + r2);
    assert w.choices[0].finishReason == (u.choices[0].finishReason + f1) + f2 == u.choices[0].finishReason + (f1 + f2);
    assert NameOf(m2.functionCall) == (NameOf(m0.functionCall) + n1) + n2 == NameOf(m0.functionCall) + (n1 + n2);
    assert ArgumentsOf(m2.functionCall) == (ArgumentsOf(m0.functionCall) + a1) + a2 ==
      ArgumentsOf(m0.functionCall) + (a1 + a2);
    assert w.choices[1..] == v.choices[1..] == u.choices[1..];
  }

  /** No change extends by nothing. */
  lemma ExtendsEmpty(v: ResponseValue)
    requires |v.choices| > 0
    ensures Extends(v, v, "", "", "", "", "")
  {
    var m := v.choices[0].message;
    assert m.content + "" == m.content && m.role + "" == m.role;
    assert v.choices[0].finishReason + "" == v.choices[0].finishReason;
    assert NameOf(m.functionCall) + "" == NameOf(m.functionCall);
    assert ArgumentsOf(m.functionCall) + "" == ArgumentsOf(m.functionCall);
  }

  /** One merge extends the first choice by the chunk's first choice. */
  lemma MergeValueExtends(v: ResponseValue, c: Chunk)
    requires MergeValue(v, c).Ok?
    ensures Extends(MergeValue(v, c).value, v, FirstDelta(c).content, FirstDelta(c).role, FirstFinish(c),
                    NameOf(FirstDelta(c).functionCall), ArgumentsOf(FirstDelta(c).functionCall))
  {
  }

  /** Merging a run of chunks succeeds exactly when each of them belongs to
      the response and has a first choice with a delta; the response's
      first choice then holds its old content, role, finish reason and
      function call followed by those of every chunk, in order, and
      nothing else changes. */
  lemma {:induction false} MergeAllConcatenates(v: ResponseValue, chunks: seq<Chunk>)
    ensures MergeAll(v, chunks).Ok? <==> Mergeable(v, chunks) || (|chunks| == 0)
    ensures MergeAll(v, chunks).Ok? && |v.choices| > 0 ==>
      Extends(MergeAll(v, chunks).value, v, Contents(chunks), Roles(chunks), Finishes(chunks),
              CallNames(chunks), CallArguments(chunks))
    decreases |chunks|
  {
    if |chunks| == 0 {
      if |v.choices| > 0 {
        ExtendsEmpty(v);
      }
    } else {
      var c := chunks[0];
      var rest := chunks[1..];
      if MergeValue(v, c).Ok? {
        var w := MergeValue(v, c).value;
        MergeAllConcatenates(w, rest);
        MergeValueExtends(v, c);
        assert Mergeable(v, chunks) <==> Mergeable(w, rest) || |rest| == 0 by {
          if Mergeable(w, rest) || |rest| == 0 {
            forall i | 0 <= i < |chunks|
              ensures chunks[i].id == v.id && |chunks[i].choices| > 0 && chunks[i].choices[0].delta.Some?
            {
              if i > 0 {
                assert chunks[i] == rest[i - 1];
              }
            }
          }
          if Mergeable(v, chunks) {
            forall i | 0 <= i < |rest|
              ensures rest[i].id == w.id && |rest[i].choices| > 0 && rest[i].choices[0].delta.Some?
            {
              assert rest[i] == chunks[i + 1];
            }
          }
        }
        if MergeAll(w, rest).Ok? {
          ExtendsTrans(v, w, MergeAll(w, rest).value,
                       FirstDelta(c).content, FirstDelta(c).role, FirstFinish(c),
                       NameOf(FirstDelta(c).functionCall), ArgumentsOf(FirstDelta(c).functionCall),
                       Contents(rest), Roles(rest), Finishes(rest), CallNames(rest), CallArguments(rest));
        }
      }
    }
  }

  /** A chunk choice as a response choice: its delta is dereferenced. */
  function ChoicesOf(ccs: seq<ChunkChoice>): (r: Result<seq<Choice>, GoError>)
    ensures r.Ok? <==> forall i :: 0 <= i < |ccs| ==> ccs[i].delta.Some?
    ensures r.Err? ==> r.error == NilDereference
    ensures r.Ok? ==> (|r.value| == |ccs| &&
      forall i :: 0 <= i < |ccs| ==> r.value[i] == Choice(ccs[i].index, ccs[i].delta.value, ccs[i].finishReason))
  {
    if |ccs| == 0 then Ok([])
    else if ccs[0].delta.None? then Err(NilDereference)
    else match ChoicesOf(ccs[1..])
      case Err(e) => Err(e)
      case Ok(rest) => Ok([Choice(ccs[0].index, ccs[0].delta.value, ccs[0].finishReason)] + rest)
  }

  /** The response a chunk converts to, or the panic of a nil delta. */
  function ChunkValue(c: Chunk): Result<ResponseValue, GoError>
  {
    match ChoicesOf(c.choices)
    case Err(e) => Err(e)
    case Ok(choices) => Ok(ResponseValue(c.id, c.objectType, c.created, choices, GM.Usage(0, 0, 0)))
  }

  /** A response made from a chunk takes in every later chunk of the same
      response that has a first choice with a delta. */
  lemma ConvertedChunkMerges(first: Chunk, later: Chunk)
    requires ChunkValue(first).Ok? && |first.choices| > 0
    requires later.id == first.id && |later.choices| > 0 && later.choices[0].delta.Some?
    ensures MergeValue(ChunkValue(first).value, later).Ok?
  {
  }

  /** `ChatCompletionResponse`. */
  class ChatCompletionResponse {
    var id: string
    var objectType: string
    var created: int
    var choices: seq<Choice>
    var usage: GM.Usage

    constructor(id: string, objectType: string, created: int, choices: seq<Choice>)
      ensures Value() == ResponseValue(id, objectType, created, choices, GM.Usage(0, 0, 0))
    {
      this.id := id;
      this.objectType := objectType;
      this.created := created;
      this.choices := choices;
      this.usage := GM.Usage(0, 0, 0);
    }

    /** The response's contents. */
    function Value(): ResponseValue
      reads this
    {
      ResponseValue(id, objectType, created, choices, usage)
    }

    /** `Merge`: the response becomes the merge of the chunk into it; a
        refused merge leaves it as it was. */
    method Merge(delta: Chunk) returns (err: Option<GoError>)
      modifies this
      ensures err.None? ==> MergeValue(old(Value()), delta) == Ok(Value())
      ensures err.Some? ==> MergeValue(old(Value()), delta) == Err(err.value) && Value() == old(Value())
    {
      if id != delta.id {
        return Some(GM.DifferentIds);
      }
      if |choices| == 0 || |delta.choices| == 0 {
        return Some(GM.IndexOutOfRange);
      }
      var choice := choices[0];
      var deltaChoice := delta.choices[0];
      if deltaChoice.delta.None? {
        return Some(NilDereference);
      }
      var d := deltaChoice.delta.value;
      choice := choice.(finishReason := choice.finishReason + deltaChoice.finishReason);
      var message := choice.message.(role := choice.message.role + d.role,
                                     content := choice.message.content + d.content);
      if d.functionCall.Some? {
        message := message.(functionCall := Some(ConcatCall(message.functionCall, d.functionCall.value)));
      }
      choice := choice.(message := message);
      choices := choices[0 := choice];
      return None;
    }
  }

  /** `ChatCompletionResponseChunk.ChatCompletionResponse`: id, object and
      creation time kept, one choice per chunk choice, in order, with its
      index, finish reason and dereferenced delta; the first nil delta
      panics. */
  method ResponseOfChunk(c: Chunk) returns (r: ChatCompletionResponse?, err: Option<GoError>)
    ensures err.None? <==> ChunkValue(c).Ok?
    ensures err.Some? ==> r == null && ChunkValue(c) == Err(err.value)
    ensures err.None? ==> r != null && fresh(r) && r.Value() == ChunkValue(c).value
  {
    var choices: seq<Choice> := [];
    var i := 0;
    while i < |c.choices|
      invariant 0 <= i <= |c.choices|
      invariant |choices| == i
      invariant forall j :: 0 <= j < i ==> (c.choices[j].delta.Some? &&
        choices[j] == Choice(c.choices[j].index, c.choices[j].delta.value, c.choices[j].finishReason))
    {
      var choice := c.choices[i];
      if choice.delta.None? {
        return null, Some(NilDereference);
      }
      choices := choices + [Choice(choice.index, choice.delta.value, choice.finishReason)];
      i := i + 1;
    }
    r := new ChatCompletionResponse(c.id, c.objectType, c.created, choices);
    err := None;
  }

  /** `ChatCompletionResponse.ChatResponse`: role, content and finish
      reason of the first choice; a "function_call" finish takes the
      content from the assistant message of the compacted arguments and
      carries the call with those arguments. */
  function ToChatResponse(choices: seq<Choice>, codec: GM.ArgumentCodec): (r: Result<CV.ChatResponse, GoError>)
    ensures |choices| == 0 ==> r == Err(GM.IndexOutOfRange)
    ensures r.Ok? ==> (r.value.payload.role == choices[0].message.role &&
      r.value.finishReason == choices[0].finishReason && r.value.toolCalls == [])
    ensures |choices| > 0 && choices[0].finishReason != "function_call" ==>
      r == Ok(CV.ChatResponse(CV.Message(choices[0].message.role, choices[0].message.content),
                              choices[0].finishReason, None, []))
    ensures |choices| > 0 && choices[0].finishReason == "function_call" && choices[0].message.functionCall.None? ==>
      r == Err(NilDereference)
    ensures |choices| > 0 && choices[0].finishReason == "function_call" && choices[0].message.functionCall.Some? ==>
      var call := choices[0].message.functionCall.value;
      var compacted := codec.compact(call.arguments);
      (r.Ok? <==> compacted.Ok? && codec.assistantMessage(compacted.value).Ok?) &&
      (r.Ok? ==> (r.value.payload.content == codec.assistantMessage(compacted.value).value &&
        r.value.functionCall == Some(CV.ChatFunction(call.name, compacted.value))))
  {
    if |choices| == 0 then Err(GM.IndexOutOfRange)
    else
      var c := choices[0];
      var payload := CV.Message(c.message.role, c.message.content);
      if c.finishReason != "function_call" then Ok(CV.ChatResponse(payload, c.finishReason, None, []))
      else if c.message.functionCall.None? then Err(NilDereference)
      else
        var call := c.message.functionCall.value;
        match codec.compact(call.arguments)
        case Err(e) => Err(e)
        case Ok(compacted) =>
          match codec.assistantMessage(compacted)
          case Err(e) => Err(e)
          case Ok(message) =>
            Ok(CV.ChatResponse(payload.(content := message), c.finishReason, Some(CV.ChatFunction(call.name, compacted)), []))
  }
}
