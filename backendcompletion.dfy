/** The backend's chat completion records: the request a client sends, and
    the streamed completion chunks that are merged into one answer. */
module BackendCompletion {
  import opened Common
  import opened GoValue
  import opened BackendModel

  /** `model.Message`: one chat message. */
  datatype Message = Message(role: string, content: string, name: string)

  /** `model.CreateChatCompletionRequest`. A nil message is not
      modelled: every message is present. */
  datatype CreateChatCompletionRequest = CreateChatCompletionRequest(messages: seq<Message>, provider: string)

  /** The contents of a `CompletionDelta`. */
  datatype DeltaValue = DeltaValue(content: string, references: seq<Reference>, keywords: seq<string>,
                                   relatedQueries: seq<string>)

  /** The contents of a `Completion`, its delta absent when it is nil. */
  datatype CompletionValue = CompletionValue(objectType: string, id: string, created: int, delta: Option<DeltaValue>,
                                             tokenUsage: int)

  /** A delta with nothing in it. */
  const EmptyDelta := DeltaValue("", [], [], [])

  /** A delta taking in a later one: the text and every list grow by the
      later delta's, in order. */
  function Append(acc: DeltaValue, d: DeltaValue): DeltaValue
  {
    DeltaValue(acc.content + d.content, acc.references + d.references, acc.keywords + d.keywords,
               acc.relatedQueries + d.relatedQueries)
  }

  /** `Completion.Merge` on values: a nil chunk or a chunk without a delta
      changes nothing; otherwise the receiver's delta takes in the chunk's,
      and a receiver without a delta panics. */
  function MergeValue(c: CompletionValue, chunk: Option<CompletionValue>): Result<CompletionValue, GoError>
  {
    if chunk.None? || chunk.value.delta.None? then Ok(c)
    else if c.delta.None? then Err(NilDereference)
    else Ok(c.(delta := Some(Append(c.delta.value, chunk.value.delta.value))))
  }

  /** The deltas of several chunks taken in one after another. */
  function AppendAll(acc: DeltaValue, ds: seq<DeltaValue>): DeltaValue
    decreases |ds|
  {
    if |ds| == 0 then acc else AppendAll(Append(acc, ds[0]), ds[1..])
  }

  /** The deltas of several chunks laid end to end. */
  function Sum(ds: seq<DeltaValue>): DeltaValue
    decreases |ds|
  {
    if |ds| == 0 then EmptyDelta else Append(ds[0], Sum(ds[1..]))
  }

  /** The text of several deltas, in order. */
  function Contents(ds: seq<DeltaValue>): string
    decreases |ds|
  {
    if |ds| == 0 then "" else ds[0].content + Contents(ds[1..])
  }

  /** Taking in deltas one at a time groups like laying them end to end. */
  lemma AppendAssociative(a: DeltaValue, b: DeltaValue, c: DeltaValue)
    ensures Append(Append(a, b), c) == Append(a, Append(b, c))
  {
    assert (a.content + b.content) + c.content == a.content + (b.content + c.content);
    assert (a.references + b.references) + c.references == a.references + (b.references + c.references);
    assert (a.keywords + b.keywords) + c.keywords == a.keywords + (b.keywords + c.keywords);
    assert (a.relatedQueries + b.relatedQueries) + c.relatedQueries ==
      a.relatedQueries + (b.relatedQueries + c.relatedQueries);
  }

  /** The empty delta changes nothing. */
  lemma AppendEmpty(a: DeltaValue)
    ensures Append(a, EmptyDelta) == a && Append(EmptyDelta, a) == a
  {
    assert a.content + "" == a.content;
    assert a.references + [] == a.references;
    assert a.keywords + [] == a.keywords;
    assert a.relatedQueries + [] == a.relatedQueries;
  }

  /** Merging chunk after chunk gives the first delta followed by all the
      others laid end to end: nothing is lost, reordered or repeated. */
  lemma {:induction false} AppendAllIsSum(acc: DeltaValue, ds: seq<DeltaValue>)
    ensures AppendAll(acc, ds) == Append(acc, Sum(ds))
    decreases |ds|
  {
    if |ds| == 0 {
      AppendEmpty(acc);
    } else {
      AppendAllIsSum(Append(acc, ds[0]), ds[1..]);
      AppendAssociative(acc, ds[0], Sum(ds[1..]));
    }
  }

  /** The merged text is the concatenation of every chunk's text. */
  lemma {:induction false} SumContents(ds: seq<DeltaValue>)
    ensures Sum(ds).content == Contents(ds)
    decreases |ds|
  {
    if |ds| > 0 {
      SumContents(ds[1..]);
    }
  }

  /** Merge never changes the receiver's object, id, creation time or token
      usage, and fails only by the nil dereference. */
  lemma MergeKeepsHeader(c: CompletionValue, chunk: Option<CompletionValue>)
    ensures MergeValue(c, chunk).Err? <==> chunk.Some? && chunk.value.delta.Some? && c.delta.None?
    ensures MergeValue(c, chunk).Err? ==> MergeValue(c, chunk).error == NilDereference
    ensures MergeValue(c, chunk).Ok? ==>
      var r := MergeValue(c, chunk).value;
      r.objectType == c.objectType && r.id == c.id && r.created == c.created && r.tokenUsage == c.tokenUsage &&
      (r.delta.None? <==> c.delta.None?)
  {
  }

  /** A completion taking in chunk after chunk, in order. */
  function MergeEach(c: CompletionValue, chunks: seq<CompletionValue>): Result<CompletionValue, GoError>
    decreases |chunks|
  {
    if |chunks| == 0 then Ok(c)
    else match MergeValue(c, Some(chunks[0]))
      case Err(e) => Err(e)
      case Ok(m) => MergeEach(m, chunks[1..])
  }

  /** The deltas the chunks carry, in order. */
  function DeltasOf(chunks: seq<CompletionValue>): (r: seq<DeltaValue>)
    ensures |r| <= |chunks|
    decreases |chunks|
  {
    if |chunks| == 0 then []
    else (if chunks[0].delta.Some? then [chunks[0].delta.value] else []) + DeltasOf(chunks[1..])
  }

  /** A completion with a delta takes in every chunk without failing, and
      its delta becomes its own followed by the chunks' deltas end to end;
      nothing else changes. */
  lemma {:induction false} MergeEachAppends(c: CompletionValue, chunks: seq<CompletionValue>)
    requires c.delta.Some?
    ensures MergeEach(c, chunks) == Ok(c.(delta := Some(Append(c.delta.value, Sum(DeltasOf(chunks))))))
    decreases |chunks|
  {
    if |chunks| == 0 {
      AppendEmpty(c.delta.value);
    } else {
      var m := MergeValue(c, Some(chunks[0])).value;
      MergeEachAppends(m, chunks[1..]);
      var rest := Sum(DeltasOf(chunks[1..]));
      if chunks[0].delta.Some? {
        AppendAssociative(c.delta.value, chunks[0].delta.value, rest);
        assert DeltasOf(chunks) == [chunks[0].delta.value] + DeltasOf(chunks[1..]);
      } else {
        assert DeltasOf(chunks) == DeltasOf(chunks[1..]);
      }
    }
  }

  /** `model.CompletionDelta`, updated in place. */
  class CompletionDelta {
    var content: string
    var references: seq<Reference>
    var keywords: seq<string>
    var relatedQueries: seq<string>

    constructor(v: DeltaValue)
      ensures Value() == v
    {
      content := v.content;
      references := v.references;
      keywords := v.keywords;
      relatedQueries := v.relatedQueries;
    }

    function Value(): DeltaValue
      reads this
    {
      DeltaValue(content, references, keywords, relatedQueries)
    }
  }

  /** `model.Completion`: a streamed chunk, or the answer merged from them. */
  class Completion {
    var objectType: string
    var id: string
    var created: int
    var delta: CompletionDelta?
    var tokenUsage: int

    /** A completion decoded from its contents, with a delta of its own. */
    constructor(v: CompletionValue)
      ensures Value() == v
      ensures delta != null ==> fresh(delta)
    {
      objectType := v.objectType;
      id := v.id;
      created := v.created;
      tokenUsage := v.tokenUsage;
      if v.delta.Some? {
        delta := new CompletionDelta(v.delta.value);
      } else {
        delta := null;
      }
    }

    function Value(): CompletionValue
      reads this, delta
    {
      CompletionValue(objectType, id, created, if delta == null then None else Some(delta.Value()), tokenUsage)
    }

    /** `Merge`: the receiver's delta takes in the chunk's text and lists;
        nothing else changes. The source returns no error; a receiver
        without a delta dereferences nil, which is the panic here. */
    method Merge(chunk: Completion?) returns (err: Option<GoError>)
      modifies delta
      ensures chunk == null || chunk.delta == null ==> err == None && Value() == old(Value())
      ensures chunk != null && chunk.delta != null && delta == null ==> err == Some(NilDereference)
      ensures chunk != null && chunk.delta != null && delta != null ==>
        err == None &&
        delta.content == old(delta.content) + old(chunk.delta.content) &&
        delta.references == old(delta.references) + old(chunk.delta.references) &&
        delta.keywords == old(delta.keywords) + old(chunk.delta.keywords) &&
        delta.relatedQueries == old(delta.relatedQueries) + old(chunk.delta.relatedQueries)
      ensures MergeValue(old(Value()), if chunk == null then None else Some(old(chunk.Value()))) ==
        if err.Some? then Err(err.value) else Ok(Value())
    {
      if chunk == null || chunk.delta == null {
        return None;
      }
      if delta == null {
        return Some(NilDereference);
      }
      var d := chunk.delta;
      delta.content := delta.content + d.content;
      delta.references := delta.references + d.references;
      delta.keywords := delta.keywords + d.keywords;
      delta.relatedQueries := delta.relatedQueries + d.relatedQueries;
      return None;
    }
  }
}
