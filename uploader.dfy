/** data_ingestion/indexer/index_uploader.py: the OpenSearch index as the
    uploader sees it. The client is replaced by the state it changes: whether the
    index exists, its documents by id, its refresh interval, and the log of
    requests sent to the cluster. */
module IndexUploader {
  import opened Common
  import opened PyJson
  import opened ListHelper

  /** The `_source` of an indexed document. */
  type Doc = map<string, Json>

  /** One bulk action. */
  datatype Action = Action(opType: string, id: string, index: string, source: Doc)

  /** The requests the uploader sends, in the order it sends them. */
  datatype ClientCall =
    | CreateCall(index: string, body: Json)
    | BulkCall(actions: seq<Action>, chunkSize: int)
    | RefreshCall(index: string)
    | PutSettingsCall(index: string, body: Json)
    | DeleteByQueryCall(index: string, body: Json, conflicts: string)

  /** What the cluster holds and has been sent, as one value. */
  datatype IndexState = IndexState(present: bool, docs: map<string, Doc>, refreshInterval: string, calls: seq<ClientCall>)

  /** delete_by_query sends at most this many clauses per request (maxClauseCount 1024). */
  const DeleteChunkSize := 1000

  /** OpenSearch's refresh interval when the create body does not set one. */
  const ServerDefaultRefresh := "1s"

  /** The refresh interval a create body sets: settings.index.refresh_interval. */
  function TemplateRefreshInterval(template: Json): string {
    if template.JDict? then
      match Lookup(template.fields, "settings")
      case Some(JDict(st)) =>
        (match Lookup(st, "index")
         case Some(JDict(ix)) =>
           (match Lookup(ix, "refresh_interval") case Some(JStr(v)) => v case _ => ServerDefaultRefresh)
         case _ => ServerDefaultRefresh)
      case _ => ServerDefaultRefresh
    else ServerDefaultRefresh
  }

  /** The action for a one-key document dict {pid: source}. */
  function ActionOf(index: string, doc: seq<(string, Doc)>): (a: Action)
    requires |doc| == 1
    ensures a.opType == "index" && a.id == doc[0].0 && a.index == index && a.source == doc[0].1
  {
    Action("index", doc[0].0, index, doc[0].1)
  }

  predicate AllSingleKey(docs: seq<seq<(string, Doc)>>) {
    forall i :: 0 <= i < |docs| ==> |docs[i]| == 1
  }

  /** The bulk actions `upload_index` builds: one per document, in order. */
  function Actions(index: string, docs: seq<seq<(string, Doc)>>): (r: seq<Action>)
    requires AllSingleKey(docs)
    ensures |r| == |docs|
    ensures forall i :: 0 <= i < |docs| ==> r[i] == ActionOf(index, docs[i])
  {
    if |docs| == 0 then [] else [ActionOf(index, docs[0])] + Actions(index, docs[1..])
  }

  /** What the cluster holds after a bulk request processed in order: an action
      the cluster accepts upserts its document by id, a refused one is dropped. */
  function ApplyBulk(docs: map<string, Doc>, actions: seq<Action>, accepts: (string, Doc) -> bool): map<string, Doc>
    decreases |actions|
  {
    if |actions| == 0 then docs
    else
      var a := actions[0];
      ApplyBulk(if accepts(a.id, a.source) then docs[a.id := a.source] else docs, actions[1..], accepts)
  }

  /** The last accepted action for an id, if any. */
  function LastAccepted(id: string, actions: seq<Action>, accepts: (string, Doc) -> bool): Option<Doc>
    decreases |actions|
  {
    if |actions| == 0 then None
    else
      var a := actions[|actions| - 1];
      if a.id == id && accepts(a.id, a.source) then Some(a.source)
      else LastAccepted(id, actions[..|actions| - 1], accepts)
  }

  lemma {:induction false} ApplyBulkSnoc(docs: map<string, Doc>, actions: seq<Action>, a: Action, accepts: (string, Doc) -> bool)
    ensures ApplyBulk(docs, actions + [a], accepts) ==
      (var d := ApplyBulk(docs, actions, accepts); if accepts(a.id, a.source) then d[a.id := a.source] else d)
    decreases |actions|
  {
    if |actions| > 0 {
      var a0 := actions[0];
      assert (actions + [a])[0] == a0 && (actions + [a])[1..] == actions[1..] + [a];
      ApplyBulkSnoc(if accepts(a0.id, a0.source) then docs[a0.id := a0.source] else docs, actions[1..], a, accepts);
    } else {
      assert [a][1..] == [];
    }
  }

  /** Sequential upsert by id: an id ends with the source of its last accepted
      action, and an id without an accepted action keeps what it had. */
  lemma {:induction false} ApplyBulkEffect(docs: map<string, Doc>, actions: seq<Action>, accepts: (string, Doc) -> bool, id: string)
    ensures var r := ApplyBulk(docs, actions, accepts);
      match LastAccepted(id, actions, accepts)
      case Some(s) => id in r && r[id] == s
      case None => (id in r <==> id in docs) && (id in docs ==> r[id] == docs[id])
    decreases |actions|
  {
    if |actions| > 0 {
      var init := actions[..|actions| - 1];
      var a := actions[|actions| - 1];
      assert actions == init + [a];
      ApplyBulkSnoc(docs, init, a, accepts);
      ApplyBulkEffect(docs, init, accepts, id);
    }
  }

  /** One `match` clause of a delete query. */
  function MatchQuery(key: string, v: Json): Json {
    JDict([("match", JDict([(key, v)]))])
  }

  function MatchQueries(key: string, vs: seq<Json>): (r: seq<Json>)
    ensures |r| == |vs| && forall i :: 0 <= i < |vs| ==> r[i] == MatchQuery(key, vs[i])
  {
    seq(|vs|, i requires 0 <= i < |vs| => MatchQuery(key, vs[i]))
  }

  /** The body of one delete_by_query request: a bool.should of its clauses. */
  function DeleteBody(clauses: seq<Json>): Json {
    JDict([("query", JDict([("bool", JDict([("should", JList(clauses))]))]))])
  }

  /** The body `set_refresh_interval` sends. */
  function RefreshBody(v: string): Json {
    JDict([("index", JDict([("refresh_interval", JStr(v))]))])
  }

  /** One delete request per chunk of clauses. */
  function DeleteCalls(index: string, chunks: seq<seq<Json>>): (r: seq<ClientCall>)
    ensures |r| == |chunks|
    ensures forall i :: 0 <= i < |chunks| ==> r[i] == DeleteByQueryCall(index, DeleteBody(chunks[i]), "proceed")
  {
    seq(|chunks|, i requires 0 <= i < |chunks| => DeleteByQueryCall(index, DeleteBody(chunks[i]), "proceed"))
  }

  /** A document is deleted when its field matches one of the values. */
  predicate MatchesAny(d: Doc, key: string, values: set<Json>, matches: (Json, Json) -> bool) {
    key in d && exists v :: v in values && matches(d[key], v)
  }

  /** The documents left after deleting every match of key against the values. */
  function RemoveMatching(docs: map<string, Doc>, key: string, values: set<Json>, matches: (Json, Json) -> bool): (r: map<string, Doc>)
    ensures forall id :: id in r <==> id in docs && !MatchesAny(docs[id], key, values, matches)
    ensures forall id :: id in r ==> r[id] == docs[id]
  {
    map id | id in docs && !MatchesAny(docs[id], key, values, matches) :: docs[id]
  }

  lemma RemoveMatchingTwice(docs: map<string, Doc>, key: string, a: set<Json>, b: set<Json>, matches: (Json, Json) -> bool)
    ensures RemoveMatching(RemoveMatching(docs, key, a, matches), key, b, matches) == RemoveMatching(docs, key, a + b, matches)
  {
    var l := RemoveMatching(RemoveMatching(docs, key, a, matches), key, b, matches);
    var r := RemoveMatching(docs, key, a + b, matches);
    forall id | id in docs
      ensures MatchesAny(docs[id], key, a + b, matches) <==> MatchesAny(docs[id], key, a, matches) || MatchesAny(docs[id], key, b, matches)
    {
      if MatchesAny(docs[id], key, a + b, matches) {
        var v :| v in a + b && matches(docs[id][key], v);
        if v in a { assert MatchesAny(docs[id], key, a, matches); } else { assert MatchesAny(docs[id], key, b, matches); }
      }
    }
    assert l.Keys == r.Keys;
  }

  /** `SplitChunks` commutes with building the clause of each value. */
  lemma {:induction false} ChunkedQueries(key: string, vs: seq<Json>, n: nat)
    requires n > 0
    ensures var cs := SplitChunks(vs, n);
      SplitChunks(MatchQueries(key, vs), n) == seq(|cs|, i requires 0 <= i < |cs| => MatchQueries(key, cs[i]))
    decreases |vs|
  {
    var cs := SplitChunks(vs, n);
    var qs := MatchQueries(key, vs);
    if |vs| > n {
      ChunkedQueries(key, vs[n..], n);
      assert qs[..n] == MatchQueries(key, vs[..n]);
      assert qs[n..] == MatchQueries(key, vs[n..]);
    } else if |vs| > 0 {
      assert SplitChunks(qs, n) == [qs];
    }
  }

  /** A non-empty set of n values costs ceil(n / 1000) delete requests. */
  lemma DeleteRequestCount(order: seq<Json>)
    ensures |SplitChunks(order, DeleteChunkSize)| == (|order| + DeleteChunkSize - 1) / DeleteChunkSize
  {
    ChunkCount(order, DeleteChunkSize);
  }

  lemma {:induction false} ElemsOfChunks(vs: seq<Json>, n: nat, k: nat)
    requires n > 0 && k <= |SplitChunks(vs, n)|
    ensures Members(Flatten(SplitChunks(vs, n)[..k])) + Members(Flatten(SplitChunks(vs, n)[k..])) == Members(vs)
  {
    var cs := SplitChunks(vs, n);
    FlattenSplitChunks(vs, n);
    assert cs == cs[..k] + cs[k..];
    FlattenAppend(cs[..k], cs[k..]);
  }

  lemma ElemsAppend(a: seq<Json>, b: seq<Json>)
    ensures Members(a + b) == Members(a) + Members(b)
  {
  }

  /** Python's iteration over a set: some order of its elements, each once. */
  method IterationOrder(values: set<Json>) returns (order: seq<Json>)
    ensures NoDups(order) && Members(order) == values && |order| == |values|
  {
    order := [];
    var rest := values;
    while rest != {}
      invariant Members(order) + rest == values && Members(order) !! rest
      invariant NoDups(order) && |order| + |rest| == |values|
      decreases |rest|
    {
      var v :| v in rest;
      MembersSnoc(order, v);
      assert |rest - {v}| == |rest| - 1;
      order := order + [v];
      rest := rest - {v};
    }
  }

  /** Deleting one more chunk removes the matches of its values too. */
  lemma DeleteStep(docs: map<string, Doc>, key: string, chunks: seq<seq<Json>>, k: nat, matches: (Json, Json) -> bool)
    requires k < |chunks|
    ensures RemoveMatching(RemoveMatching(docs, key, Members(Flatten(chunks[..k])), matches), key, Members(chunks[k]), matches)
         == RemoveMatching(docs, key, Members(Flatten(chunks[..k + 1])), matches)
  {
    RemoveMatchingTwice(docs, key, Members(Flatten(chunks[..k])), Members(chunks[k]), matches);
    assert chunks[..k + 1] == chunks[..k] + [chunks[k]];
    FlattenAppend(chunks[..k], [chunks[k]]);
    assert Flatten([chunks[k]]) == chunks[k];
    ElemsAppend(Flatten(chunks[..k]), chunks[k]);
  }

  /** The action list `upload_index` builds, or None when its assertion that
      every document is a one-key dict fails. */
  method BuildActions(index: string, batch: seq<seq<(string, Doc)>>) returns (r: Option<seq<Action>>)
    ensures r.Some? <==> AllSingleKey(batch)
    ensures r.Some? ==> r.value == Actions(index, batch)
  {
    var actions: seq<Action> := [];
    var i := 0;
    while i < |batch|
      invariant 0 <= i <= |batch|
      invariant AllSingleKey(batch[..i])
      invariant actions == Actions(index, batch[..i])
    {
      if |batch[i]| != 1 {
        return None;
      }
      var pid := batch[i][0].0;
      actions := actions + [Action("index", pid, index, batch[i][0].1)];
      assert batch[..i + 1] == batch[..i] + [batch[i]];
      i := i + 1;
    }
    assert batch[..i] == batch;
    r := Some(actions);
  }

  /** The cluster processing a bulk request item by item. */
  method BulkUpsert(docs: map<string, Doc>, actions: seq<Action>, accepts: (string, Doc) -> bool) returns (d: map<string, Doc>)
    ensures d == ApplyBulk(docs, actions, accepts)
  {
    d := docs;
    var j := 0;
    while j < |actions|
      invariant 0 <= j <= |actions|
      invariant d == ApplyBulk(docs, actions[..j], accepts)
    {
      var a := actions[j];
      if accepts(a.id, a.source) {
        d := d[a.id := a.source];
      }
      ApplyBulkSnoc(docs, actions[..j], a, accepts);
      assert actions[..j + 1] == actions[..j] + [a];
      j := j + 1;
    }
    assert actions[..j] == actions;
  }

  /** The delete_by_query requests for values in the given order, and what the
      cluster holds after them. */
  method SendDeletes(index: string, key: string, order: seq<Json>, docs: map<string, Doc>, matches: (Json, Json) -> bool)
    returns (sent: seq<ClientCall>, d: map<string, Doc>)
    ensures sent == DeleteCalls(index, SplitChunks(MatchQueries(key, order), DeleteChunkSize))
    ensures d == RemoveMatching(docs, key, Members(order), matches)
  {
    var chunks := SplitChunks(MatchQueries(key, order), DeleteChunkSize);
    var valueChunks := SplitChunks(order, DeleteChunkSize);
    ChunkedQueries(key, order, DeleteChunkSize);
    sent := [];
    d := docs;
    var k := 0;
    while k < |chunks|
      invariant 0 <= k <= |chunks| && |chunks| == |valueChunks|
      invariant sent == DeleteCalls(index, chunks[..k])
      invariant d == RemoveMatching(docs, key, Members(Flatten(valueChunks[..k])), matches)
    {
      sent := sent + [DeleteByQueryCall(index, DeleteBody(chunks[k]), "proceed")];
      d := RemoveMatching(d, key, Members(valueChunks[k]), matches);
      DeleteStep(docs, key, valueChunks, k, matches);
      assert DeleteCalls(index, chunks[..k + 1]) == DeleteCalls(index, chunks[..k]) + [DeleteByQueryCall(index, DeleteBody(chunks[k]), "proceed")];
      k := k + 1;
    }
    assert chunks[..k] == chunks;
    ElemsOfChunks(order, DeleteChunkSize, |valueChunks|);
    assert valueChunks[..|valueChunks|] == valueChunks;
    assert Flatten(valueChunks[|valueChunks|..]) == [];
  }

  class IndexUploader {
    const indexName: string
    const template: Json
    /** Whether the cluster accepts one bulk item; refused items are only logged. */
    const accepts: (string, Doc) -> bool
    /** Whether a document field value satisfies a `match` clause on a value. */
    const matches: (Json, Json) -> bool

    var indexExists: bool
    var docs: map<string, Doc>
    var refreshInterval: string
    var calls: seq<ClientCall>

    constructor (indexName: string, template: Json, accepts: (string, Doc) -> bool, matches: (Json, Json) -> bool,
                 indexExists: bool, docs: map<string, Doc>, refreshInterval: string)
      ensures this.indexName == indexName && this.template == template
      ensures this.accepts == accepts && this.matches == matches
      ensures this.indexExists == indexExists && this.docs == docs && this.refreshInterval == refreshInterval
      ensures calls == []
    {
      this.indexName := indexName;
      this.template := template;
      this.accepts := accepts;
      this.matches := matches;
      this.indexExists := indexExists;
      this.docs := docs;
      this.refreshInterval := refreshInterval;
      this.calls := [];
    }

    /** The cluster state this uploader talks to. */
    function State(): IndexState
      reads this
    {
      IndexState(indexExists, docs, refreshInterval, calls)
    }

    /** `is_index_exists`. */
    method IsIndexExists() returns (b: bool)
      ensures b == indexExists
    {
      b := indexExists;
    }

    /** `create_index_if_not_exists`: a no-op on an existing index. */
    method CreateIndexIfNotExists()
      modifies this
      ensures indexExists
      ensures old(indexExists) ==> docs == old(docs) && refreshInterval == old(refreshInterval) && calls == old(calls)
      ensures !old(indexExists) ==> (docs == map[] && refreshInterval == TemplateRefreshInterval(template) &&
        calls == old(calls) + [CreateCall(indexName, template)])
    {
      if !indexExists {
        indexExists := true;
        docs := map[];
        refreshInterval := TemplateRefreshInterval(template);
        calls := calls + [CreateCall(indexName, template)];
      }
    }

    /** `create_index`: exclusive create; an existing index raises LookupError and
        nothing is created. */
    method CreateIndex() returns (err: Option<PyError>)
      modifies this
      ensures err.Some? <==> old(indexExists)
      ensures err.Some? ==> err.value == LookupError("Index '" + indexName + "' already exists")
      ensures err.Some? ==> indexExists == old(indexExists) && docs == old(docs) && refreshInterval == old(refreshInterval) && calls == old(calls)
      ensures err.None? ==> (indexExists && docs == map[] && refreshInterval == TemplateRefreshInterval(template) &&
        calls == old(calls) + [CreateCall(indexName, template)])
    {
      if indexExists {
        return Some(LookupError("Index '" + indexName + "' already exists"));
      }
      indexExists := true;
      docs := map[];
      refreshInterval := TemplateRefreshInterval(template);
      calls := calls + [CreateCall(indexName, template)];
      err := None;
    }

    /** `upload_index`: asserts every doc is a one-key dict, builds one index
        action per doc in order, and sends them in one bulk request. Refused items
        are only logged, so no error escapes for them. */
    method UploadIndex(batch: seq<seq<(string, Doc)>>, batchSize: int) returns (err: Option<PyError>)
      requires indexExists
      modifies this
      ensures err.Some? <==> !AllSingleKey(batch)
      ensures err.Some? ==> err.value.AssertionError? && docs == old(docs) && calls == old(calls)
      ensures err.None? ==> (calls == old(calls) + [BulkCall(Actions(indexName, batch), batchSize)] &&
        docs == ApplyBulk(old(docs), Actions(indexName, batch), accepts))
      ensures indexExists == old(indexExists) && refreshInterval == old(refreshInterval)
    {
      var actions := BuildActions(indexName, batch);
      if actions.None? {
        return Some(AssertionError(""));
      }
      calls := calls + [BulkCall(actions.value, batchSize)];
      docs := BulkUpsert(docs, actions.value, accepts);
      err := None;
    }

    /** `refresh_indices`. */
    method RefreshIndices()
      requires indexExists
      modifies this`calls
      ensures calls == old(calls) + [RefreshCall(indexName)]
    {
      calls := calls + [RefreshCall(indexName)];
    }

    /** `set_refresh_interval`: sends exactly {"index": {"refresh_interval": v}}. */
    method SetRefreshInterval(v: string)
      requires indexExists
      modifies this`calls, this`refreshInterval
      ensures refreshInterval == v
      ensures calls == old(calls) + [PutSettingsCall(indexName, RefreshBody(v))]
    {
      refreshInterval := v;
      calls := calls + [PutSettingsCall(indexName, RefreshBody(v))];
    }

    /** `delete_documents_by_objs`: nothing for an empty set; otherwise one match
        clause per value, in the set's iteration order, sent in delete_by_query
        requests of at most 1000 clauses with conflicts="proceed". */
    method DeleteDocumentsByObjs(key: string, values: set<Json>)
      requires indexExists
      modifies this`calls, this`docs
      ensures values == {} ==> calls == old(calls) && docs == old(docs)
      ensures values != {} ==> exists order: seq<Json> ::
        NoDups(order) && Members(order) == values && |order| == |values| &&
        calls == old(calls) + DeleteCalls(indexName, SplitChunks(MatchQueries(key, order), DeleteChunkSize))
      ensures docs == RemoveMatching(old(docs), key, values, matches)
    {
      if |values| == 0 {
        assert values == {};
        assert docs == RemoveMatching(docs, key, values, matches);
        return;
      }
      var order := IterationOrder(values);
      var sent, d := SendDeletes(indexName, key, order, docs, matches);
      calls := calls + sent;
      docs := d;
    }
  }
}
