/** The consumer's batching step: QA updates from one batch of events are
    merged per QA id before they are written. */
module EventQuery {
  import opened BackendModel
  import opened EventModel

  /** A QA record held by reference (`*model.QA`); merging writes into it. */
  class QARecord {
    var value: QA

    constructor (value: QA)
      ensures this.value == value
    {
      this.value := value;
    }
  }

  /** `Query`: a partial QA and whether it creates the record. The QA
      is held by value: each query the consumer builds owns its own QA
      record, so merging into that record and replacing the value agree. */
  class Query {
    var qa: QA
    var shouldCreate: bool

    constructor (qa: QA, shouldCreate: bool)
      ensures this.qa == qa && this.shouldCreate == shouldCreate
    {
      this.qa := qa;
      this.shouldCreate := shouldCreate;
    }
  }

  /** `mergeQA` on values: non-empty strings, a non-zero token count and
      non-empty lists of the newer record overwrite the older one, the
      update time always comes from the newer record, and everything else
      stays as the older record has it. */
  function MergeValue(src: QA, dst: QA): QA
  {
    dst.(
      sessionId := if src.sessionId != "" then src.sessionId else dst.sessionId,
      jobGroup := if src.jobGroup != "" then src.jobGroup else dst.jobGroup,
      chatId := if src.chatId != "" then src.chatId else dst.chatId,
      question := if src.question != "" then src.question else dst.question,
      answer := if src.answer != "" then src.answer else dst.answer,
      tokenCount := if src.tokenCount != 0 then src.tokenCount else dst.tokenCount,
      references := if |src.references| > 0 then src.references else dst.references,
      keywords := if |src.keywords| > 0 then src.keywords else dst.keywords,
      relatedQueries := if |src.relatedQueries| > 0 then src.relatedQueries else dst.relatedQueries,
      updatedAt := src.updatedAt)
  }

  /** The five string fields a merge may overwrite, in the order it visits
      them. */
  function StringFields(qa: QA): (r: seq<string>)
    ensures |r| == 5
  {
    [qa.sessionId, qa.jobGroup, qa.chatId, qa.question, qa.answer]
  }

  /** The fields a merge never writes: the record with every mergeable
      field and the update time cleared. */
  function Fixed(qa: QA): QA {
    qa.(sessionId := "", jobGroup := "", chatId := "", question := "", answer := "", tokenCount := 0,
        references := [], keywords := [], relatedQueries := [], updatedAt := 0)
  }

  /** A record with nothing to contribute: every mergeable field empty. */
  predicate Blank(qa: QA) {
    qa.sessionId == "" && qa.jobGroup == "" && qa.chatId == "" && qa.question == "" && qa.answer == "" &&
    qa.tokenCount == 0 && qa.references == [] && qa.keywords == [] && qa.relatedQueries == []
  }

  /** Each string field of the result is the newer one when that is
      non-empty and the older one otherwise. */
  lemma MergeStrings(src: QA, dst: QA, k: int)
    requires 0 <= k < 5
    ensures StringFields(MergeValue(src, dst))[k] ==
      if StringFields(src)[k] != "" then StringFields(src)[k] else StringFields(dst)[k]
  {
  }

  /** Id, creation time, vote and every other field the merge does not
      name come from the older record; the update time from the newer. */
  lemma MergeKeeps(src: QA, dst: QA)
    ensures Fixed(MergeValue(src, dst)) == Fixed(dst)
    ensures MergeValue(src, dst).id == dst.id && MergeValue(src, dst).createdAt == dst.createdAt
    ensures MergeValue(src, dst).vote == dst.vote && MergeValue(src, dst).updatedAt == src.updatedAt
  {
  }

  /** A newer record with nothing to contribute only moves the update time. */
  lemma MergeBlank(src: QA, dst: QA)
    requires Blank(src)
    ensures MergeValue(src, dst) == dst.(updatedAt := src.updatedAt)
  {
  }

  /** Merging a record into itself changes nothing. */
  lemma MergeSelf(qa: QA)
    ensures MergeValue(qa, qa) == qa
  {
  }

  /** Merging is associative: merging c into (b merged into a) is merging
      (c merged into b) into a. */
  lemma MergeAssociative(a: QA, b: QA, c: QA)
    ensures MergeValue(c, MergeValue(b, a)) == MergeValue(MergeValue(c, b), a)
  {
  }

  /** `mergeQA(src, dst)`: a nil side yields the other record; otherwise
      the newer record is merged into `dst`, which is returned. */
  method MergeQA(src: QARecord?, dst: QARecord?) returns (r: QARecord?)
    modifies dst
    ensures src == null ==> r == dst && (dst != null ==> dst.value == old(dst.value))
    ensures src != null && dst == null ==> r == src
    ensures src != null && dst != null ==> r == dst && dst.value == MergeValue(old(src.value), old(dst.value))
  {
    if src == null {
      return dst;
    }
    if dst == null {
      return src;
    }
    var s := src.value;
    var v := dst.value;
    v := TakeStrings(s, v);
    v := TakeCounts(s, v);
    dst.value := v;
    return dst;
  }

  /** The string steps of `mergeQA`: each non-empty string of the newer
      record replaces the older one. */
  method TakeStrings(s: QA, v0: QA) returns (v: QA)
    ensures v == v0.(
      sessionId := if s.sessionId != "" then s.sessionId else v0.sessionId,
      jobGroup := if s.jobGroup != "" then s.jobGroup else v0.jobGroup,
      chatId := if s.chatId != "" then s.chatId else v0.chatId,
      question := if s.question != "" then s.question else v0.question,
      answer := if s.answer != "" then s.answer else v0.answer)
  {
    v := v0;
    if s.sessionId != "" {
      v := v.(sessionId := s.sessionId);
    }
    if s.jobGroup != "" {
      v := v.(jobGroup := s.jobGroup);
    }
    if s.chatId != "" {
      v := v.(chatId := s.chatId);
    }
    if s.question != "" {
      v := v.(question := s.question);
    }
    if s.answer != "" {
      v := v.(answer := s.answer);
    }
  }

  /** The remaining steps of `mergeQA`: a non-zero token count and
      non-empty lists replace the older ones; the update time always does. */
  method TakeCounts(s: QA, v0: QA) returns (v: QA)
    ensures v == v0.(
      tokenCount := if s.tokenCount != 0 then s.tokenCount else v0.tokenCount,
      references := if |s.references| > 0 then s.references else v0.references,
      keywords := if |s.keywords| > 0 then s.keywords else v0.keywords,
      relatedQueries := if |s.relatedQueries| > 0 then s.relatedQueries else v0.relatedQueries,
      updatedAt := s.updatedAt)
  {
    v := v0;
    if s.tokenCount != 0 {
      v := v.(tokenCount := s.tokenCount);
    }
    if |s.references| > 0 {
      v := v.(references := s.references);
    }
    if |s.keywords| > 0 {
      v := v.(keywords := s.keywords);
    }
    if |s.relatedQueries| > 0 {
      v := v.(relatedQueries := s.relatedQueries);
    }
    v := v.(updatedAt := s.updatedAt);
  }

  // ---------------------------------------------------------------------
  // mergeQueries, on values

  /** `mergeQueries` on values, one query at a time in input order: the
      first query of an id is its entry, and each later one is merged in. */
  function MergeAll(queries: seq<QueryValue>): map<string, QueryValue>
    decreases |queries|
  {
    if |queries| == 0 then map[]
    else
      var m := MergeAll(queries[..|queries| - 1]);
      var q := queries[|queries| - 1];
      var id := q.qa.id;
      if id !in m then m[id := q]
      else m[id := QueryValue(MergeValue(q.qa, m[id].qa), m[id].shouldCreate || q.shouldCreate)]
  }

  /** The QA ids a batch mentions. */
  function Ids(queries: seq<QueryValue>): set<string> {
    set i | 0 <= i < |queries| :: queries[i].qa.id
  }

  /** The QAs of one id, in input order. */
  function Of(queries: seq<QueryValue>, id: string): (r: seq<QA>)
    ensures forall q :: q in r ==> q.id == id
    decreases |queries|
  {
    if |queries| == 0 then []
    else
      var rest := Of(queries[..|queries| - 1], id);
      if queries[|queries| - 1].qa.id == id then rest + [queries[|queries| - 1].qa] else rest
  }

  /** Merging a list of QAs one after another into the first. */
  function Fold(qas: seq<QA>): QA
    requires |qas| > 0
    decreases |qas|
  {
    if |qas| == 1 then qas[0] else MergeValue(qas[|qas| - 1], Fold(qas[..|qas| - 1]))
  }

  /** One entry per distinct id. */
  lemma {:induction false} MergeAllKeys(queries: seq<QueryValue>)
    ensures MergeAll(queries).Keys == Ids(queries)
    decreases |queries|
  {
    if |queries| > 0 {
      var front := queries[..|queries| - 1];
      MergeAllKeys(front);
      assert forall i :: 0 <= i < |front| ==> front[i] == queries[i];
      assert Ids(queries) == Ids(front) + {queries[|queries| - 1].qa.id};
    }
  }

  /** Each entry is the fold of that id's QAs in input order. */
  lemma {:induction false} MergeAllFolds(queries: seq<QueryValue>, id: string)
    requires id in MergeAll(queries)
    ensures |Of(queries, id)| > 0 && MergeAll(queries)[id].qa == Fold(Of(queries, id))
    decreases |queries|
  {
    var front := queries[..|queries| - 1];
    var q := queries[|queries| - 1];
    if id in MergeAll(front) {
      MergeAllFolds(front, id);
      if id == q.qa.id {
        var rest := Of(front, id);
        assert Of(queries, id) == rest + [q.qa];
        assert (rest + [q.qa])[..|rest|] == rest;
      }
    } else {
      MergeAllKeys(front);
      OfEmpty(front, id);
      assert Of(queries, id) == [q.qa];
    }
  }

  /** An entry creates the record exactly when one of its queries does. */
  lemma {:induction false} MergeAllCreates(queries: seq<QueryValue>, id: string)
    requires id in MergeAll(queries)
    ensures MergeAll(queries)[id].shouldCreate <==>
      exists i :: 0 <= i < |queries| && queries[i].qa.id == id && queries[i].shouldCreate
    decreases |queries|
  {
    var front := queries[..|queries| - 1];
    var q := queries[|queries| - 1];
    assert forall i :: 0 <= i < |front| ==> front[i] == queries[i];
    if id in MergeAll(front) {
      MergeAllCreates(front, id);
    } else {
      MergeAllKeys(front);
    }
    if id == q.qa.id && q.shouldCreate {
      assert queries[|queries| - 1].qa.id == id;
    }
  }

  /** An id the batch does not hold has no QAs. */
  lemma {:induction false} OfEmpty(queries: seq<QueryValue>, id: string)
    ensures id !in Ids(queries) ==> Of(queries, id) == []
    decreases |queries|
  {
    if |queries| > 0 {
      var front := queries[..|queries| - 1];
      assert forall i :: 0 <= i < |front| ==> front[i] == queries[i];
      assert Ids(front) <= Ids(queries);
      OfEmpty(front, id);
    }
  }

  /** One string field across a list of records. */
  function Column(qas: seq<QA>, k: int): (r: seq<string>)
    requires 0 <= k < 5
    ensures |r| == |qas| && forall j :: 0 <= j < |qas| ==> r[j] == StringFields(qas[j])[k]
  {
    seq(|qas|, j requires 0 <= j < |qas| => StringFields(qas[j])[k])
  }

  /** The last non-empty value after the first, or the first value when
      no later one is set. */
  function LastSet(vs: seq<string>): string
    requires |vs| > 0
    decreases |vs|
  {
    if |vs| == 1 then vs[0]
    else if vs[|vs| - 1] != "" then vs[|vs| - 1]
    else LastSet(vs[..|vs| - 1])
  }

  /** `LastSet` is the first value with nothing set after it, or a set
      value with nothing set after it. */
  lemma {:induction false} LastSetIs(vs: seq<string>)
    requires |vs| > 0
    ensures var v := LastSet(vs);
      (v == vs[0] && forall j :: 0 < j < |vs| ==> vs[j] == "") ||
      (exists i :: 0 < i < |vs| && v == vs[i] && v != "" && forall j :: i < j < |vs| ==> vs[j] == "")
    decreases |vs|
  {
    if |vs| > 1 && vs[|vs| - 1] == "" {
      var front := vs[..|vs| - 1];
      LastSetIs(front);
      var v := LastSet(vs);
      if v == front[0] && forall j :: 0 < j < |front| ==> front[j] == "" {
        assert forall j :: 0 < j < |vs| ==> vs[j] == "";
      } else {
        var i :| 0 < i < |front| && v == front[i] && v != "" && forall j :: i < j < |front| ==> front[j] == "";
        assert v == vs[i] && forall j :: i < j < |vs| ==> vs[j] == "";
      }
    } else if |vs| > 1 {
      assert LastSet(vs) == vs[|vs| - 1];
    }
  }

  /** In a fold, each string field is the last non-empty value given for
      it, or the first record's value when no later record sets it. */
  lemma {:induction false} FoldLastNonEmpty(qas: seq<QA>, k: int)
    requires |qas| > 0 && 0 <= k < 5
    ensures StringFields(Fold(qas))[k] == LastSet(Column(qas, k))
    decreases |qas|
  {
    if |qas| > 1 {
      var front, last := qas[..|qas| - 1], qas[|qas| - 1];
      var col := Column(qas, k);
      FoldLastNonEmpty(front, k);
      assert Fold(qas) == MergeValue(last, Fold(front));
      MergeStrings(last, Fold(front), k);
      assert col[..|qas| - 1] == Column(front, k);
      assert col[|qas| - 1] == StringFields(last)[k];
      assert LastSet(col) == if col[|qas| - 1] != "" then col[|qas| - 1] else LastSet(col[..|qas| - 1]);
    }
  }

  /** In a fold, the fields a merge never writes are the first record's,
      and the update time is the last record's. */
  lemma {:induction false} FoldKeepsFirst(qas: seq<QA>)
    requires |qas| > 0
    ensures Fixed(Fold(qas)) == Fixed(qas[0])
    ensures Fold(qas).updatedAt == qas[|qas| - 1].updatedAt
    decreases |qas|
  {
    if |qas| > 1 {
      FoldKeepsFirst(qas[..|qas| - 1]);
      MergeKeeps(qas[|qas| - 1], Fold(qas[..|qas| - 1]));
    }
  }

  // ---------------------------------------------------------------------
  // mergeQueries, on references

  /** The value a query object currently holds. */
  function Snapshot(q: Query): QueryValue
    reads q
  {
    QueryValue(q.qa, q.shouldCreate)
  }

  /** The values of a batch of query objects. */
  function Snapshots(queries: seq<Query>): (r: seq<QueryValue>)
    reads set i | 0 <= i < |queries| :: queries[i]
    ensures |r| == |queries|
  {
    seq(|queries|, i requires 0 <= i < |queries| reads set i | 0 <= i < |queries| :: queries[i]
        => Snapshot(queries[i]))
  }

  /** Distinct query objects, as the consumer builds them, one per event. */
  predicate Separate(queries: seq<Query>) {
    forall i, j :: 0 <= i < j < |queries| ==> queries[i] != queries[j]
  }

  /** The first position of an id in a batch. */
  function FirstIndex(queries: seq<QueryValue>, id: string): (r: int)
    requires id in Ids(queries)
    ensures 0 <= r < |queries| && queries[r].qa.id == id
    ensures forall j :: 0 <= j < r ==> queries[j].qa.id != id
    decreases |queries|
  {
    if queries[0].qa.id == id then 0
    else
      assert id in Ids(queries[1..]) by {
        var i :| 0 <= i < |queries| && queries[i].qa.id == id;
        assert queries[1..][i - 1] == queries[i];
      }
      1 + FirstIndex(queries[1..], id)
  }

  /** The batch grows by one query: its id is added, or merged into. */
  lemma MergeAllStep(vals: seq<QueryValue>, i: int)
    requires 0 <= i < |vals|
    ensures var m := MergeAll(vals[..i]);
      var q := vals[i];
      MergeAll(vals[..i + 1]) ==
        if q.qa.id !in m then m[q.qa.id := q]
        else m[q.qa.id := QueryValue(MergeValue(q.qa, m[q.qa.id].qa), m[q.qa.id].shouldCreate || q.shouldCreate)]
  {
    assert vals[..i + 1][..i] == vals[..i];
  }

  /** An id not seen before position i first occurs at i. */
  lemma NewIdFirst(vals: seq<QueryValue>, i: int)
    requires 0 <= i < |vals| && vals[i].qa.id !in MergeAll(vals[..i])
    ensures vals[i].qa.id in Ids(vals) && FirstIndex(vals, vals[i].qa.id) == i
  {
    var id := vals[i].qa.id;
    MergeAllKeys(vals[..i]);
    forall j | 0 <= j < i
      ensures vals[j].qa.id != id
    {
      assert vals[..i][j] == vals[j];
      assert vals[..i][j].qa.id in Ids(vals[..i]);
    }
  }

  /** The entries of a merge map hold the given values. */
  predicate Holds(updates: map<string, Query>, view: map<string, QueryValue>)
    reads updates.Values
  {
    updates.Keys == view.Keys &&
    forall k :: k in updates ==> updates[k].qa == view[k].qa && updates[k].shouldCreate == view[k].shouldCreate
  }

  /** One query object per id. */
  predicate Distinct(updates: map<string, Query>) {
    forall k, l :: k in updates && l in updates && k != l ==> updates[k] != updates[l]
  }

  /** A new entry holding its value, distinct from the other entries, keeps
      the map holding and one object per id. */
  lemma HoldsExtend(updates: map<string, Query>, view: map<string, QueryValue>, id: string, q: Query,
                    v: QueryValue)
    requires Holds(updates, view) && Distinct(updates) && id !in updates
    requires forall k :: k in updates ==> updates[k] != q
    requires q.qa == v.qa && q.shouldCreate == v.shouldCreate
    ensures Holds(updates[id := q], view[id := v]) && Distinct(updates[id := q])
  {
    var entries := updates[id := q];
    forall k, l | k in entries && l in entries && k != l
      ensures entries[k] != entries[l]
    {
    }
  }

  /** What `mergeQueries` has built after the first i queries: the later
      queries are untouched, each entry is the first query object of its
      id, and the entries hold the merge of the queries seen so far. */
  predicate Progress(queries: seq<Query>, vals: seq<QueryValue>, i: int, view: map<string, QueryValue>,
                     updates: map<string, Query>)
    reads queries, updates.Values
  {
    |vals| == |queries| && 0 <= i <= |queries| &&
    Untouched(queries, vals, i) && view == MergeAll(vals[..i]) && Holds(updates, view) &&
    Distinct(updates) && Firsts(queries, vals, i, updates)
  }

  /** The queries from position i on still hold their values. */
  predicate Untouched(queries: seq<Query>, vals: seq<QueryValue>, i: int)
    requires |vals| == |queries|
    reads queries
  {
    forall j :: 0 <= i <= j < |queries| ==>
      queries[j].qa == vals[j].qa && queries[j].shouldCreate == vals[j].shouldCreate
  }

  /** Each entry is the query object at the first position of its id,
      which lies before position i. */
  predicate Firsts(queries: seq<Query>, vals: seq<QueryValue>, i: int, updates: map<string, Query>)
    requires |vals| == |queries|
  {
    forall id :: id in updates ==>
      id in Ids(vals) && FirstIndex(vals, id) < i && updates[id] == queries[FirstIndex(vals, id)]
  }

  /** The first query of a new id becomes its entry. */
  lemma TakeFirst(queries: seq<Query>, vals: seq<QueryValue>, i: int, view: map<string, QueryValue>,
                  updates: map<string, Query>)
    requires Separate(queries) && Progress(queries, vals, i, view, updates)
    requires i < |queries| && queries[i].qa.id !in updates
    ensures Progress(queries, vals, i + 1, view[queries[i].qa.id := vals[i]], updates[queries[i].qa.id := queries[i]])
  {
    var q := queries[i];
    var id := q.qa.id;
    var next := view[id := vals[i]];
    var entries := updates[id := q];
    MergeAllStep(vals, i);
    assert next == MergeAll(vals[..i + 1]);
    NewIdFirst(vals, i);
    forall k | k in updates
      ensures updates[k] != q
    {
      assert queries[FirstIndex(vals, k)] != q;
    }
    HoldsExtend(updates, view, id, q, vals[i]);
    FirstsExtend(queries, vals, i, updates);
  }

  /** A new id's first query becomes its entry: the entries stay the
      first query objects of their ids. */
  lemma FirstsExtend(queries: seq<Query>, vals: seq<QueryValue>, i: int, updates: map<string, Query>)
    requires |vals| == |queries| && 0 <= i < |queries| && Firsts(queries, vals, i, updates)
    requires vals[i].qa.id in Ids(vals) && FirstIndex(vals, vals[i].qa.id) == i
    ensures Firsts(queries, vals, i + 1, updates[vals[i].qa.id := queries[i]])
  {
  }

  /** The merged value stored into its id's entry: the other entries,
      distinct objects, keep theirs. */
  method WriteBack(updates: map<string, Query>, ghost view: map<string, QueryValue>, id: string, qa: QA, flag: bool)
    requires id in updates && Holds(updates, view) && Distinct(updates)
    modifies updates[id]
    ensures Holds(updates, view[id := QueryValue(qa, flag)])
  {
    var entry := updates[id];
    entry.qa := qa;
    entry.shouldCreate := flag;
    forall k | k in updates
      ensures updates[k].qa == view[id := QueryValue(qa, flag)][k].qa
      ensures updates[k].shouldCreate == view[id := QueryValue(qa, flag)][k].shouldCreate
    {
      if k != id {
        assert updates[k] != entry;
      }
    }
  }

  /** One merge step of `mergeQueries`: a later query of an id already
      seen is merged into that id's entry, the merged QA stored back and
      the flag or-ed in. */
  method Absorb(queries: seq<Query>, ghost vals: seq<QueryValue>, i: int, ghost view: map<string, QueryValue>,
                updates: map<string, Query>)
    returns (ghost next: map<string, QueryValue>)
    requires Separate(queries) && Progress(queries, vals, i, view, updates)
    requires i < |queries| && queries[i].qa.id in updates
    modifies updates[queries[i].qa.id]
    ensures Progress(queries, vals, i + 1, next, updates)
  {
    var query := queries[i];
    var id := query.qa.id;
    var entry := updates[id];
    ghost var f := FirstIndex(vals, id);
    assert entry == queries[f] && entry != query;
    forall j | i < j < |queries|
      ensures queries[j] != entry
    {
      assert queries[f] != queries[j];
    }
    var merged := MergeValue(query.qa, entry.qa);
    var flag := entry.shouldCreate || query.shouldCreate;
    WriteBack(updates, view, id, merged, flag);
    next := view[id := QueryValue(merged, flag)];
    assert Untouched(queries, vals, i + 1);
    MergeAllStep(vals, i);
  }

  /** The loop body of `mergeQueries`: the i-th query becomes the entry of
      a new id, or is merged into the entry of its id. */
  method Step(queries: seq<Query>, ghost vals: seq<QueryValue>, i: int, ghost view: map<string, QueryValue>,
              updates: map<string, Query>)
    returns (entries: map<string, Query>, ghost next: map<string, QueryValue>)
    requires Separate(queries) && Progress(queries, vals, i, view, updates) && i < |queries|
    modifies queries
    ensures Progress(queries, vals, i + 1, next, entries)
  {
    var query := queries[i];
    var id := query.qa.id;
    if id !in updates {
      TakeFirst(queries, vals, i, view, updates);
      entries := updates[id := query];
      next := view[id := vals[i]];
    } else {
      entries := updates;
      next := Absorb(queries, vals, i, view, updates);
    }
  }

  /** Before the first query is read, nothing is built and every query is untouched. */
  lemma Started(queries: seq<Query>)
    ensures Progress(queries, Snapshots(queries), 0, map[], map[])
  {
    var vals := Snapshots(queries);
    assert vals[..0] == [];
    forall j | 0 <= j < |queries|
      ensures queries[j].qa == vals[j].qa && queries[j].shouldCreate == vals[j].shouldCreate
    {
      assert vals[j] == Snapshot(queries[j]);
    }
  }

  /** Once every query is read, the entries are exactly the merge of the batch. */
  lemma Finished(queries: seq<Query>, vals: seq<QueryValue>, view: map<string, QueryValue>,
                 updates: map<string, Query>)
    requires Progress(queries, vals, |queries|, view, updates)
    ensures updates.Keys == Ids(vals)
    ensures forall id :: id in updates ==>
      id in MergeAll(vals) && Snapshot(updates[id]) == MergeAll(vals)[id]
  {
    assert vals[..|queries|] == vals;
    MergeAllKeys(vals);
  }

  /** `mergeQueries`: the first query object of each id becomes that id's
      entry, and every later query of the id is merged into it in input
      order, its flag or-ed in. */
  method MergeQueries(queries: seq<Query>) returns (updates: map<string, Query>)
    requires Separate(queries)
    modifies queries
    ensures updates.Keys == Ids(old(Snapshots(queries)))
    ensures forall id :: id in updates ==>
      updates[id] == queries[FirstIndex(old(Snapshots(queries)), id)]
    ensures forall id :: id in updates ==>
      id in MergeAll(old(Snapshots(queries))) && Snapshot(updates[id]) == MergeAll(old(Snapshots(queries)))[id]
  {
    ghost var vals := Snapshots(queries);
    ghost var view: map<string, QueryValue> := map[];
    updates := map[];
    var i := 0;
    Started(queries);
    while i < |queries|
      invariant Progress(queries, vals, i, view, updates)
    {
      updates, view := Step(queries, vals, i, view, updates);
      i := i + 1;
    }
    Finished(queries, vals, view, updates);
  }
}
