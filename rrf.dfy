/** Reciprocal-rank fusion of several ranked item lists. Scores are exact
    reals here; the source accumulates them in float32. */
module Rrf {
  import opened Common
  import opened GoValue

  const K := 60

  /** `RankedItem`: an id, its accumulated score and the item kept for it. */
  datatype Ranked = Ranked(id: string, score: real, item: Item)

  /** The contribution of an occurrence at 0-based rank r: 1/(K + r + 1). */
  function Weight(rank: nat): (w: real)
    ensures 0.0 < w <= 1.0 / 61.0
  {
    1.0 / ((K + rank + 1) as real)
  }

  /** The occurrences of one list, each with its 0-based rank. */
  function Ranks(list: seq<Item>): (r: seq<(Item, nat)>)
    ensures |r| == |list|
    ensures forall i :: 0 <= i < |list| ==> r[i] == (list[i], i)
  {
    seq(|list|, i requires 0 <= i < |list| => (list[i], i))
  }

  /** Every occurrence in every list, lists in order and ranks in order. */
  function Occurrences(lists: seq<seq<Item>>): seq<(Item, nat)>
  {
    if |lists| == 0 then []
    else Occurrences(lists[..|lists| - 1]) + Ranks(lists[|lists| - 1])
  }

  /** The ids that occur. */
  function IdSet(occ: seq<(Item, nat)>): set<string> {
    set i | 0 <= i < |occ| :: occ[i].0.id
  }

  /** The fused score of an id: the sum of the weights of its occurrences. */
  function ScoreOf(occ: seq<(Item, nat)>, id: string): real
  {
    if |occ| == 0 then 0.0
    else
      var last := occ[|occ| - 1];
      ScoreOf(occ[..|occ| - 1], id) + (if last.0.id == id then Weight(last.1) else 0.0)
  }

  /** The item of an id's first occurrence. */
  function FirstOf(occ: seq<(Item, nat)>, id: string): Option<Item>
  {
    if |occ| == 0 then None
    else
      var earlier := FirstOf(occ[..|occ| - 1], id);
      if earlier.Some? then earlier
      else if occ[|occ| - 1].0.id == id then Some(occ[|occ| - 1].0)
      else None
  }

  /** The score map the nested loop builds: a new id gets its first item
      and score 0, then every occurrence adds its weight. */
  function Tally(occ: seq<(Item, nat)>): map<string, Ranked>
  {
    if |occ| == 0 then map[]
    else
      var m := Tally(occ[..|occ| - 1]);
      var (it, rank) := occ[|occ| - 1];
      var base := if it.id in m then m[it.id] else Ranked(it.id, 0.0, it);
      m[it.id := base.(score := base.score + Weight(rank))]
  }

  /** One occurrence more: its item's entry made if missing and its rank's
      weight added. */
  lemma TallySnoc(occ: seq<(Item, nat)>, it: Item, rank: nat)
    ensures var m := Tally(occ);
      var base := if it.id in m then m[it.id] else Ranked(it.id, 0.0, it);
      Tally(occ + [(it, rank)]) == m[it.id := base.(score := base.score + Weight(rank))]
  {
    assert (occ + [(it, rank)])[..|occ|] == occ;
  }

  /** The ids of a prefix plus one more occurrence. */
  lemma IdSetSnoc(occ: seq<(Item, nat)>)
    requires |occ| > 0
    ensures IdSet(occ) == IdSet(occ[..|occ| - 1]) + {occ[|occ| - 1].0.id}
  {
    var n := |occ| - 1;
    var front := occ[..n];
    forall c | c in IdSet(occ) ensures c in IdSet(front) + {occ[n].0.id} {
      var i :| 0 <= i < |occ| && occ[i].0.id == c;
      if i < n { assert front[i].0.id == c; }
    }
    forall c | c in IdSet(front) ensures c in IdSet(occ) {
      var i :| 0 <= i < n && front[i].0.id == c;
      assert occ[i].0.id == c;
    }
    assert occ[n].0.id in IdSet(occ);
  }

  /** An id that never occurs has no first item and scores 0. */
  lemma {:induction false} Absent(occ: seq<(Item, nat)>, id: string)
    requires id !in IdSet(occ)
    ensures FirstOf(occ, id).None? && ScoreOf(occ, id) == 0.0
    decreases |occ|
  {
    if |occ| > 0 {
      IdSetSnoc(occ);
      Absent(occ[..|occ| - 1], id);
    }
  }

  /** An id's first item carries that id. */
  lemma {:induction false} FirstOfId(occ: seq<(Item, nat)>, id: string)
    requires FirstOf(occ, id).Some?
    ensures FirstOf(occ, id).value.id == id
    decreases |occ|
  {
    if FirstOf(occ[..|occ| - 1], id).Some? {
      FirstOfId(occ[..|occ| - 1], id);
    }
  }

  /** The loop's map holds, for every id that occurs and no other, the id,
      its fused score and its first item. */
  lemma {:induction false} TallySpec(occ: seq<(Item, nat)>)
    ensures Tally(occ).Keys == IdSet(occ)
    ensures forall id :: id in Tally(occ) ==>
      Tally(occ)[id].id == id && Tally(occ)[id].score == ScoreOf(occ, id) &&
      FirstOf(occ, id) == Some(Tally(occ)[id].item)
    decreases |occ|
  {
    if |occ| > 0 {
      var n := |occ| - 1;
      var front := occ[..n];
      TallySpec(front);
      IdSetSnoc(occ);
      var m := Tally(front);
      var (it, rank) := occ[n];
      if it.id !in m {
        Absent(front, it.id);
      }
      assert Tally(occ).Keys == IdSet(occ);
    }
  }

  /** The score of an id as read from a map, 0 when absent. */
  function ScoreIn(m: map<string, Ranked>, id: string): real {
    if id in m then m[id].score else 0.0
  }

  predicate SortedBy(order: seq<string>, m: map<string, Ranked>) {
    forall i, j :: 0 <= i < j < |order| ==> ScoreIn(m, order[i]) >= ScoreIn(m, order[j])
  }

  /** One step of the stable sort: x goes before the first id that scores
      strictly less, after every id that scores at least as much. */
  function InsertId(x: string, s: seq<string>, m: map<string, Ranked>): (r: seq<string>)
    ensures |r| == |s| + 1
  {
    if |s| == 0 then [x]
    else if ScoreIn(m, s[0]) < ScoreIn(m, x) then [x] + s
    else [s[0]] + InsertId(x, s[1..], m)
  }

  /** Inserting keeps every id and adds x. */
  lemma {:induction false} InsertIdMembers(x: string, s: seq<string>, m: map<string, Ranked>)
    ensures Members(InsertId(x, s, m)) == Members(s) + {x}
    decreases |s|
  {
    var r := InsertId(x, s, m);
    if |s| == 0 {
      assert r == [x] + s;
      MembersCons(x, s);
    } else if ScoreIn(m, s[0]) < ScoreIn(m, x) {
      assert r == [x] + s;
      MembersCons(x, s);
    } else {
      InsertIdMembers(x, s[1..], m);
      assert r == [s[0]] + InsertId(x, s[1..], m);
      MembersCons(s[0], InsertId(x, s[1..], m));
      MembersCons(s[0], s[1..]);
      assert s == [s[0]] + s[1..];
    }
  }

  lemma MembersCons(a: string, s: seq<string>)
    ensures Members([a] + s) == {a} + Members(s)
  {
    var t := [a] + s;
    forall c | c in Members(t) ensures c in {a} + Members(s) {
      var i :| 0 <= i < |t| && t[i] == c;
      if i > 0 { assert s[i - 1] == c; }
    }
    forall c | c in {a} + Members(s) ensures c in Members(t) {
      if c == a { assert t[0] == c; }
      else {
        var i :| 0 <= i < |s| && s[i] == c;
        assert t[i + 1] == c;
      }
    }
  }

  lemma NoDupsCons(a: string, s: seq<string>)
    ensures NoDups([a] + s) <==> a !in Members(s) && NoDups(s)
  {
    var t := [a] + s;
    assert forall i :: 0 <= i < |s| ==> t[i + 1] == s[i];
    if NoDups(t) {
      forall i | 0 <= i < |s| ensures s[i] != a {
        assert t[0] != t[i + 1];
      }
      forall i, j | 0 <= i < j < |s| ensures s[i] != s[j] {
        assert t[i + 1] != t[j + 1];
      }
    }
    if a !in Members(s) && NoDups(s) {
      forall i, j | 0 <= i < j < |t| ensures t[i] != t[j] {
        if i == 0 { assert t[j] == s[j - 1]; }
      }
    }
  }

  /** Inserting a new id into a list without duplicates keeps it so. */
  lemma {:induction false} InsertIdNoDups(x: string, s: seq<string>, m: map<string, Ranked>)
    requires NoDups(s) && x !in Members(s)
    ensures NoDups(InsertId(x, s, m))
    decreases |s|
  {
    if |s| == 0 {
    } else if ScoreIn(m, s[0]) < ScoreIn(m, x) {
      NoDupsCons(x, s);
    } else {
      var tail := s[1..];
      assert s == [s[0]] + tail;
      NoDupsCons(s[0], tail);
      MembersCons(s[0], tail);
      InsertIdNoDups(x, tail, m);
      InsertIdMembers(x, tail, m);
      NoDupsCons(s[0], InsertId(x, tail, m));
    }
  }

  /** Inserting keeps a list sorted by non-increasing score. */
  lemma {:induction false} InsertIdSorted(x: string, s: seq<string>, m: map<string, Ranked>)
    requires SortedBy(s, m)
    ensures SortedBy(InsertId(x, s, m), m)
    decreases |s|
  {
    var r := InsertId(x, s, m);
    if |s| == 0 {
    } else if ScoreIn(m, s[0]) < ScoreIn(m, x) {
      assert r == [x] + s;
      forall i, j | 0 <= i < j < |r| ensures ScoreIn(m, r[i]) >= ScoreIn(m, r[j]) {
        assert r[j] == s[j - 1];
        if i > 0 { assert r[i] == s[i - 1]; }
        else if j > 1 { assert ScoreIn(m, s[0]) >= ScoreIn(m, s[j - 1]); }
      }
    } else {
      var tail := s[1..];
      var rest := InsertId(x, tail, m);
      assert SortedBy(tail, m) by {
        forall i, j | 0 <= i < j < |tail| ensures ScoreIn(m, tail[i]) >= ScoreIn(m, tail[j]) {
          assert tail[i] == s[i + 1] && tail[j] == s[j + 1];
        }
      }
      InsertIdSorted(x, tail, m);
      InsertIdMembers(x, tail, m);
      assert r == [s[0]] + rest;
      forall i, j | 0 <= i < j < |r| ensures ScoreIn(m, r[i]) >= ScoreIn(m, r[j]) {
        assert r[j] == rest[j - 1];
        if i > 0 {
          assert r[i] == rest[i - 1];
        } else {
          var c := rest[j - 1];
          assert c in Members(rest);
          if c != x {
            var a :| 0 <= a < |tail| && tail[a] == c;
            assert s[a + 1] == c;
          }
        }
      }
    }
  }

  /** The item kept for an id: its first occurrence. */
  function FirstItem(occ: seq<(Item, nat)>, id: string): Item {
    match FirstOf(occ, id)
    case Some(it) => it
    case None => Item("", map[], 0.0)
  }

  /** An admissible fused ranking: every id once, by non-increasing fused
      score. Ties may come in any order (the source sorts the values of a Go
      map, whose iteration order is unspecified, with a stable sort). */
  ghost predicate FusedRanking(lists: seq<seq<Item>>, order: seq<string>) {
    var occ := Occurrences(lists);
    Enumerates(order, IdSet(occ)) &&
    forall i, j :: 0 <= i < j < |order| ==> ScoreOf(occ, order[i]) >= ScoreOf(occ, order[j])
  }

  /** The first k ids of a ranking, as their first items. */
  function TopItems(lists: seq<seq<Item>>, order: seq<string>, k: nat): (r: seq<Item>)
    ensures |r| == Min(k, |order|)
  {
    var occ := Occurrences(lists);
    seq(Min(k, |order|), j requires 0 <= j < Min(k, |order|) => FirstItem(occ, order[j]))
  }

  /** The cap of `make([]*proto.Item, 0, k)` must not be negative. */
  const MakeslicePanic := Panic("makeslice: cap out of range")

  lemma OccurrencesSnoc(lists: seq<seq<Item>>, l: nat)
    requires l < |lists|
    ensures Occurrences(lists[..l + 1]) == Occurrences(lists[..l]) + Ranks(lists[l])
  {
    assert lists[..l + 1][..l] == lists[..l];
  }

  /** One candidate of the inner loop: its entry made if missing, then its
      rank's weight added to the entry's score. */
  method AddCandidate(m: map<string, Ranked>, ghost occ: seq<(Item, nat)>, c: Item, rank: nat)
    returns (resultMap: map<string, Ranked>)
    requires m == Tally(occ)
    ensures resultMap == Tally(occ + [(c, rank)])
  {
    ghost var base := if c.id in m then m[c.id] else Ranked(c.id, 0.0, c);
    TallySnoc(occ, c, rank);
    resultMap := m;
    if c.id !in resultMap {
      resultMap := resultMap[c.id := Ranked(c.id, 0.0, c)];
    }
    assert resultMap[c.id] == base;
    resultMap := resultMap[c.id := resultMap[c.id].(score := resultMap[c.id].score + Weight(rank))];
  }

  /** The inner loop of `RRF.Aggregate`: one list's candidates added to the
      score map in rank order. */
  method AddList(m: map<string, Ranked>, ghost before: seq<(Item, nat)>, candidates: seq<Item>)
    returns (resultMap: map<string, Ranked>)
    requires m == Tally(before)
    ensures resultMap == Tally(before + Ranks(candidates))
  {
    resultMap := m;
    var rank := 0;
    assert before + Ranks(candidates)[..0] == before;
    while rank < |candidates|
      invariant 0 <= rank <= |candidates|
      invariant resultMap == Tally(before + Ranks(candidates)[..rank])
    {
      ghost var prefix := before + Ranks(candidates)[..rank];
      assert before + Ranks(candidates)[..rank + 1] == prefix + [(candidates[rank], rank)];
      resultMap := AddCandidate(resultMap, prefix, candidates[rank], rank);
      rank := rank + 1;
    }
    assert Ranks(candidates)[..rank] == Ranks(candidates);
  }

  /** The first loop of `RRF.Aggregate`: the score map over all lists. */
  method Accumulate(lists: seq<seq<Item>>) returns (resultMap: map<string, Ranked>)
    ensures resultMap == Tally(Occurrences(lists))
  {
    resultMap := map[];
    var l := 0;
    while l < |lists|
      invariant 0 <= l <= |lists|
      invariant resultMap == Tally(Occurrences(lists[..l]))
    {
      resultMap := AddList(resultMap, Occurrences(lists[..l]), lists[l]);
      OccurrencesSnoc(lists, l);
      l := l + 1;
    }
    assert lists[..l] == lists;
  }

  /** The map's values collected in Go's unspecified iteration order, then
      stably sorted by descending score: every key once, scores non-increasing. */
  method SortedIds(resultMap: map<string, Ranked>) returns (sorted: seq<string>)
    ensures Enumerates(sorted, resultMap.Keys)
    ensures SortedBy(sorted, resultMap)
  {
    var slice: seq<string> := [];
    var rest := resultMap.Keys;
    while rest != {}
      invariant rest <= resultMap.Keys
      invariant Enumerates(slice, resultMap.Keys - rest)
      decreases rest
    {
      var key :| key in rest;
      MembersSnoc(slice, key);
      slice := slice + [key];
      rest := rest - {key};
    }
    sorted := [];
    var i := 0;
    while i < |slice|
      invariant 0 <= i <= |slice|
      invariant Enumerates(sorted, Members(slice[..i]))
      invariant SortedBy(sorted, resultMap)
    {
      assert NoDups(slice[..i]) by {
        forall a, b | 0 <= a < b < i ensures slice[..i][a] != slice[..i][b] {
          assert slice[..i][a] == slice[a] && slice[..i][b] == slice[b];
        }
      }
      assert slice[i] !in Members(slice[..i]) by {
        forall a | 0 <= a < i ensures slice[..i][a] != slice[i] {
          assert slice[..i][a] == slice[a];
        }
      }
      InsertIdMembers(slice[i], sorted, resultMap);
      InsertIdNoDups(slice[i], sorted, resultMap);
      InsertIdSorted(slice[i], sorted, resultMap);
      assert slice[..i + 1] == slice[..i] + [slice[i]];
      MembersSnoc(slice[..i], slice[i]);
      sorted := InsertId(slice[i], sorted, resultMap);
      i := i + 1;
    }
    assert slice[..i] == slice;
  }

  /** `RRF.Aggregate`: fuses the lists and returns the first k items of a
      fused ranking; a negative k panics. */
  method Aggregate(lists: seq<seq<Item>>, k: int) returns (r: Result<seq<Item>, GoError>)
    ensures k < 0 ==> r == Err(MakeslicePanic)
    ensures k >= 0 ==> r.Ok? && exists order :: FusedRanking(lists, order) && r.value == TopItems(lists, order, k)
  {
    if k < 0 {
      return Err(MakeslicePanic);
    }
    var resultMap := Accumulate(lists);
    ghost var occ := Occurrences(lists);
    TallySpec(occ);
    var sorted := SortedIds(resultMap);
    assert FusedRanking(lists, sorted) by {
      forall a, b | 0 <= a < b < |sorted| ensures ScoreOf(occ, sorted[a]) >= ScoreOf(occ, sorted[b]) {
        assert sorted[a] in Members(sorted) && sorted[b] in Members(sorted);
        assert ScoreIn(resultMap, sorted[a]) >= ScoreIn(resultMap, sorted[b]);
      }
    }
    var n := if k < |sorted| then k else |sorted|;
    var out: seq<Item> := [];
    var j := 0;
    while j < n
      invariant 0 <= j <= n
      invariant |out| == j
      invariant forall t :: 0 <= t < j ==> out[t] == FirstItem(occ, sorted[t])
    {
      assert sorted[j] in Members(sorted);
      out := out + [resultMap[sorted[j]].item];
      j := j + 1;
    }
    assert out == TopItems(lists, sorted, k);
    return Ok(out);
  }

  /** What a fused ranking promises: the output has min(k, #distinct ids)
      items with distinct ids, the i-th being the i-th ranked id's first
      occurrence, and no id left out scores more than one taken. */
  lemma TopItemsSpec(lists: seq<seq<Item>>, order: seq<string>, k: nat)
    requires FusedRanking(lists, order)
    ensures var occ := Occurrences(lists);
      var top := TopItems(lists, order, k);
      |top| == Min(k, |IdSet(occ)|) &&
      (forall j :: 0 <= j < |top| ==> top[j].id == order[j] && FirstOf(occ, order[j]) == Some(top[j])) &&
      (forall a, b :: 0 <= a < b < |top| ==> top[a].id != top[b].id) &&
      (forall id, j :: id in IdSet(occ) && id !in order[..|top|] && 0 <= j < |top| ==>
         ScoreOf(occ, id) <= ScoreOf(occ, order[j]))
  {
    var occ := Occurrences(lists);
    var top := TopItems(lists, order, k);
    EnumeratesCard(order, IdSet(occ));
    TallySpec(occ);
    forall j | 0 <= j < |top| ensures top[j].id == order[j] && FirstOf(occ, order[j]) == Some(top[j]) {
      assert order[j] in Members(order);
      assert order[j] in Tally(occ);
      FirstOfId(occ, order[j]);
      assert top[j] == FirstItem(occ, order[j]);
    }
    forall a, b | 0 <= a < b < |top| ensures top[a].id != top[b].id {
      assert top[a].id == order[a] && top[b].id == order[b];
    }
    forall id, j | id in IdSet(occ) && id !in order[..|top|] && 0 <= j < |top|
      ensures ScoreOf(occ, id) <= ScoreOf(occ, order[j])
    {
      assert id in Members(order);
      var a :| 0 <= a < |order| && order[a] == id;
      assert j < a;
    }
  }

  /** Every occurrence adds a positive weight: an id that occurs in the
      lists scores at least the weight of any one of its occurrences. */
  lemma {:induction false} ScoreAtLeastOccurrence(occ: seq<(Item, nat)>, i: nat)
    requires i < |occ|
    ensures ScoreOf(occ, occ[i].0.id) >= Weight(occ[i].1)
    decreases |occ|
  {
    var n := |occ| - 1;
    ScoreNonNegative(occ[..n], occ[i].0.id);
    if i < n {
      assert occ[..n][i] == occ[i];
      ScoreAtLeastOccurrence(occ[..n], i);
    }
  }

  lemma {:induction false} ScoreNonNegative(occ: seq<(Item, nat)>, id: string)
    ensures ScoreOf(occ, id) >= 0.0
    decreases |occ|
  {
    if |occ| > 0 {
      ScoreNonNegative(occ[..|occ| - 1], id);
    }
  }
}
