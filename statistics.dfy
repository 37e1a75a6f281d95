/** The backend's statistics service: job group labels, the user trends
    by period and by hour, the satisfaction survey, and the question and
    token histories, each computed from the QAs of the window. */
module Statistics {
  import opened Common
  import opened GoValue
  import opened Calendar
  import opened BackendModel
  import opened StatPeriod
  import StrOrder

  /** `LabelJobGroupETC`: the label of a QA without a job group. */
  const Etc := "기타"

  /** A QA's job group label. */
  function JobLabel(qa: QA): (g: string)
    ensures g != ""
  {
    if qa.jobGroup == "" then Etc else qa.jobGroup
  }

  /** The labels of the QAs' job groups. */
  function JobGroups(qas: seq<QA>): set<string>
    decreases |qas|
  {
    if |qas| == 0 then {} else JobGroups(qas[..|qas| - 1]) + {JobLabel(qas[|qas| - 1])}
  }

  /** A label is a job group exactly when some QA carries it; the empty
      job group is never a label. */
  lemma {:induction false} JobGroupsMeaning(qas: seq<QA>, g: string)
    ensures g in JobGroups(qas) <==> exists i :: 0 <= i < |qas| && JobLabel(qas[i]) == g
    ensures "" !in JobGroups(qas)
    decreases |qas|
  {
    if |qas| > 0 {
      var front := qas[..|qas| - 1];
      JobGroupsMeaning(front, g);
      assert forall i :: 0 <= i < |front| ==> front[i] == qas[i];
      if g in JobGroups(front) {
        var i :| 0 <= i < |front| && JobLabel(front[i]) == g;
        assert JobLabel(qas[i]) == g;
      }
    }
  }

  /** Every QA's label is a job group. */
  lemma JobLabelIn(qas: seq<QA>, i: int)
    requires 0 <= i < |qas|
    ensures JobLabel(qas[i]) in JobGroups(qas)
  {
    JobGroupsMeaning(qas, JobLabel(qas[i]));
  }

  /** `getJobGroupListFromQAs`: the labels collected in a set, then listed
      in map order. The set is probed with the QA's own job group and
      given its label, which agree except for the empty job group. */
  method JobGroupList(qas: seq<QA>) returns (groups: seq<string>)
    ensures Enumerates(groups, JobGroups(qas))
  {
    var seen: set<string> := {};
    for i := 0 to |qas|
      invariant seen == JobGroups(qas[..i])
    {
      assert qas[..i + 1][..i] == qas[..i];
      JobGroupsMeaning(qas[..i], "");
      if qas[i].jobGroup !in seen {
        var g := qas[i].jobGroup;
        if |g| == 0 {
          g := Etc;
        }
        seen := seen + {g};
      }
    }
    assert qas[..|qas|] == qas;
    groups := MapOrder(seen);
  }

  /** `compareFunctionForJobGroupSorting`: "기타" goes after every other
      label, the rest ascending. */
  predicate GroupBefore(a: string, b: string) {
    if a == Etc then false else if b == Etc then true else StrOrder.Less(a, b)
  }

  /** The comparator is a strict total order with "기타" last. */
  lemma GroupOrder(a: string, b: string, c: string)
    ensures !GroupBefore(a, a)
    ensures a != b ==> (GroupBefore(a, b) <==> !GroupBefore(b, a))
    ensures GroupBefore(a, b) && GroupBefore(b, c) ==> GroupBefore(a, c)
    ensures a != Etc ==> GroupBefore(a, Etc) && !GroupBefore(Etc, a)
  {
    StrOrder.LessIrreflexive(a);
    StrOrder.LessTotal(a, b);
    if StrOrder.Less(a, b) {
      StrOrder.LessAsymmetric(a, b);
    }
    if StrOrder.Less(a, b) && StrOrder.Less(b, c) {
      StrOrder.LessTransitive(a, b, c);
    }
  }

  /** `UserTrendUnit` and `UserTrendHourlyUnit`: a job group's series. */
  datatype TrendUnit = TrendUnit(name: string, data: seq<int>)

  /** `UserTrend` and `UserTrendHourly`. */
  datatype UserTrend = UserTrend(labels: seq<string>, data: seq<TrendUnit>)

  function UnitLabels(units: seq<TrendUnit>): (r: seq<string>)
    ensures |r| == |units|
  {
    seq(|units|, i requires 0 <= i < |units| => units[i].name)
  }

  /** Series in comparator order. */
  predicate GroupSorted(s: seq<string>) {
    forall i, j :: 0 <= i < j < |s| ==> GroupBefore(s[i], s[j])
  }

  /** A series put into its place among series in comparator order. */
  function InsertUnit(u: TrendUnit, s: seq<TrendUnit>): (r: seq<TrendUnit>)
    ensures |r| == |s| + 1
  {
    if |s| == 0 then [u]
    else if GroupBefore(s[0].name, u.name) then [s[0]] + InsertUnit(u, s[1..])
    else [u] + s
  }

  /** Insertion keeps every series and adds the new one. */
  lemma {:induction false} InsertUnitElements(u: TrendUnit, s: seq<TrendUnit>, x: TrendUnit)
    ensures x in InsertUnit(u, s) <==> x == u || x in s
    decreases |s|
  {
    if |s| > 0 && GroupBefore(s[0].name, u.name) {
      InsertUnitElements(u, s[1..], x);
      assert s == [s[0]] + s[1..];
    }
  }

  /** The labels of series inserted: the label inserted among the labels. */
  function InsertName(n: string, t: seq<string>): (r: seq<string>)
    ensures |r| == |t| + 1
  {
    if |t| == 0 then [n]
    else if GroupBefore(t[0], n) then [t[0]] + InsertName(n, t[1..])
    else [n] + t
  }

  lemma {:induction false} InsertUnitLabels(u: TrendUnit, s: seq<TrendUnit>)
    ensures UnitLabels(InsertUnit(u, s)) == InsertName(u.name, UnitLabels(s))
    decreases |s|
  {
    if |s| > 0 {
      assert UnitLabels(s)[0] == s[0].name && UnitLabels(s)[1..] == UnitLabels(s[1..]);
      if GroupBefore(s[0].name, u.name) {
        InsertUnitLabels(u, s[1..]);
        assert UnitLabels(InsertUnit(u, s)) == [s[0].name] + UnitLabels(InsertUnit(u, s[1..]));
      } else {
        assert UnitLabels(InsertUnit(u, s)) == [u.name] + UnitLabels(s);
      }
    } else {
      assert UnitLabels(InsertUnit(u, s)) == [u.name];
    }
  }

  /** Inserting a new label keeps the labels in comparator order. */
  lemma {:induction false} InsertNameSorted(n: string, t: seq<string>)
    requires GroupSorted(t) && n !in t
    ensures GroupSorted(InsertName(n, t)) && Members(InsertName(n, t)) == Members(t) + {n}
    decreases |t|
  {
    if |t| == 0 {
      assert InsertName(n, t) == [n];
    } else {
      assert t == [t[0]] + t[1..];
      GroupSortedHead(t[0], t[1..]);
      if GroupBefore(t[0], n) {
        InsertNameSorted(n, t[1..]);
        SortedBehindHead(t[0], n, t[1..], InsertName(n, t[1..]));
      } else {
        SortedAtHead(n, t);
      }
    }
  }

  lemma InsertUnitSorted(u: TrendUnit, s: seq<TrendUnit>)
    requires GroupSorted(UnitLabels(s)) && u.name !in UnitLabels(s)
    ensures GroupSorted(UnitLabels(InsertUnit(u, s)))
    ensures Members(UnitLabels(InsertUnit(u, s))) == Members(UnitLabels(s)) + {u.name}
  {
    InsertUnitLabels(u, s);
    InsertNameSorted(u.name, UnitLabels(s));
  }

  /** A label before every label of a sorted series heads a sorted series. */
  lemma GroupSortedCons(x: string, t: seq<string>)
    requires GroupSorted(t) && forall y :: y in t ==> GroupBefore(x, y)
    ensures GroupSorted([x] + t)
  {
    var r := [x] + t;
    forall i, j | 0 <= i < j < |r| ensures GroupBefore(r[i], r[j]) {
      if i == 0 {
        assert r[j] == t[j - 1];
      } else {
        assert r[i] == t[i - 1] && r[j] == t[j - 1];
      }
    }
  }

  /** The head of a sorted series goes before the rest, which is sorted. */
  lemma GroupSortedHead(x: string, t: seq<string>)
    requires GroupSorted([x] + t)
    ensures GroupSorted(t) && forall y :: y in t ==> GroupBefore(x, y)
  {
    var r := [x] + t;
    forall i, j | 0 <= i < j < |t| ensures GroupBefore(t[i], t[j]) {
      assert t[i] == r[i + 1] && t[j] == r[j + 1];
    }
    forall y | y in t ensures GroupBefore(x, y) {
      var k :| 0 <= k < |t| && t[k] == y;
      assert r[0] == x && r[k + 1] == y;
    }
  }

  /** A label kept behind the head: the head goes before it and before the
      rest. */
  lemma SortedBehindHead(x: string, n: string, tail: seq<string>, rest: seq<string>)
    requires GroupSorted([x] + tail) && GroupBefore(x, n)
    requires GroupSorted(rest) && Members(rest) == Members(tail) + {n}
    ensures GroupSorted([x] + rest) && Members([x] + rest) == Members([x] + tail) + {n}
  {
    GroupSortedHead(x, tail);
    forall y | y in rest ensures GroupBefore(x, y) {
      assert y in Members(rest);
    }
    GroupSortedCons(x, rest);
    MembersCons(x, rest);
    MembersCons(x, tail);
  }

  /** A new label placed first, before a sorted series whose head it does
      not follow. */
  lemma SortedAtHead(n: string, t: seq<string>)
    requires |t| > 0 && GroupSorted(t) && n !in t && !GroupBefore(t[0], n)
    ensures GroupSorted([n] + t) && Members([n] + t) == Members(t) + {n}
  {
    assert t == [t[0]] + t[1..];
    GroupSortedHead(t[0], t[1..]);
    GroupOrder(t[0], n, "");
    forall y | y in t ensures GroupBefore(n, y) {
      if y != t[0] {
        GroupOrder(n, t[0], y);
      }
    }
    GroupSortedCons(n, t);
    MembersCons(n, t);
  }

  /** `sort.Slice` of the series with the comparator. The labels are
      distinct, so the order is the comparator's. */
  method SortUnits(units: seq<TrendUnit>) returns (r: seq<TrendUnit>)
    requires NoDups(UnitLabels(units))
    ensures Enumerates(UnitLabels(r), Members(UnitLabels(units))) && GroupSorted(UnitLabels(r))
    ensures forall x :: x in r ==> x in units
  {
    r := [];
    for i := 0 to |units|
      invariant Enumerates(UnitLabels(r), Members(UnitLabels(units[..i]))) && GroupSorted(UnitLabels(r))
      invariant forall x :: x in r ==> x in units[..i]
    {
      assert UnitLabels(units[..i + 1]) == UnitLabels(units[..i]) + [units[i].name];
      NewLabel(units, i, UnitLabels(r));
      InsertUnitSorted(units[i], r);
      GroupSortedNoDups(UnitLabels(InsertUnit(units[i], r)));
      forall x | x in InsertUnit(units[i], r) ensures x in units[..i + 1] {
        InsertUnitElements(units[i], r, x);
        assert units[..i + 1] == units[..i] + [units[i]];
      }
      r := InsertUnit(units[i], r);
    }
    assert units[..|units|] == units;
  }

  /** With distinct labels, a series' label is not among those before it. */
  lemma NewLabel(units: seq<TrendUnit>, i: int, seen: seq<string>)
    requires 0 <= i < |units| && NoDups(UnitLabels(units)) && Members(seen) == Members(UnitLabels(units[..i]))
    ensures units[i].name !in seen
  {
    var before := UnitLabels(units[..i]);
    forall k | 0 <= k < |before| ensures before[k] != units[i].name {
      assert before[k] == UnitLabels(units)[k] && units[i].name == UnitLabels(units)[i];
    }
    assert units[i].name !in Members(before);
  }

  /** Labels in comparator order are distinct. */
  lemma GroupSortedNoDups(s: seq<string>)
    requires GroupSorted(s)
    ensures NoDups(s)
  {
    forall a, b | 0 <= a < b < |s| ensures s[a] != s[b] {
      GroupOrder(s[a], s[b], "");
    }
  }

  /** The sessions of the QAs in bucket `k` with job group label `g`. */
  function Sessions<K(==)>(qas: seq<QA>, keyOf: QA -> K, k: K, g: string): set<string>
    decreases |qas|
  {
    if |qas| == 0 then {}
    else
      var qa := qas[|qas| - 1];
      Sessions(qas[..|qas| - 1], keyOf, k, g) + (if keyOf(qa) == k && JobLabel(qa) == g then {qa.sessionId} else {})
  }

  /** A session is counted in a bucket and job group exactly when one of
      its QAs falls there. */
  lemma {:induction false} SessionsMeaning<K>(qas: seq<QA>, keyOf: QA -> K, k: K, g: string, s: string)
    ensures s in Sessions(qas, keyOf, k, g) <==>
      exists i :: 0 <= i < |qas| && keyOf(qas[i]) == k && JobLabel(qas[i]) == g && qas[i].sessionId == s
    decreases |qas|
  {
    if |qas| > 0 {
      var front := qas[..|qas| - 1];
      SessionsMeaning(front, keyOf, k, g, s);
      if s in Sessions(front, keyOf, k, g) {
        var i :| 0 <= i < |front| && keyOf(front[i]) == k && JobLabel(front[i]) == g && front[i].sessionId == s;
        assert qas[i] == front[i];
      }
      if exists i :: 0 <= i < |qas| && keyOf(qas[i]) == k && JobLabel(qas[i]) == g && qas[i].sessionId == s {
        var i :| 0 <= i < |qas| && keyOf(qas[i]) == k && JobLabel(qas[i]) == g && qas[i].sessionId == s;
        if i < |front| {
          assert front[i] == qas[i];
        }
      }
    }
  }

  /** `newJobGroup`: every job group with no session yet. */
  function Fresh(groups: set<string>): (m: map<string, set<string>>)
    ensures m.Keys == groups && forall g :: g in m ==> m[g] == {}
  {
    map g | g in groups :: {}
  }

  /** The state of the session loop after the QAs `qas`: the walk's
      buckets and theirs, each with every job group and its sessions. */
  ghost predicate Grouped<K>(m: map<K, map<string, set<string>>>, walked: set<K>, qas: seq<QA>, keyOf: QA -> K,
                                 groups: set<string>)
  {
    m.Keys == walked + KeysOf(qas, keyOf) &&
    (forall k :: k in m ==> m[k].Keys == groups) &&
    (forall k, g :: k in m && g in groups ==> m[k][g] == Sessions(qas, keyOf, k, g))
  }

  /** One QA more: its bucket made if missing, its session added under its
      label. */
  lemma GroupedStep<K>(m: map<K, map<string, set<string>>>, walked: set<K>, qas: seq<QA>, i: int, keyOf: QA -> K,
                           groups: set<string>)
    requires 0 <= i < |qas| && Grouped(m, walked, qas[..i], keyOf, groups) && JobLabel(qas[i]) in groups
    ensures var qa := qas[i];
      var m0 := if keyOf(qa) in m then m else m[keyOf(qa) := Fresh(groups)];
      Grouped(m0[keyOf(qa) := m0[keyOf(qa)][JobLabel(qa) := m0[keyOf(qa)][JobLabel(qa)] + {qa.sessionId}]],
              walked, qas[..i + 1], keyOf, groups)
  {
    GroupedShape(m, walked, qas, i, keyOf, groups);
    GroupedEntries(m, walked, qas, i, keyOf, groups);
  }

  /** Every entry of the session map after one QA more. */
  lemma GroupedEntries<K>(m: map<K, map<string, set<string>>>, walked: set<K>, qas: seq<QA>, i: int, keyOf: QA -> K,
                          groups: set<string>)
    requires 0 <= i < |qas| && Grouped(m, walked, qas[..i], keyOf, groups) && JobLabel(qas[i]) in groups
    ensures var qa := qas[i];
      var m0 := if keyOf(qa) in m then m else m[keyOf(qa) := Fresh(groups)];
      var m1 := m0[keyOf(qa) := m0[keyOf(qa)][JobLabel(qa) := m0[keyOf(qa)][JobLabel(qa)] + {qa.sessionId}]];
      forall k, g :: k in m1 && g in groups ==> m1[k][g] == Sessions(qas[..i + 1], keyOf, k, g)
  {
    var qa := qas[i];
    var b, l := keyOf(qa), JobLabel(qa);
    var m0 := if b in m then m else m[b := Fresh(groups)];
    var m1 := m0[b := m0[b][l := m0[b][l] + {qa.sessionId}]];
    forall k, g | k in m1 && g in groups
      ensures m1[k][g] == Sessions(qas[..i + 1], keyOf, k, g)
    {
      GroupedEntry(m, walked, qas, i, keyOf, groups, k, g);
    }
  }

  /** The buckets and job groups of the session map after one QA more. */
  lemma GroupedShape<K>(m: map<K, map<string, set<string>>>, walked: set<K>, qas: seq<QA>, i: int, keyOf: QA -> K,
                        groups: set<string>)
    requires 0 <= i < |qas| && Grouped(m, walked, qas[..i], keyOf, groups) && JobLabel(qas[i]) in groups
    ensures var qa := qas[i];
      var m0 := if keyOf(qa) in m then m else m[keyOf(qa) := Fresh(groups)];
      var m1 := m0[keyOf(qa) := m0[keyOf(qa)][JobLabel(qa) := m0[keyOf(qa)][JobLabel(qa)] + {qa.sessionId}]];
      m1.Keys == walked + KeysOf(qas[..i + 1], keyOf) && forall k :: k in m1 ==> m1[k].Keys == groups
  {
    KeysOfSnoc(qas, i, keyOf);
  }

  /** One entry of the session map after one QA more. */
  lemma GroupedEntry<K>(m: map<K, map<string, set<string>>>, walked: set<K>, qas: seq<QA>, i: int, keyOf: QA -> K,
                        groups: set<string>, k: K, g: string)
    requires 0 <= i < |qas| && Grouped(m, walked, qas[..i], keyOf, groups) && JobLabel(qas[i]) in groups
    requires g in groups && (k in m || k == keyOf(qas[i]))
    ensures var qa := qas[i];
      var m0 := if keyOf(qa) in m then m else m[keyOf(qa) := Fresh(groups)];
      m0[keyOf(qa) := m0[keyOf(qa)][JobLabel(qa) := m0[keyOf(qa)][JobLabel(qa)] + {qa.sessionId}]][k][g] ==
        Sessions(qas[..i + 1], keyOf, k, g)
  {
    var b := keyOf(qas[i]);
    SessionsSnoc(qas, i, keyOf, k, g);
    if k == b && b !in m {
      SessionsAbsent(qas[..i], keyOf, b, g);
    }
  }

  lemma SessionsSnoc<K>(qas: seq<QA>, i: int, keyOf: QA -> K, k: K, g: string)
    requires 0 <= i < |qas|
    ensures Sessions(qas[..i + 1], keyOf, k, g) ==
      Sessions(qas[..i], keyOf, k, g) + (if keyOf(qas[i]) == k && JobLabel(qas[i]) == g then {qas[i].sessionId} else {})
  {
    assert qas[..i + 1][..i] == qas[..i];
  }

  /** A bucket no QA falls in has no sessions. */
  lemma {:induction false} SessionsAbsent<K>(qas: seq<QA>, keyOf: QA -> K, k: K, g: string)
    requires k !in KeysOf(qas, keyOf)
    ensures Sessions(qas, keyOf, k, g) == {}
    decreases |qas|
  {
    if |qas| > 0 {
      SessionsAbsent(qas[..|qas| - 1], keyOf, k, g);
    }
  }

  /** The session loop of the user trends: each QA's session put in its
      bucket under its job group label, a bucket the walk did not make
      getting a fresh entry. */
  method GroupSessions<K(==)>(qas: seq<QA>, keyOf: QA -> K, init: map<K, map<string, set<string>>>, groups: set<string>)
    returns (m: map<K, map<string, set<string>>>)
    requires forall k :: k in init ==> init[k] == Fresh(groups)
    requires JobGroups(qas) <= groups
    ensures m.Keys == init.Keys + KeysOf(qas, keyOf)
    ensures forall k :: k in m ==> m[k].Keys == groups
    ensures forall k, g :: k in m && g in groups ==> m[k][g] == Sessions(qas, keyOf, k, g)
  {
    m := init;
    for i := 0 to |qas|
      invariant Grouped(m, init.Keys, qas[..i], keyOf, groups)
    {
      var qa := qas[i];
      JobLabelIn(qas, i);
      ghost var before := m;
      var bucket := keyOf(qa);
      if bucket !in m {
        m := m[bucket := Fresh(groups)];
      }
      var g := JobLabel(qa);
      var inner := m[bucket];
      m := m[bucket := inner[g := inner[g] + {qa.sessionId}]];
      GroupedStep(before, init.Keys, qas, i, keyOf, groups);
    }
    assert qas[..|qas|] == qas;
  }

  /** The number of sessions in each bucket, for one job group. */
  function SessionCounts<K(==)>(qas: seq<QA>, keyOf: QA -> K, keys: seq<K>, g: string): (r: seq<int>)
    ensures |r| == |keys|
  {
    seq(|keys|, j requires 0 <= j < |keys| => |Sessions(qas, keyOf, keys[j], g)|)
  }

  /** One job group's series: its session count in each bucket. */
  method SeriesOf<K(==)>(qas: seq<QA>, keyOf: QA -> K, g: string, m: map<K, map<string, set<string>>>,
                         keys: seq<K>)
    returns (data: seq<int>)
    requires forall j :: 0 <= j < |keys| ==>
               keys[j] in m && g in m[keys[j]] && m[keys[j]][g] == Sessions(qas, keyOf, keys[j], g)
    ensures data == SessionCounts(qas, keyOf, keys, g)
  {
    data := [];
    for j := 0 to |keys|
      invariant data == SessionCounts(qas, keyOf, keys[..j], g)
    {
      data := data + [|m[keys[j]][g]|];
    }
    assert keys[..|keys|] == keys;
  }

  /** The series loop: per job group, its session count in each bucket. */
  method BuildUnits<K(==)>(qas: seq<QA>, keyOf: QA -> K, groups: seq<string>, m: map<K, map<string, set<string>>>,
                           keys: seq<K>)
    returns (units: seq<TrendUnit>)
    requires forall j :: 0 <= j < |keys| ==> keys[j] in m
    requires forall k, g :: k in m && g in Members(groups) ==> g in m[k] && m[k][g] == Sessions(qas, keyOf, k, g)
    ensures UnitLabels(units) == groups
    ensures forall i :: 0 <= i < |units| ==> units[i].data == SessionCounts(qas, keyOf, keys, units[i].name)
  {
    units := [];
    for i := 0 to |groups|
      invariant UnitLabels(units) == groups[..i]
      invariant forall u :: 0 <= u < |units| ==> units[u].data == SessionCounts(qas, keyOf, keys, units[u].name)
    {
      var g := groups[i];
      assert g in Members(groups);
      var data := SeriesOf(qas, keyOf, g, m, keys);
      units := units + [TrendUnit(g, data)];
      assert UnitLabels(units) == groups[..i + 1];
    }
    assert groups[..|groups|] == groups;
  }

  /** `extractUserTrends`: the labels of the walk, and per job group, in
      comparator order, the number of distinct sessions in each bucket,
      over all buckets in ascending order. */
  method ExtractUserTrends(qas: seq<QA>, unit: PeriodUnit, from: int, to: int) returns (r: UserTrend)
    ensures r.labels == Labels(unit, from, to)
    ensures Enumerates(UnitLabels(r.data), JobGroups(qas)) && GroupSorted(UnitLabels(r.data))
    ensures forall i :: 0 <= i < |r.data| ==>
      r.data[i].data == SessionCounts(qas, BucketOf(unit), StrOrder.SortedSet(ReportKeys(qas, unit, from, to)),
                                      r.data[i].name)
  {
    var groups := JobGroupList(qas);
    var labels, init := WalkLabels(unit, from, to, Fresh(Members(groups)));
    var m := GroupSessions(qas, BucketOf(unit), init, Members(groups));
    var keys := StrOrder.SortKeys(m.Keys);
    assert forall j :: 0 <= j < |keys| ==> keys[j] in m by {
      forall j | 0 <= j < |keys| ensures keys[j] in m {
        assert keys[j] in Members(keys);
      }
    }
    var units := BuildUnits(qas, BucketOf(unit), groups, m, keys);
    var sorted := SortUnits(units);
    forall i | 0 <= i < |sorted|
      ensures sorted[i].data == SessionCounts(qas, BucketOf(unit), keys, sorted[i].name)
    {
      assert sorted[i] in units;
      var k :| 0 <= k < |units| && units[k] == sorted[i];
    }
    r := UserTrend(labels, sorted);
  }

  /** The hour labels "0" to "23". */
  function HourLabels(): (r: seq<string>)
    ensures |r| == 24
  {
    seq(24, h requires 0 <= h < 24 => IntToString(h))
  }

  /** The hours 0 to 23. */
  function Hours(): (r: seq<int>)
    ensures |r| == 24 && forall h :: 0 <= h < 24 ==> r[h] == h
  {
    seq(24, h requires 0 <= h < 24 => h)
  }

  /** The hour a QA was created in. */
  function HourKey(): QA -> int {
    (qa: QA) => HourOf(qa.createdAt)
  }

  /** The hour loop: the labels "0" to "23", and each hour with every job
      group and no session. Every QA's hour is among them, so the session
      loop never makes a bucket here. */
  method HourTable(groups: set<string>) returns (labels: seq<string>, init: map<int, map<string, set<string>>>)
    ensures labels == HourLabels()
    ensures forall h :: h in init <==> 0 <= h < 24
    ensures forall h :: h in init ==> init[h] == Fresh(groups)
  {
    labels := [];
    init := map[];
    for hour := 0 to 24
      invariant labels == HourLabels()[..hour]
      invariant forall h :: h in init <==> 0 <= h < hour
      invariant forall h :: h in init ==> init[h] == Fresh(groups)
    {
      labels := labels + [IntToString(hour)];
      init := init[hour := Fresh(groups)];
    }
  }

  /** `extractUserTrendsHourly`: the labels "0" to "23", and per job group,
      in comparator order, 24 counts: the distinct sessions in each hour. */
  method ExtractUserTrendsHourly(qas: seq<QA>) returns (r: UserTrend)
    ensures r.labels == HourLabels()
    ensures Enumerates(UnitLabels(r.data), JobGroups(qas)) && GroupSorted(UnitLabels(r.data))
    ensures forall i :: 0 <= i < |r.data| ==>
      |r.data[i].data| == 24 && r.data[i].data == SessionCounts(qas, HourKey(), Hours(), r.data[i].name)
  {
    var groups := JobGroupList(qas);
    var labels, init := HourTable(Members(groups));
    assert forall k :: k in init ==> init[k] == Fresh(Members(groups));
    assert JobGroups(qas) <= Members(groups);
    var m := GroupSessions(qas, HourKey(), init, Members(groups));
    var units := BuildUnits(qas, HourKey(), groups, m, Hours());
    var sorted := SortUnits(units);
    forall i | 0 <= i < |sorted|
      ensures sorted[i].data == SessionCounts(qas, HourKey(), Hours(), sorted[i].name)
    {
      assert sorted[i] in units;
      var k :| 0 <= k < |units| && units[k] == sorted[i];
    }
    r := UserTrend(labels, sorted);
  }

  /** The number of QAs with a vote. */
  function Votes(qas: seq<QA>, vote: string): nat
    decreases |qas|
  {
    if |qas| == 0 then 0 else Votes(qas[..|qas| - 1], vote) + (if qas[|qas| - 1].vote == vote then 1 else 0)
  }

  /** `SatisfactionSurvey`, with the percentages as exact reals. */
  datatype Survey = Survey(good: real, bad: real)

  /** The survey of `good` up votes and `bad` down votes. */
  function SurveyOf(good: nat, bad: nat): Survey {
    if good + bad > 0 then
      Survey(good as real / (good + bad) as real * 100.0, bad as real / (good + bad) as real * 100.0)
    else Survey(-1.0, -1.0)
  }

  /** With votes, the two shares lie in [0, 100] and add up to 100, and a
      share is 100 exactly when every vote is of its kind; without votes
      both are -1. */
  lemma SurveyShares(good: nat, bad: nat)
    ensures var s := SurveyOf(good, bad);
      (good + bad == 0 <==> s.good == -1.0 && s.bad == -1.0) &&
      (good + bad > 0 ==> 0.0 <= s.good <= 100.0 && 0.0 <= s.bad <= 100.0 && s.good + s.bad == 100.0) &&
      (good + bad > 0 ==> (s.good == 100.0 <==> bad == 0) && (s.bad == 100.0 <==> good == 0))
  {
    if good + bad > 0 {
      var t := (good + bad) as real;
      assert good as real / t * 100.0 + bad as real / t * 100.0 == (good as real + bad as real) / t * 100.0;
      assert good as real / t <= 1.0 && bad as real / t <= 1.0;
      assert good as real / t * 100.0 == 100.0 <==> good as real == t;
      assert bad as real / t * 100.0 == 100.0 <==> bad as real == t;
    }
  }

  /** `extractSatisfactionSurvey`: "up" and "down" votes counted, any other
      vote ignored. */
  method ExtractSatisfactionSurvey(qas: seq<QA>) returns (s: Survey)
    ensures s == SurveyOf(Votes(qas, "up"), Votes(qas, "down"))
  {
    var good, bad := 0, 0;
    for i := 0 to |qas|
      invariant good == Votes(qas[..i], "up") && bad == Votes(qas[..i], "down")
    {
      assert qas[..i + 1][..i] == qas[..i];
      if qas[i].vote == "up" {
        good := good + 1;
      } else if qas[i].vote == "down" {
        bad := bad + 1;
      }
    }
    assert qas[..|qas|] == qas;
    s := SurveyOf(good, bad);
  }

  /** The weight of the QAs in bucket `k`. */
  function Tally(qas: seq<QA>, keyOf: QA -> string, k: string, weight: QA -> int): int
    decreases |qas|
  {
    if |qas| == 0 then 0
    else Tally(qas[..|qas| - 1], keyOf, k, weight) + (if keyOf(qas[|qas| - 1]) == k then weight(qas[|qas| - 1]) else 0)
  }

  /** The weight of all the QAs. */
  function Total(qas: seq<QA>, weight: QA -> int): int
    decreases |qas|
  {
    if |qas| == 0 then 0 else Total(qas[..|qas| - 1], weight) + weight(qas[|qas| - 1])
  }

  /** The weight in each bucket, in the buckets' order. */
  function Tallies(qas: seq<QA>, keyOf: QA -> string, keys: seq<string>, weight: QA -> int): (r: seq<int>)
    ensures |r| == |keys|
  {
    seq(|keys|, j requires 0 <= j < |keys| => Tally(qas, keyOf, keys[j], weight))
  }

  function Sum(xs: seq<int>): int
    decreases |xs|
  {
    if |xs| == 0 then 0 else xs[0] + Sum(xs[1..])
  }

  /** `AskHistory` and `LLMTokenHistory`. */
  datatype History = History(labels: seq<string>, data: seq<int>)

  /** The loop shared by `extractAskHistoryDaily` and
      `extractLLMTokenHistoryDaily`: the labels of the walk, and the weight
      of the QAs in each bucket, over all buckets in ascending order. */
  method TallyHistory(qas: seq<QA>, unit: PeriodUnit, from: int, to: int, weight: QA -> int) returns (h: History)
    ensures h.labels == Labels(unit, from, to)
    ensures h.data == Tallies(qas, BucketOf(unit), StrOrder.SortedSet(ReportKeys(qas, unit, from, to)), weight)
  {
    var labels, init := WalkLabels(unit, from, to, 0);
    var counts := CountBuckets(qas, BucketOf(unit), weight, init);
    var keys := StrOrder.SortKeys(counts.Keys);
    assert forall j :: 0 <= j < |keys| ==> keys[j] in counts by {
      forall j | 0 <= j < |keys| ensures keys[j] in counts {
        assert keys[j] in Members(keys);
      }
    }
    var data := ReadTallies(qas, BucketOf(unit), weight, counts, keys);
    h := History(labels, data);
  }

  /** The series of a history: each bucket's weight, in the keys' order. */
  method ReadTallies(qas: seq<QA>, keyOf: QA -> string, weight: QA -> int, counts: map<string, int>,
                     keys: seq<string>)
    returns (data: seq<int>)
    requires forall k :: k in counts ==> counts[k] == Tally(qas, keyOf, k, weight)
    requires forall j :: 0 <= j < |keys| ==> keys[j] in counts
    ensures data == Tallies(qas, keyOf, keys, weight)
  {
    data := [];
    for j := 0 to |keys|
      invariant data == Tallies(qas, keyOf, keys[..j], weight)
    {
      TalliesSnoc(qas, keyOf, keys, j, weight);
      data := data + [counts[keys[j]]];
    }
    assert keys[..|keys|] == keys;
  }

  /** The counting loop: each QA's weight added to its bucket, a bucket
      the walk did not make starting at zero. */
  method CountBuckets(qas: seq<QA>, keyOf: QA -> string, weight: QA -> int, init: map<string, int>)
    returns (counts: map<string, int>)
    requires forall k :: k in init ==> init[k] == 0
    ensures Tallied(counts, init.Keys, qas, keyOf, weight)
  {
    counts := init;
    for i := 0 to |qas|
      invariant Tallied(counts, init.Keys, qas[..i], keyOf, weight)
    {
      var bucket := keyOf(qas[i]);
      var before := if bucket in counts then counts[bucket] else 0;
      TalliedStep(counts, init.Keys, qas, i, keyOf, weight);
      counts := counts[bucket := before + weight(qas[i])];
    }
    assert qas[..|qas|] == qas;
  }

  /** The state of the counting loop after the QAs `qas`. */
  ghost predicate Tallied(counts: map<string, int>, walked: set<string>, qas: seq<QA>, keyOf: QA -> string,
                          weight: QA -> int)
  {
    counts.Keys == walked + KeysOf(qas, keyOf) &&
    forall k :: k in counts ==> counts[k] == Tally(qas, keyOf, k, weight)
  }

  /** One QA more: its weight added to its bucket, which starts at zero. */
  lemma TalliedStep(counts: map<string, int>, walked: set<string>, qas: seq<QA>, i: int, keyOf: QA -> string,
                    weight: QA -> int)
    requires 0 <= i < |qas| && Tallied(counts, walked, qas[..i], keyOf, weight)
    ensures var k := keyOf(qas[i]);
      Tallied(counts[k := (if k in counts then counts[k] else 0) + weight(qas[i])], walked, qas[..i + 1], keyOf, weight)
  {
    assert qas[..i + 1][..i] == qas[..i] && qas[..i + 1][i] == qas[i];
    if keyOf(qas[i]) !in counts {
      TallyAbsent(qas[..i], keyOf, keyOf(qas[i]), weight);
    }
  }

  /** The columns grow one bucket at a time. */
  lemma TalliesSnoc(qas: seq<QA>, keyOf: QA -> string, keys: seq<string>, j: int, weight: QA -> int)
    requires 0 <= j < |keys|
    ensures Tallies(qas, keyOf, keys[..j + 1], weight) ==
      Tallies(qas, keyOf, keys[..j], weight) + [Tally(qas, keyOf, keys[j], weight)]
  {
  }

  /** A bucket no QA falls in has weight zero. */
  lemma {:induction false} TallyAbsent(qas: seq<QA>, keyOf: QA -> string, k: string, weight: QA -> int)
    requires k !in KeysOf(qas, keyOf)
    ensures Tally(qas, keyOf, k, weight) == 0
    decreases |qas|
  {
    if |qas| > 0 {
      TallyAbsent(qas[..|qas| - 1], keyOf, k, weight);
    }
  }

  /** One more QA adds its weight to exactly one of several distinct
      buckets, when its bucket is among them. */
  lemma {:induction false} TalliesStep(qas: seq<QA>, keyOf: QA -> string, keys: seq<string>, weight: QA -> int, qa: QA)
    requires NoDups(keys)
    ensures Sum(Tallies(qas + [qa], keyOf, keys, weight)) ==
      Sum(Tallies(qas, keyOf, keys, weight)) + (if keyOf(qa) in keys then weight(qa) else 0)
    decreases |keys|
  {
    var all := qas + [qa];
    assert all[..|all| - 1] == qas;
    if |keys| > 0 {
      assert NoDups(keys[1..]) by {
        forall a, b | 0 <= a < b < |keys[1..]| ensures keys[1..][a] != keys[1..][b] {
          assert keys[a + 1] != keys[b + 1];
        }
      }
      TalliesStep(qas, keyOf, keys[1..], weight, qa);
      assert Tallies(all, keyOf, keys, weight)[1..] == Tallies(all, keyOf, keys[1..], weight);
      assert Tallies(qas, keyOf, keys, weight)[1..] == Tallies(qas, keyOf, keys[1..], weight);
      if keyOf(qa) == keys[0] {
        assert keyOf(qa) !in keys[1..] by {
          forall b | 0 < b < |keys| ensures keys[b] != keys[0] {}
        }
      } else {
        assert keyOf(qa) in keys <==> keyOf(qa) in keys[1..];
      }
    }
  }

  /** Over distinct buckets holding every QA's bucket, the weights add up
      to the weight of all the QAs. */
  lemma {:induction false} TalliesSum(qas: seq<QA>, keyOf: QA -> string, keys: seq<string>, weight: QA -> int)
    requires NoDups(keys) && KeysOf(qas, keyOf) <= Members(keys)
    ensures Sum(Tallies(qas, keyOf, keys, weight)) == Total(qas, weight)
    decreases |qas|
  {
    if |qas| == 0 {
      SumZero(keys, qas, keyOf, weight);
    } else {
      var front := qas[..|qas| - 1];
      var qa := qas[|qas| - 1];
      assert front + [qa] == qas;
      TalliesSum(front, keyOf, keys, weight);
      TalliesStep(front, keyOf, keys, weight, qa);
      assert keyOf(qa) in Members(keys);
    }
  }

  lemma {:induction false} SumZero(keys: seq<string>, qas: seq<QA>, keyOf: QA -> string, weight: QA -> int)
    requires |qas| == 0
    ensures Sum(Tallies(qas, keyOf, keys, weight)) == 0
    decreases |keys|
  {
    if |keys| > 0 {
      assert Tallies(qas, keyOf, keys, weight)[1..] == Tallies(qas, keyOf, keys[1..], weight);
      SumZero(keys[1..], qas, keyOf, weight);
    }
  }

  /** Every QA is counted once: the ask history adds up to the number of
      QAs. */
  lemma AskHistoryTotal(qas: seq<QA>, unit: PeriodUnit, from: int, to: int)
    ensures Sum(Tallies(qas, BucketOf(unit), StrOrder.SortedSet(ReportKeys(qas, unit, from, to)), One())) == |qas|
  {
    var keys := StrOrder.SortedSet(ReportKeys(qas, unit, from, to));
    StrOrder.SortedNoDups(keys);
    TalliesSum(qas, BucketOf(unit), keys, One());
    TotalOne(qas);
  }

  /** Every token is counted once: the token history adds up to the
      QAs' token count. */
  lemma TokenHistoryTotal(qas: seq<QA>, unit: PeriodUnit, from: int, to: int)
    ensures Sum(Tallies(qas, BucketOf(unit), StrOrder.SortedSet(ReportKeys(qas, unit, from, to)), Tokens())) ==
      Total(qas, Tokens())
  {
    var keys := StrOrder.SortedSet(ReportKeys(qas, unit, from, to));
    StrOrder.SortedNoDups(keys);
    TalliesSum(qas, BucketOf(unit), keys, Tokens());
  }

  /** Each QA weighs one question. */
  function One(): QA -> int {
    (qa: QA) => 1
  }

  /** Each QA weighs its tokens. */
  function Tokens(): QA -> int {
    (qa: QA) => qa.tokenCount
  }

  lemma {:induction false} TotalOne(qas: seq<QA>)
    ensures Total(qas, One()) == |qas|
    decreases |qas|
  {
    if |qas| > 0 {
      TotalOne(qas[..|qas| - 1]);
    }
  }

  /** Within the window (as the store lists it), every QA's bucket is a
      label, so the report's columns are exactly the labels' buckets. */
  lemma ReportKeysAreLabels(qas: seq<QA>, unit: PeriodUnit, from: int, to: int)
    requires from % DayNs == 0
    requires forall i :: 0 <= i < |qas| ==> from <= qas[i].createdAt <= to
    ensures ReportKeys(qas, unit, from, to) == Members(Labels(unit, from, to))
  {
    KeysWithin(qas, unit, from, to);
  }

  lemma {:induction false} KeysWithin(qas: seq<QA>, unit: PeriodUnit, from: int, to: int)
    requires from % DayNs == 0
    requires forall i :: 0 <= i < |qas| ==> from <= qas[i].createdAt <= to
    ensures KeysOf(qas, BucketOf(unit)) <= Members(Labels(unit, from, to))
    decreases |qas|
  {
    if |qas| > 0 {
      KeysWithin(qas[..|qas| - 1], unit, from, to);
      LabelsCoverWindow(unit, from, to, qas[|qas| - 1].createdAt);
    }
  }
}
