/** The keyword trends of the statistics service: every keyword occurrence
    counted over the window and per bucket, and each count table ranked by
    count, numbered from 1 and cut to the top ten. */
module KeywordTrends {
  import opened Common
  import opened BackendModel
  import opened StatPeriod
  import StrOrder

  /** `topN`: the most keywords a ranking lists. */
  const TopN := 10

  /** `KeywordRankingBlock`. */
  datatype Block = Block(no: int, name: string, count: int)

  /** `KeywordSummaryRanking`: the window's bucket labels and its ranking. */
  datatype SummaryRanking = SummaryRanking(from: string, to: string, ranking: seq<Block>)

  /** `KeywordTimeBasedRanking`: a bucket's ranking. */
  datatype TimeBasedRanking = TimeBasedRanking(dateTime: string, ranking: seq<Block>)

  /** `KeywordTrends`. */
  datatype Trends = Trends(summary: SummaryRanking, timeBased: seq<TimeBasedRanking>)

  /** Every keyword occurrence of the QAs. */
  function Bag(qas: seq<QA>): multiset<string>
    decreases |qas|
  {
    if |qas| == 0 then multiset{} else Bag(qas[..|qas| - 1]) + multiset(qas[|qas| - 1].keywords)
  }

  /** The keyword occurrences of the QAs in bucket `k`. */
  function BagIn(qas: seq<QA>, keyOf: QA -> string, k: string): multiset<string>
    decreases |qas|
  {
    if |qas| == 0 then multiset{}
    else
      var qa := qas[|qas| - 1];
      BagIn(qas[..|qas| - 1], keyOf, k) + (if keyOf(qa) == k then multiset(qa.keywords) else multiset{})
  }

  /** `KeywordRanking`: each keyword occurring with its number of
      occurrences. */
  function CountsOf(b: multiset<string>): map<string, int> {
    map kw | kw in b :: b[kw]
  }

  /** The table lists exactly the keywords occurring, each at least once. */
  lemma CountsMeaning(b: multiset<string>, kw: string)
    ensures kw in CountsOf(b) <==> kw in b
    ensures kw in CountsOf(b) ==> CountsOf(b)[kw] == b[kw] >= 1
  {
  }

  /** A keyword is counted exactly when some QA carries it, as often as
      the QAs carry it. */
  lemma {:induction false} BagMeaning(qas: seq<QA>, kw: string)
    ensures kw in Bag(qas) <==> exists i :: 0 <= i < |qas| && kw in qas[i].keywords
    decreases |qas|
  {
    if |qas| > 0 {
      var front := qas[..|qas| - 1];
      BagMeaning(front, kw);
      if exists i :: 0 <= i < |front| && kw in front[i].keywords {
        var i :| 0 <= i < |front| && kw in front[i].keywords;
        assert qas[i] == front[i];
      }
      if exists i :: 0 <= i < |qas| && kw in qas[i].keywords {
        var i :| 0 <= i < |qas| && kw in qas[i].keywords;
        if i < |front| {
          assert front[i] == qas[i];
        }
      }
    }
  }

  /** A table holds the counts of a bag: its keywords, each with its
      number of occurrences. */
  ghost predicate Counts(m: map<string, int>, b: multiset<string>) {
    (forall kw :: kw in m <==> kw in b) && forall kw :: kw in m ==> m[kw] == b[kw]
  }

  lemma CountsTable(m: map<string, int>, b: multiset<string>)
    requires Counts(m, b)
    ensures m == CountsOf(b)
  {
  }

  /** The two-step update of a keyword's count, on a table of counts. */
  lemma Bump(m: map<string, int>, b: multiset<string>, kw: string)
    requires Counts(m, b)
    ensures var m0 := if kw !in m then m[kw := 0] else m;
      Counts(m0[kw := m0[kw] + 1], b + multiset{kw})
  {
  }

  lemma BagSnoc(qas: seq<QA>, i: int, keyOf: QA -> string, k: string)
    requires 0 <= i < |qas|
    ensures Bag(qas[..i + 1]) == Bag(qas[..i]) + multiset(qas[i].keywords)
    ensures BagIn(qas[..i + 1], keyOf, k) ==
      BagIn(qas[..i], keyOf, k) + (if keyOf(qas[i]) == k then multiset(qas[i].keywords) else multiset{})
  {
    assert qas[..i + 1][..i] == qas[..i];
  }

  /** A bucket no QA falls in has no occurrence. */
  lemma {:induction false} BagInAbsent(qas: seq<QA>, keyOf: QA -> string, k: string)
    requires k !in KeysOf(qas, keyOf)
    ensures BagIn(qas, keyOf, k) == multiset{}
    decreases |qas|
  {
    if |qas| > 0 {
      BagInAbsent(qas[..|qas| - 1], keyOf, k);
    }
  }

  /** The state of the counting loop after the QAs `qas`: the walk's
      buckets and theirs, each with its count table. */
  ghost predicate CountedDaily(daily: map<string, map<string, int>>, walked: set<string>, qas: seq<QA>,
                               keyOf: QA -> string)
  {
    daily.Keys == walked + KeysOf(qas, keyOf) &&
    forall k :: k in daily ==> daily[k] == CountsOf(BagIn(qas, keyOf, k))
  }

  /** One QA more: its bucket's table replaced by the table with its
      keywords. */
  lemma DailyStep(daily: map<string, map<string, int>>, walked: set<string>, qas: seq<QA>, i: int,
                  keyOf: QA -> string, ranking: map<string, int>)
    requires 0 <= i < |qas| && CountedDaily(daily, walked, qas[..i], keyOf)
    requires ranking == CountsOf(BagIn(qas[..i + 1], keyOf, keyOf(qas[i])))
    ensures CountedDaily(daily[keyOf(qas[i]) := ranking], walked, qas[..i + 1], keyOf)
  {
    var b := keyOf(qas[i]);
    var d := daily[b := ranking];
    KeysOfSnoc(qas, i, keyOf);
    assert d.Keys == walked + KeysOf(qas[..i + 1], keyOf);
    forall k | k in d ensures d[k] == CountsOf(BagIn(qas[..i + 1], keyOf, k)) {
      if k != b {
        BagSnoc(qas, i, keyOf, k);
        var before := BagIn(qas[..i], keyOf, k);
        assert BagIn(qas[..i + 1], keyOf, k) == before + multiset{};
        assert before + multiset{} == before;
        assert d[k] == daily[k];
      }
    }
  }

  /** The table a QA's keywords are counted into: its bucket's, or an
      empty one for a bucket not seen yet. */
  lemma StartTable(daily: map<string, map<string, int>>, walked: set<string>, qas: seq<QA>, i: int,
                   keyOf: QA -> string)
    requires 0 <= i < |qas| && CountedDaily(daily, walked, qas[..i], keyOf)
    ensures var k := keyOf(qas[i]);
      (if k in daily then daily[k] else map[]) == CountsOf(BagIn(qas[..i], keyOf, k))
  {
    var k := keyOf(qas[i]);
    if k !in daily {
      BagInAbsent(qas[..i], keyOf, k);
      assert CountsOf(multiset{}) == map[];
    }
  }

  /** One QA counted: the summary and its bucket's table hold its
      keywords too. */
  lemma CountStep(summary: map<string, int>, daily: map<string, map<string, int>>, walked: set<string>,
                  qas: seq<QA>, i: int, keyOf: QA -> string, ranking: map<string, int>)
    requires 0 <= i < |qas| && CountedDaily(daily, walked, qas[..i], keyOf)
    requires summary == CountsOf(Bag(qas[..i]) + multiset(qas[i].keywords))
    requires ranking == CountsOf(BagIn(qas[..i], keyOf, keyOf(qas[i])) + multiset(qas[i].keywords))
    ensures summary == CountsOf(Bag(qas[..i + 1]))
    ensures CountedDaily(daily[keyOf(qas[i]) := ranking], walked, qas[..i + 1], keyOf)
  {
    var k := keyOf(qas[i]);
    BagSnoc(qas, i, keyOf, k);
    assert Bag(qas[..i + 1]) == Bag(qas[..i]) + multiset(qas[i].keywords);
    assert BagIn(qas[..i + 1], keyOf, k) == BagIn(qas[..i], keyOf, k) + multiset(qas[i].keywords);
    DailyStep(daily, walked, qas, i, keyOf, ranking);
  }

  /** The counting loop: every keyword of every QA adds one to the summary
      and to its bucket's table, a bucket the walk did not make getting an
      empty table. */
  method CountKeywords(qas: seq<QA>, keyOf: QA -> string, init: map<string, map<string, int>>)
    returns (summary: map<string, int>, daily: map<string, map<string, int>>)
    requires forall k :: k in init ==> init[k] == map[]
    ensures summary == CountsOf(Bag(qas))
    ensures daily.Keys == init.Keys + KeysOf(qas, keyOf)
    ensures forall k :: k in daily ==> daily[k] == CountsOf(BagIn(qas, keyOf, k))
  {
    summary := map[];
    daily := init;
    for i := 0 to |qas|
      invariant summary == CountsOf(Bag(qas[..i]))
      invariant CountedDaily(daily, init.Keys, qas[..i], keyOf)
    {
      var qa := qas[i];
      var bucket := keyOf(qa);
      ghost var before := daily;
      StartTable(daily, init.Keys, qas, i, keyOf);
      var ranking := if bucket in daily then daily[bucket] else map[];
      summary, ranking := CountQA(summary, ranking, qa.keywords, Bag(qas[..i]), BagIn(qas[..i], keyOf, bucket));
      daily := daily[bucket := ranking];
      CountStep(summary, before, init.Keys, qas, i, keyOf, ranking);
    }
    assert qas[..|qas|] == qas;
  }

  /** One keyword counted: a new keyword starts at zero, then its count
      goes up by one. */
  method Increment(m: map<string, int>, ghost b: multiset<string>, kw: string) returns (m': map<string, int>)
    requires Counts(m, b)
    ensures Counts(m', b + multiset{kw})
  {
    Bump(m, b, kw);
    m' := m;
    if kw !in m' {
      m' := m'[kw := 0];
    }
    m' := m'[kw := m'[kw] + 1];
  }

  /** The keyword loop of one QA: each keyword adds one to the summary and
      to the QA's bucket table, a new keyword starting at zero. */
  method CountQA(summary: map<string, int>, ranking: map<string, int>, keywords: seq<string>,
                 ghost total: multiset<string>, ghost bucket: multiset<string>)
    returns (summary': map<string, int>, ranking': map<string, int>)
    requires summary == CountsOf(total) && ranking == CountsOf(bucket)
    ensures summary' == CountsOf(total + multiset(keywords))
    ensures ranking' == CountsOf(bucket + multiset(keywords))
  {
    summary', ranking' := summary, ranking;
    for j := 0 to |keywords|
      invariant Counts(summary', total + multiset(keywords[..j]))
      invariant Counts(ranking', bucket + multiset(keywords[..j]))
    {
      var kw := keywords[j];
      assert multiset(keywords[..j + 1]) == multiset(keywords[..j]) + multiset{kw} by {
        assert keywords[..j + 1] == keywords[..j] + [kw];
      }
      summary' := Increment(summary', total + multiset(keywords[..j]), kw);
      ranking' := Increment(ranking', bucket + multiset(keywords[..j]), kw);
      assert total + multiset(keywords[..j + 1]) == total + multiset(keywords[..j]) + multiset{kw};
      assert bucket + multiset(keywords[..j + 1]) == bucket + multiset(keywords[..j]) + multiset{kw};
    }
    assert keywords[..|keywords|] == keywords;
    CountsTable(summary', total + multiset(keywords));
    CountsTable(ranking', bucket + multiset(keywords));
  }

  /** The occurrences in distinct buckets, put together. */
  function SumBags(qas: seq<QA>, keyOf: QA -> string, keys: seq<string>): multiset<string>
    decreases |keys|
  {
    if |keys| == 0 then multiset{} else BagIn(qas, keyOf, keys[0]) + SumBags(qas, keyOf, keys[1..])
  }

  /** One QA more adds its keywords to exactly one of several distinct
      buckets, when its bucket is among them. */
  lemma {:induction false} SumBagsStep(qas: seq<QA>, keyOf: QA -> string, keys: seq<string>, qa: QA)
    requires NoDups(keys)
    ensures SumBags(qas + [qa], keyOf, keys) ==
      SumBags(qas, keyOf, keys) + (if keyOf(qa) in keys then multiset(qa.keywords) else multiset{})
    decreases |keys|
  {
    var all := qas + [qa];
    assert all[..|all| - 1] == qas;
    if |keys| > 0 {
      assert NoDups(keys[1..]) by {
        forall a, b | 0 <= a < b < |keys[1..]| ensures keys[1..][a] != keys[1..][b] {
          assert keys[a + 1] != keys[b + 1];
        }
      }
      SumBagsStep(qas, keyOf, keys[1..], qa);
      if keyOf(qa) == keys[0] {
        assert keyOf(qa) !in keys[1..] by {
          forall b | 0 < b < |keys| ensures keys[b] != keys[0] {}
        }
      } else {
        assert keyOf(qa) in keys <==> keyOf(qa) in keys[1..];
      }
    }
  }

  lemma {:induction false} SumBagsEmpty(qas: seq<QA>, keyOf: QA -> string, keys: seq<string>)
    requires |qas| == 0
    ensures SumBags(qas, keyOf, keys) == multiset{}
    decreases |keys|
  {
    if |keys| > 0 {
      SumBagsEmpty(qas, keyOf, keys[1..]);
    }
  }

  /** The buckets share out the occurrences: over distinct buckets holding
      every QA's bucket, the bucket tables add up to the summary. */
  lemma {:induction false} BucketsPartition(qas: seq<QA>, keyOf: QA -> string, keys: seq<string>)
    requires NoDups(keys) && KeysOf(qas, keyOf) <= Members(keys)
    ensures SumBags(qas, keyOf, keys) == Bag(qas)
    decreases |qas|
  {
    if |qas| == 0 {
      SumBagsEmpty(qas, keyOf, keys);
    } else {
      var front := qas[..|qas| - 1];
      var qa := qas[|qas| - 1];
      assert front + [qa] == qas;
      BucketsPartition(front, keyOf, keys);
      SumBagsStep(front, keyOf, keys, qa);
      assert keyOf(qa) in Members(keys);
    }
  }

  /** The keywords of a ranking, in its order. */
  function Names(r: seq<Block>): (ns: seq<string>)
    ensures |ns| == |r|
  {
    seq(|r|, i requires 0 <= i < |r| => r[i].name)
  }

  /** Counts never increase along a ranking. */
  predicate Descending(r: seq<Block>) {
    forall i, j :: 0 <= i < j < |r| ==> r[i].count >= r[j].count
  }

  /** Every block holds a keyword of the table with its count. */
  predicate FromCounts(r: seq<Block>, m: map<string, int>) {
    forall i :: 0 <= i < |r| ==> r[i].name in m && r[i].count == m[r[i].name]
  }

  /** A ranking of a count table cut to `n`: as many blocks as the table
      has keywords, up to `n`, numbered from 1, each keyword once with its
      count, counts never increasing, and no keyword left out counted more
      than one listed. */
  predicate IsRanking(r: seq<Block>, m: map<string, int>, n: nat) {
    |r| == Min(n, |m|) &&
    (forall i :: 0 <= i < |r| ==> r[i].no == i + 1) &&
    FromCounts(r, m) && NoDups(Names(r)) && Descending(r) &&
    (forall kw :: kw in m && kw !in Names(r) ==> forall i :: 0 <= i < |r| ==> r[i].count >= m[kw])
  }

  /** A block put behind every block with at least its count. */
  function InsertBlock(b: Block, s: seq<Block>): (r: seq<Block>)
    ensures |r| == |s| + 1
  {
    if |s| == 0 then [b]
    else if s[0].count >= b.count then [s[0]] + InsertBlock(b, s[1..])
    else [b] + s
  }

  /** Insertion keeps every block and adds the new one. */
  lemma {:induction false} InsertBlockElements(b: Block, s: seq<Block>, x: Block)
    ensures x in InsertBlock(b, s) <==> x == b || x in s
    decreases |s|
  {
    if |s| > 0 && s[0].count >= b.count {
      InsertBlockElements(b, s[1..], x);
      assert s == [s[0]] + s[1..];
    }
  }

  /** A block with a count at least every count of a descending ranking
      heads a descending ranking. */
  lemma DescendingCons(x: Block, t: seq<Block>)
    requires Descending(t) && forall y :: y in t ==> x.count >= y.count
    ensures Descending([x] + t)
  {
    var r := [x] + t;
    forall i, j | 0 <= i < j < |r| ensures r[i].count >= r[j].count {
      if i == 0 {
        assert r[j] == t[j - 1];
      } else {
        assert r[i] == t[i - 1] && r[j] == t[j - 1];
      }
    }
  }

  /** The head of a descending ranking counts at least the rest. */
  lemma DescendingHead(x: Block, t: seq<Block>)
    requires Descending([x] + t)
    ensures Descending(t) && forall y :: y in t ==> x.count >= y.count
  {
    var r := [x] + t;
    forall i, j | 0 <= i < j < |t| ensures t[i].count >= t[j].count {
      assert t[i] == r[i + 1] && t[j] == r[j + 1];
    }
    forall y | y in t ensures x.count >= y.count {
      var k :| 0 <= k < |t| && t[k] == y;
      assert r[0] == x && r[k + 1] == y;
    }
  }

  /** Insertion keeps a ranking descending. */
  lemma {:induction false} InsertBlockDescending(b: Block, s: seq<Block>)
    requires Descending(s)
    ensures Descending(InsertBlock(b, s))
    decreases |s|
  {
    if |s| == 0 {
      assert InsertBlock(b, s) == [b];
    } else {
      assert s == [s[0]] + s[1..];
      DescendingHead(s[0], s[1..]);
      if s[0].count >= b.count {
        var rest := InsertBlock(b, s[1..]);
        InsertBlockDescending(b, s[1..]);
        forall y | y in rest ensures s[0].count >= y.count {
          InsertBlockElements(b, s[1..], y);
        }
        DescendingCons(s[0], rest);
        assert InsertBlock(b, s) == [s[0]] + rest;
      } else {
        DescendingCons(b, s);
        assert InsertBlock(b, s) == [b] + s;
      }
    }
  }

  /** A keyword heads a sequence of distinct keywords exactly when it is
      new to the rest and the rest has no duplicate. */
  lemma NoDupsCons(x: string, t: seq<string>)
    ensures NoDups([x] + t) <==> x !in t && NoDups(t)
  {
    var r := [x] + t;
    assert r[0] == x && forall a :: 0 <= a < |t| ==> r[a + 1] == t[a];
    if x !in t && NoDups(t) {
      forall a, b | 0 <= a < b < |r| ensures r[a] != r[b] {
        if a == 0 {
          assert r[b] == t[b - 1];
        } else {
          assert r[a] == t[a - 1] && r[b] == t[b - 1];
        }
      }
    }
    if NoDups(r) {
      forall a, b | 0 <= a < b < |t| ensures t[a] != t[b] {
        assert t[a] == r[a + 1] && t[b] == r[b + 1];
      }
      forall k | 0 <= k < |t| ensures t[k] != x {
        assert r[k + 1] != r[0];
      }
    }
  }

  /** Insertion of a block with a new keyword keeps the keywords distinct
      and adds its keyword. */
  lemma {:induction false} InsertBlockNames(b: Block, s: seq<Block>)
    requires NoDups(Names(s)) && b.name !in Names(s)
    ensures NoDups(Names(InsertBlock(b, s)))
    ensures Members(Names(InsertBlock(b, s))) == Members(Names(s)) + {b.name}
    decreases |s|
  {
    var ns := Names(s);
    if |s| == 0 {
      assert Names(InsertBlock(b, s)) == [b.name];
    } else if s[0].count >= b.count {
      var tail := Names(s[1..]);
      assert ns == [s[0].name] + tail;
      NoDupsCons(s[0].name, tail);
      MembersCons(s[0].name, tail);
      InsertBlockNames(b, s[1..]);
      var rest := Names(InsertBlock(b, s[1..]));
      assert s[0].name !in Members(rest);
      assert Names(InsertBlock(b, s)) == [s[0].name] + rest;
      NoDupsCons(s[0].name, rest);
      MembersCons(s[0].name, rest);
    } else {
      assert Names(InsertBlock(b, s)) == [b.name] + ns;
      NoDupsCons(b.name, ns);
      MembersCons(b.name, ns);
    }
  }

  /** With distinct keywords, a block's keyword is not among those before
      it. */
  lemma NewName(blocks: seq<Block>, i: int, seen: seq<string>)
    requires 0 <= i < |blocks| && NoDups(Names(blocks)) && Members(seen) == Members(Names(blocks[..i]))
    ensures blocks[i].name !in seen
  {
    var before := Names(blocks[..i]);
    forall k | 0 <= k < |before| ensures before[k] != blocks[i].name {
      assert before[k] == Names(blocks)[k] && blocks[i].name == Names(blocks)[i];
    }
    assert blocks[i].name !in Members(before);
  }

  /** `sort.Slice` by count, highest first. Blocks of equal count may come
      in any order there; this insertion gives one of those orders. */
  method SortBlocks(blocks: seq<Block>) returns (r: seq<Block>)
    requires NoDups(Names(blocks))
    ensures Enumerates(Names(r), Members(Names(blocks))) && Descending(r)
    ensures forall x :: x in r ==> x in blocks
  {
    r := [];
    for i := 0 to |blocks|
      invariant Enumerates(Names(r), Members(Names(blocks[..i]))) && Descending(r)
      invariant forall x :: x in r ==> x in blocks[..i]
    {
      assert Names(blocks[..i + 1]) == Names(blocks[..i]) + [blocks[i].name];
      NewName(blocks, i, Names(r));
      InsertBlockNames(blocks[i], r);
      InsertBlockDescending(blocks[i], r);
      forall x | x in InsertBlock(blocks[i], r) ensures x in blocks[..i + 1] {
        InsertBlockElements(blocks[i], r, x);
        assert blocks[..i + 1] == blocks[..i] + [blocks[i]];
      }
      r := InsertBlock(blocks[i], r);
    }
    assert blocks[..|blocks|] == blocks;
  }

  /** One block per keyword of a count table, numbered 0, in the order given. */
  method CollectBlocks(m: map<string, int>, order: seq<string>) returns (blocks: seq<Block>)
    requires Members(order) == m.Keys
    ensures Names(blocks) == order && FromCounts(blocks, m)
  {
    blocks := [];
    for i := 0 to |order|
      invariant Names(blocks) == order[..i] && FromCounts(blocks, m)
    {
      assert order[i] in Members(order);
      blocks := blocks + [Block(0, order[i], m[order[i]])];
      assert Names(blocks) == order[..i + 1];
    }
    assert order[..|order|] == order;
  }

  /** The blocks renumbered from 1 in their order, names and counts kept. */
  method NumberBlocks(sorted: seq<Block>) returns (numbered: seq<Block>)
    ensures |numbered| == |sorted| && (forall k :: 0 <= k < |numbered| ==> numbered[k].no == k + 1)
    ensures forall k :: 0 <= k < |numbered| ==> numbered[k].name == sorted[k].name && numbered[k].count == sorted[k].count
  {
    numbered := sorted;
    for i := 0 to |numbered|
      invariant |numbered| == |sorted|
      invariant forall k :: 0 <= k < |numbered| ==> numbered[k].name == sorted[k].name && numbered[k].count == sorted[k].count
      invariant forall k :: 0 <= k < i ==> numbered[k].no == k + 1
    {
      numbered := numbered[i := numbered[i].(no := i + 1)];
    }
  }

  /** A count table ranked in full: its blocks in map order, sorted by
      count and numbered from 1. */
  method RankAll(m: map<string, int>) returns (r: seq<Block>)
    ensures IsRanking(r, m, |m|)
    ensures Members(Names(r)) == m.Keys
  {
    var order := MapOrder(m.Keys);
    EnumeratesCard(order, m.Keys);
    var blocks := CollectBlocks(m, order);
    var sorted := SortBlocks(blocks);
    assert FromCounts(sorted, m) by {
      forall i | 0 <= i < |sorted| ensures sorted[i].name in m && sorted[i].count == m[sorted[i].name] {
        assert sorted[i] in blocks;
        var k :| 0 <= k < |blocks| && blocks[k] == sorted[i];
      }
    }
    r := NumberBlocks(sorted);
    assert Names(r) == Names(sorted);
    EnumeratesCard(Names(sorted), m.Keys);
  }

  /** The top `n` of a full ranking is a ranking cut to `n`. */
  lemma TopRanking(r: seq<Block>, m: map<string, int>, n: nat)
    requires IsRanking(r, m, |m|) && Members(Names(r)) == m.Keys
    ensures IsRanking(r[..Min(n, |r|)], m, n)
  {
    var k := Min(n, |r|);
    var t := r[..k];
    TopShape(r, m, k);
    TopLeftOut(r, m, k);
    assert |t| == Min(n, |m|);
  }

  /** A prefix of a ranking keeps its numbering, counts, distinct names
      and order. */
  lemma TopShape(r: seq<Block>, m: map<string, int>, k: nat)
    requires IsRanking(r, m, |m|) && k <= |r|
    ensures forall i :: 0 <= i < k ==> r[..k][i].no == i + 1
    ensures FromCounts(r[..k], m) && Descending(r[..k])
    ensures NoDups(Names(r[..k]))
  {
    assert Names(r[..k]) == Names(r)[..k];
  }

  /** A keyword the prefix leaves out sits further down the full ranking,
      so it is counted no more than any block of the prefix. */
  lemma TopLeftOut(r: seq<Block>, m: map<string, int>, k: nat)
    requires IsRanking(r, m, |m|) && Members(Names(r)) == m.Keys && k <= |r|
    ensures forall kw :: kw in m && kw !in Names(r[..k]) ==> forall i :: 0 <= i < k ==> r[..k][i].count >= m[kw]
  {
    var t := r[..k];
    forall kw | kw in m && kw !in Names(t)
      ensures forall i :: 0 <= i < k ==> t[i].count >= m[kw]
    {
      assert kw in Members(Names(r));
      assert forall q :: 0 <= q < k ==> Names(r)[q] == Names(t)[q] != kw;
      var p :| 0 <= p < |r| && Names(r)[p] == kw;
      assert m[kw] == r[p].count;
    }
  }

  /** A ranking of a table with no more than `n` keywords lists them all. */
  lemma RankingListsAll(r: seq<Block>, m: map<string, int>, n: nat)
    requires IsRanking(r, m, n) && |m| <= n
    ensures Members(Names(r)) == m.Keys
  {
    var listed := Members(Names(r));
    assert listed <= m.Keys by {
      forall kw | kw in listed ensures kw in m {
        var i :| 0 <= i < |r| && Names(r)[i] == kw;
      }
    }
    EnumeratesCard(Names(r), listed);
    SubsetSameSize(listed, m.Keys);
  }

  lemma SubsetSameSize(a: set<string>, b: set<string>)
    requires a <= b && |a| == |b|
    ensures a == b
  {
    if a != b {
      var x :| x in b && x !in a;
      assert a <= b - {x};
      SubsetSize(a, b - {x});
    }
  }

  lemma {:induction false} SubsetSize(a: set<string>, b: set<string>)
    requires a <= b
    ensures |a| <= |b|
    decreases b
  {
    if a != {} {
      var x :| x in a;
      SubsetSize(a - {x}, b - {x});
    }
  }

  /** The daily loop: each bucket, in the given order, with the full
      ranking of its table. */
  method RankBuckets(daily: map<string, map<string, int>>, keys: seq<string>) returns (timeBased: seq<TimeBasedRanking>)
    requires forall i :: 0 <= i < |keys| ==> keys[i] in daily
    ensures |timeBased| == |keys|
    ensures forall k :: 0 <= k < |keys| ==>
      timeBased[k].dateTime == keys[k] &&
      IsRanking(timeBased[k].ranking, daily[keys[k]], |daily[keys[k]]|) &&
      Members(Names(timeBased[k].ranking)) == daily[keys[k]].Keys
  {
    timeBased := [];
    for i := 0 to |keys|
      invariant |timeBased| == i
      invariant forall k :: 0 <= k < i ==>
        timeBased[k].dateTime == keys[k] &&
        IsRanking(timeBased[k].ranking, daily[keys[k]], |daily[keys[k]]|) &&
        Members(Names(timeBased[k].ranking)) == daily[keys[k]].Keys
    {
      var ranking := RankAll(daily[keys[i]]);
      timeBased := timeBased + [TimeBasedRanking(keys[i], ranking)];
    }
  }

  /** The truncation loop: every ranking longer than ten cut to its top
      ten, the others kept. */
  method CutRankings(full: seq<TimeBasedRanking>, ghost daily: map<string, map<string, int>>, ghost keys: seq<string>)
    returns (cut: seq<TimeBasedRanking>)
    requires |keys| == |full|
    requires forall k :: 0 <= k < |full| ==>
      keys[k] in daily &&
      IsRanking(full[k].ranking, daily[keys[k]], |daily[keys[k]]|) &&
      Members(Names(full[k].ranking)) == daily[keys[k]].Keys
    ensures |cut| == |full|
    ensures forall k :: 0 <= k < |cut| ==>
      cut[k].dateTime == full[k].dateTime && IsRanking(cut[k].ranking, daily[keys[k]], TopN)
  {
    cut := full;
    for i := 0 to |cut|
      invariant |cut| == |full|
      invariant forall k :: 0 <= k < |cut| ==> cut[k].dateTime == full[k].dateTime
      invariant forall k :: 0 <= k < i ==> IsRanking(cut[k].ranking, daily[keys[k]], TopN)
      invariant forall k :: i <= k < |cut| ==> cut[k] == full[k]
    {
      TopRanking(cut[i].ranking, daily[keys[i]], TopN);
      if |cut[i].ranking| > TopN {
        cut := cut[i := cut[i].(ranking := cut[i].ranking[..TopN])];
      }
    }
  }

  /** The time-based rankings: every bucket of the table, in ascending
      order, with the top ten of its keyword occurrences. */
  method RankDaily(daily: map<string, map<string, int>>, ghost qas: seq<QA>, ghost keyOf: QA -> string)
    returns (timeBased: seq<TimeBasedRanking>)
    requires forall k :: k in daily ==> daily[k] == CountsOf(BagIn(qas, keyOf, k))
    ensures var keys := StrOrder.SortedSet(daily.Keys);
      |timeBased| == |keys| &&
      forall i :: 0 <= i < |keys| ==>
        timeBased[i].dateTime == keys[i] &&
        IsRanking(timeBased[i].ranking, CountsOf(BagIn(qas, keyOf, keys[i])), TopN)
  {
    var keys := StrOrder.SortKeys(daily.Keys);
    assert forall i :: 0 <= i < |keys| ==> keys[i] in Members(keys);
    var full := RankBuckets(daily, keys);
    timeBased := CutRankings(full, daily, keys);
  }

  /** `extractKeywordTrends`: the summary labelled with the buckets of
      `from` and `to` and ranking every keyword occurrence of the window;
      then per bucket, in ascending order, the ranking of the occurrences
      in that bucket; each ranking cut to the top ten. */
  method ExtractKeywordTrends(qas: seq<QA>, unit: PeriodUnit, from: int, to: int) returns (t: Trends)
    ensures t.summary.from == Bucket(unit, from) && t.summary.to == Bucket(unit, to)
    ensures IsRanking(t.summary.ranking, CountsOf(Bag(qas)), TopN)
    ensures var keys := StrOrder.SortedSet(ReportKeys(qas, unit, from, to));
      |t.timeBased| == |keys| &&
      forall i :: 0 <= i < |keys| ==>
        t.timeBased[i].dateTime == keys[i] &&
        IsRanking(t.timeBased[i].ranking, CountsOf(BagIn(qas, BucketOf(unit), keys[i])), TopN)
  {
    var labels, init := WalkLabels(unit, from, to, map[]);
    var summaryCounts, daily := CountKeywords(qas, BucketOf(unit), init);
    assert daily.Keys == ReportKeys(qas, unit, from, to);
    var full := RankAll(summaryCounts);
    TopRanking(full, summaryCounts, TopN);
    var summary := SummaryRanking(Bucket(unit, from), Bucket(unit, to), full[..Min(TopN, |full|)]);
    var timeBased := RankDaily(daily, qas, BucketOf(unit));
    t := Trends(summary, timeBased);
  }
}
