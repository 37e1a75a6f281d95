/** The search service front: single search with optional reranking, and
    multi-search whose per-request results are aggregated by a flatten
    reranker or by reciprocal-rank fusion. */
module SearchService {
  import opened Common
  import opened GoValue
  import Searcher
  import FR = FlattenReranker
  import Rrf

  type SearchRequest = Searcher.SearchRequest

  /** `proto.SearchConfig`: the searcher type and an optional reranker. */
  datatype SearchConfig = SearchConfig(searcherType: string, reranker: Option<FR.RerankerConfig>)

  /** A searcher (`ps.Searcher.Search`): outside the model. */
  type SearcherFn = (SearchRequest, SearchConfig) -> Result<seq<Item>, GoError>

  /** The searcher and reranker providers: a name gives an implementation
      or nothing (a nil interface). */
  type Searchers = string -> Option<SearcherFn>
  type Rerankers = string -> Option<FR.Reranker>

  const NilDerefPanic := Panic("invalid memory address or nil pointer dereference")
  const SliceBoundsPanic := Panic("slice bounds out of range")
  const IndexPanic := Panic("index out of range")
  const FieldNotFound := Error("field from reranker config not found in real query")

  // ---------------------------------------------------------------------
  // Rerank query

  /** `getRerankQuery`: the raw query, a query field's value, or that value,
      a space and the raw query; a missing field and an unset source are
      errors, and a nil query-source message is dereferenced. */
  function RerankQuery(req: SearchRequest, rc: FR.RerankerConfig): (r: Result<string, GoError>)
    ensures r.Ok? <==> (rc.querySource.RawQuerySource? ||
      ((rc.querySource.QueryFieldSource? || rc.querySource.ConcatQueryAndRawQuery?) && rc.querySource.field in req.query))
    ensures r.Ok? && rc.querySource.RawQuerySource? ==> r.value == req.rawQuery
    ensures r.Ok? && rc.querySource.QueryFieldSource? ==> r.value == req.query[rc.querySource.field]
    ensures r.Ok? && rc.querySource.ConcatQueryAndRawQuery? ==>
      r.value == req.query[rc.querySource.field] + " " + req.rawQuery
    ensures r.Err? && (rc.querySource.QueryFieldSource? || rc.querySource.ConcatQueryAndRawQuery?) ==> r.error == FieldNotFound
    ensures rc.querySource.NoSource? ==> r == Err(Error("invalid query source"))
    ensures rc.querySource.NilQuerySource? ==> r == Err(NilDerefPanic)
  {
    match rc.querySource
    case NilQuerySource => Err(NilDerefPanic)
    case NoSource => Err(Error("invalid query source"))
    case RawQuerySource => Ok(req.rawQuery)
    case QueryFieldSource(f) => if f in req.query then Ok(req.query[f]) else Err(FieldNotFound)
    case ConcatQueryAndRawQuery(f) =>
      if f in req.query then Ok(req.query[f] + " " + req.rawQuery) else Err(FieldNotFound)
  }

  // ---------------------------------------------------------------------
  // Single search

  /** The request the searcher sees: 20 times the size (int32 arithmetic)
      when a reranker is configured. */
  function WidenedRequest(req: SearchRequest, cfg: SearchConfig): (r: SearchRequest)
    ensures r.(size := req.size) == req
    ensures cfg.reranker.None? ==> r == req
    ensures cfg.reranker.Some? && -0x8000_0000 <= req.size * 20 < 0x8000_0000 ==> r.size == 20 * req.size
  {
    if cfg.reranker.Some? then req.(size := Int32(req.size * 20)) else req
  }

  /** `getSearchResults` as written: on a reranker timeout it slices the
      search result at the requested size, which panics when the searcher
      returned fewer items. */
  function SearchResultsAsWritten(search: SearcherFn, rerankers: Rerankers, req: SearchRequest,
                                  cfg: SearchConfig): Result<seq<Item>, GoError>
  {
    var topk := req.size;
    var sreq := WidenedRequest(req, cfg);
    match search(sreq, cfg)
    case Err(e) => Err(e)
    case Ok(items) =>
      if cfg.reranker.None? then Ok(items)
      else
        var rc := cfg.reranker.value;
        match rerankers(rc.rerankerType)
        case None => Err(Error("no reranker"))
        case Some(rerank) =>
          match RerankQuery(sreq, rc)
          case Err(e) => Err(e)
          case Ok(q) =>
            var res := rerank(FR.RerankCall(rc, q, items, topk));
            if res == Err(RerankerTimeout) then
              if 0 <= topk <= |items| then Ok(items[..topk]) else Err(SliceBoundsPanic)
            else res
  }

  /** The timeout fallback as intended: the first min(size, |items|) items. */
  function TimeoutFallback(items: seq<Item>, topk: int): (r: Result<seq<Item>, GoError>)
    ensures topk < 0 <==> r.Err?
    ensures r.Ok? ==> |r.value| == Min(topk, |items|) && r.value == items[..|r.value|]
  {
    if topk < 0 then Err(SliceBoundsPanic)
    else if topk <= |items| then Ok(items[..topk])
    else Ok(items)
  }

  /** `getSearchResults` with the corrected timeout fallback. */
  function SearchResults(search: SearcherFn, rerankers: Rerankers, req: SearchRequest,
                         cfg: SearchConfig): (r: Result<seq<Item>, GoError>)
    ensures cfg.reranker.None? ==> r == search(req, cfg)
    ensures search(WidenedRequest(req, cfg), cfg).Err? ==> r == search(WidenedRequest(req, cfg), cfg)
    ensures (cfg.reranker.Some? && rerankers(cfg.reranker.value.rerankerType).None? &&
      search(WidenedRequest(req, cfg), cfg).Ok?) ==> r == Err(Error("no reranker"))
  {
    var topk := req.size;
    var sreq := WidenedRequest(req, cfg);
    match search(sreq, cfg)
    case Err(e) => Err(e)
    case Ok(items) =>
      if cfg.reranker.None? then Ok(items)
      else
        var rc := cfg.reranker.value;
        match rerankers(rc.rerankerType)
        case None => Err(Error("no reranker"))
        case Some(rerank) =>
          match RerankQuery(sreq, rc)
          case Err(e) => Err(e)
          case Ok(q) =>
            var res := rerank(FR.RerankCall(rc, q, items, topk));
            if res == Err(RerankerTimeout) then TimeoutFallback(items, topk) else res
  }

  /** The reranker gets the query built from the widened request, all the
      searched items and the original size; any outcome but a timeout is
      returned as is, a timeout falls back to the leading search results. */
  lemma RerankStep(search: SearcherFn, rerankers: Rerankers, req: SearchRequest, cfg: SearchConfig)
    requires cfg.reranker.Some?
    requires search(WidenedRequest(req, cfg), cfg).Ok?
    requires rerankers(cfg.reranker.value.rerankerType).Some?
    requires RerankQuery(WidenedRequest(req, cfg), cfg.reranker.value).Ok?
    ensures var items := search(WidenedRequest(req, cfg), cfg).value;
      var call := FR.RerankCall(cfg.reranker.value, RerankQuery(WidenedRequest(req, cfg), cfg.reranker.value).value,
                                items, req.size);
      var res := rerankers(cfg.reranker.value.rerankerType).value(call);
      var r := SearchResults(search, rerankers, req, cfg);
      (res != Err(RerankerTimeout) ==> r == res) &&
      (res == Err(RerankerTimeout) && req.size >= 0 ==>
         r.Ok? && |r.value| == Min(req.size, |items|) && r.value == items[..|r.value|])
  {
  }

  /** The written fallback panics on a search that returned fewer items than
      requested: one item found, size 10, reranker timed out. */
  lemma AsWrittenFallbackPanics()
    ensures var it := Item("a", map[], 0.0);
      var req := Searcher.SearchRequest("", map[], "q", "", 10, None, None);
      var cfg := SearchConfig("opensearch", Some(FR.RerankerConfig("e5", FR.RawQuerySource)));
      var search: SearcherFn := (r, c) => Ok([it]);
      var rerankers: Rerankers := t => Some((call: FR.RerankCall) => Err(RerankerTimeout));
      SearchResultsAsWritten(search, rerankers, req, cfg) == Err(SliceBoundsPanic) &&
      SearchResults(search, rerankers, req, cfg) == Ok([it])
  {
    var it := Item("a", map[], 0.0);
    var req := Searcher.SearchRequest("", map[], "q", "", 10, None, None);
    var cfg := SearchConfig("opensearch", Some(FR.RerankerConfig("e5", FR.RawQuerySource)));
    var search: SearcherFn := (r, c) => Ok([it]);
    var rerankers: Rerankers := t => Some((call: FR.RerankCall) => Err(RerankerTimeout));
    assert WidenedRequest(req, cfg) == req.(size := 200);
    assert search(WidenedRequest(req, cfg), cfg) == Ok([it]);
  }

  /** `SearchServiceServer.Search`: size 0 means 10; a missing search config
      and an unknown searcher are errors; then the search proper. */
  function Search(req: SearchRequest, cfg: Option<SearchConfig>, searchers: Searchers,
                  rerankers: Rerankers): (r: Result<seq<Item>, GoError>)
    ensures cfg.None? ==> r == Err(Error("no search config"))
    ensures cfg.Some? && searchers(cfg.value.searcherType).None? ==> r == Err(Error("no searcher"))
    ensures r.Ok? ==> cfg.Some? && searchers(cfg.value.searcherType).Some?
  {
    var req := if req.size == 0 then req.(size := 10) else req;
    if cfg.None? then Err(Error("no search config"))
    else match searchers(cfg.value.searcherType)
      case None => Err(Error("no searcher"))
      case Some(search) => SearchResults(search, rerankers, req, cfg.value)
  }

  /** A size of 0 is the same request as a size of 10. */
  lemma SearchDefaultSize(req: SearchRequest, cfg: Option<SearchConfig>, searchers: Searchers, rerankers: Rerankers)
    requires req.size == 0
    ensures Search(req, cfg, searchers, rerankers) == Search(req.(size := 10), cfg, searchers, rerankers)
  {
    assert req.(size := 10).(size := 10) == req.(size := 10);
  }

  // ---------------------------------------------------------------------
  // Multi-search aggregation

  /** `proto.Aggregate`: the method name and whether to split by source. */
  datatype Aggregation = Aggregation(methodName: string, preserveSource: bool)

  /** `proto.MSearchRequest`. */
  datatype MSearchRequest = MSearchRequest(requests: seq<SearchRequest>, rawQuery: string, size: int,
                                           aggregate: Option<Aggregation>)

  /** Every request's rerank query equals the raw query. */
  ghost predicate AllRaw(reqs: seq<SearchRequest>, rc: FR.RerankerConfig, raw: string) {
    forall i :: 0 <= i < |reqs| ==> RerankQuery(reqs[i], rc) == Ok(raw)
  }

  /** The request loop of the flatten branch: the first request whose rerank
      query fails ends it with that error, the first whose rerank query
      differs from the raw query turns reranking on. */
  function NeedsRerank(reqs: seq<SearchRequest>, rc: FR.RerankerConfig, raw: string): Result<bool, GoError>
    decreases |reqs|
  {
    if |reqs| == 0 then Ok(false)
    else match RerankQuery(reqs[0], rc)
      case Err(e) => Err(e)
      case Ok(q) => if q != raw then Ok(true) else NeedsRerank(reqs[1..], rc, raw)
  }

  /** No reranking exactly when every request's rerank query is the raw
      query; reranking exactly when some request's differs and all before it
      agree. */
  lemma NeedsRerankSpec(reqs: seq<SearchRequest>, rc: FR.RerankerConfig, raw: string)
    ensures NeedsRerank(reqs, rc, raw) == Ok(false) <==> AllRaw(reqs, rc, raw)
    ensures NeedsRerank(reqs, rc, raw) == Ok(true) <==>
      exists i :: 0 <= i < |reqs| && AllRaw(reqs[..i], rc, raw) &&
        RerankQuery(reqs[i], rc).Ok? && RerankQuery(reqs[i], rc).value != raw
  {
    NoRerankWhenAllRaw(reqs, rc, raw);
    RerankAtFirstDiffering(reqs, rc, raw);
  }

  lemma {:induction false} NoRerankWhenAllRaw(reqs: seq<SearchRequest>, rc: FR.RerankerConfig, raw: string)
    ensures NeedsRerank(reqs, rc, raw) == Ok(false) <==> AllRaw(reqs, rc, raw)
    decreases |reqs|
  {
    if |reqs| > 0 {
      var tail := reqs[1..];
      NoRerankWhenAllRaw(tail, rc, raw);
      var q := RerankQuery(reqs[0], rc);
      if AllRaw(reqs, rc, raw) {
        assert AllRaw(tail, rc, raw) by {
          forall i | 0 <= i < |tail| ensures RerankQuery(tail[i], rc) == Ok(raw) {
            assert tail[i] == reqs[i + 1];
          }
        }
      }
      if q == Ok(raw) && AllRaw(tail, rc, raw) {
        forall i | 0 <= i < |reqs| ensures RerankQuery(reqs[i], rc) == Ok(raw) {
          if i > 0 { assert reqs[i] == tail[i - 1]; }
        }
      }
    }
  }

  /** Request i is the first whose rerank query differs from the raw one. */
  ghost predicate DiffersFirstAt(reqs: seq<SearchRequest>, rc: FR.RerankerConfig, raw: string, i: int) {
    0 <= i < |reqs| && AllRaw(reqs[..i], rc, raw) &&
    RerankQuery(reqs[i], rc).Ok? && RerankQuery(reqs[i], rc).value != raw
  }

  lemma RerankAtFirstDiffering(reqs: seq<SearchRequest>, rc: FR.RerankerConfig, raw: string)
    ensures NeedsRerank(reqs, rc, raw) == Ok(true) <==>
      exists i :: 0 <= i < |reqs| && AllRaw(reqs[..i], rc, raw) &&
        RerankQuery(reqs[i], rc).Ok? && RerankQuery(reqs[i], rc).value != raw
  {
    if NeedsRerank(reqs, rc, raw) == Ok(true) {
      var i := RerankFindsDiffering(reqs, rc, raw);
      assert DiffersFirstAt(reqs, rc, raw, i);
    }
    if exists i :: 0 <= i < |reqs| && AllRaw(reqs[..i], rc, raw) &&
        RerankQuery(reqs[i], rc).Ok? && RerankQuery(reqs[i], rc).value != raw {
      var i :| 0 <= i < |reqs| && AllRaw(reqs[..i], rc, raw) &&
        RerankQuery(reqs[i], rc).Ok? && RerankQuery(reqs[i], rc).value != raw;
      RerankFromDiffering(reqs, rc, raw, i);
    }
  }

  /** When reranking is on, some request's rerank query differs first. */
  lemma {:induction false} RerankFindsDiffering(reqs: seq<SearchRequest>, rc: FR.RerankerConfig, raw: string)
    returns (i: int)
    requires NeedsRerank(reqs, rc, raw) == Ok(true)
    ensures DiffersFirstAt(reqs, rc, raw, i)
    decreases |reqs|
  {
    var tail := reqs[1..];
    var q := RerankQuery(reqs[0], rc);
    if q.Ok? && q.value != raw {
      i := 0;
      assert AllRaw(reqs[..0], rc, raw);
    } else {
      var k := RerankFindsDiffering(tail, rc, raw);
      i := k + 1;
      assert reqs[i] == tail[k];
      forall j | 0 <= j < i ensures RerankQuery(reqs[..i][j], rc) == Ok(raw) {
        if j > 0 { assert reqs[..i][j] == tail[..k][j - 1]; }
      }
    }
  }

  /** The first differing request turns reranking on. */
  lemma {:induction false} RerankFromDiffering(reqs: seq<SearchRequest>, rc: FR.RerankerConfig, raw: string, i: int)
    requires DiffersFirstAt(reqs, rc, raw, i)
    ensures NeedsRerank(reqs, rc, raw) == Ok(true)
    decreases |reqs|
  {
    if i > 0 {
      var tail := reqs[1..];
      assert reqs[..i][0] == reqs[0];
      assert tail[i - 1] == reqs[i];
      var front := tail[..i - 1];
      forall j | 0 <= j < |front| ensures RerankQuery(front[j], rc) == Ok(raw) {
        assert front[j] == reqs[..i][j + 1];
      }
      RerankFromDiffering(tail, rc, raw, i - 1);
    }
  }

  /** The request loop itself. */
  method UseReranker(reqs: seq<SearchRequest>, rc: FR.RerankerConfig, raw: string) returns (r: Result<bool, GoError>)
    ensures r == NeedsRerank(reqs, rc, raw)
  {
    var i := 0;
    while i < |reqs|
      invariant 0 <= i <= |reqs|
      invariant NeedsRerank(reqs, rc, raw) == NeedsRerank(reqs[i..], rc, raw)
    {
      var q := RerankQuery(reqs[i], rc);
      if q.Err? {
        return Err(q.error);
      }
      if q.value != raw {
        return Ok(true);
      }
      assert reqs[i..][1..] == reqs[i + 1..];
      i := i + 1;
    }
    return Ok(false);
  }

  /** Which reranker the flatten branch uses, if any: "e5" without a
      reranker config, the configured one when some rerank query differs
      from the raw query, none when all agree. */
  function FlattenDecision(req: MSearchRequest, cfg: SearchConfig): (r: Result<Option<string>, GoError>)
    ensures cfg.reranker.None? ==> r == Ok(Some("e5"))
  {
    if cfg.reranker.None? then Ok(Some("e5"))
    else match NeedsRerank(req.requests, cfg.reranker.value, req.rawQuery)
      case Err(e) => Err(e)
      case Ok(b) => Ok(if b then Some(cfg.reranker.value.rerankerType) else None)
  }

  /** One step of the score sort: x goes in front of the first item that
      scores strictly less. */
  function InsertByScore(x: Item, s: seq<Item>): (r: seq<Item>)
    ensures |r| == |s| + 1
  {
    if |s| == 0 then [x]
    else if s[0].score < x.score then [x] + s
    else [s[0]] + InsertByScore(x, s[1..])
  }

  /** Inserting adds x and keeps every other item. */
  lemma {:induction false} InsertByScoreMultiset(x: Item, s: seq<Item>)
    ensures multiset(InsertByScore(x, s)) == multiset(s) + multiset{x}
    decreases |s|
  {
    if |s| > 0 && s[0].score >= x.score {
      InsertByScoreMultiset(x, s[1..]);
      assert s == [s[0]] + s[1..];
    }
  }

  /** Inserting under a bound keeps every score under it. */
  lemma {:induction false} InsertByScoreBounded(x: Item, s: seq<Item>, b: real)
    requires x.score <= b && forall k :: 0 <= k < |s| ==> s[k].score <= b
    ensures forall k :: 0 <= k < |InsertByScore(x, s)| ==> InsertByScore(x, s)[k].score <= b
    decreases |s|
  {
    if |s| > 0 && s[0].score >= x.score {
      var tail := s[1..];
      assert forall k :: 0 <= k < |tail| ==> tail[k].score <= b by {
        forall k | 0 <= k < |tail| ensures tail[k].score <= b {
          assert tail[k] == s[k + 1];
        }
      }
      InsertByScoreBounded(x, tail, b);
      var r, rest := InsertByScore(x, s), InsertByScore(x, tail);
      assert r == [s[0]] + rest;
      forall k | 0 <= k < |r| ensures r[k].score <= b {
        if k > 0 { assert r[k] == rest[k - 1]; }
      }
    }
  }

  /** Inserting keeps a list sorted by non-increasing score. */
  lemma {:induction false} InsertByScoreSorted(x: Item, s: seq<Item>)
    requires SortedByScore(s)
    ensures SortedByScore(InsertByScore(x, s))
    decreases |s|
  {
    var r := InsertByScore(x, s);
    if |s| == 0 {
    } else if s[0].score < x.score {
      assert r == [x] + s;
      forall i, j | 0 <= i < j < |r| ensures r[i].score >= r[j].score {
        assert r[j] == s[j - 1];
        if i > 0 { assert r[i] == s[i - 1]; }
        else if j > 1 { assert s[0].score >= s[j - 1].score; }
      }
    } else {
      var tail := s[1..];
      var rest := InsertByScore(x, tail);
      assert SortedByScore(tail) by {
        forall i, j | 0 <= i < j < |tail| ensures tail[i].score >= tail[j].score {
          assert tail[i] == s[i + 1] && tail[j] == s[j + 1];
        }
      }
      InsertByScoreSorted(x, tail);
      assert forall k :: 0 <= k < |tail| ==> tail[k].score <= s[0].score by {
        forall k | 0 <= k < |tail| ensures tail[k].score <= s[0].score {
          assert tail[k] == s[k + 1];
        }
      }
      InsertByScoreBounded(x, tail, s[0].score);
      assert r == [s[0]] + rest;
      forall i, j | 0 <= i < j < |r| ensures r[i].score >= r[j].score {
        assert r[j] == rest[j - 1];
        if i > 0 {
          assert r[i] == rest[i - 1];
        }
      }
    }
  }

  /** `sort.Slice` by descending score: a permutation in non-increasing
      score order (equal scores in any order; the Go sort is not stable). */
  method SortByScore(items: seq<Item>) returns (r: seq<Item>)
    ensures multiset(r) == multiset(items)
    ensures SortedByScore(r)
  {
    r := [];
    var i := 0;
    while i < |items|
      invariant 0 <= i <= |items|
      invariant multiset(r) == multiset(items[..i])
      invariant SortedByScore(r)
    {
      InsertByScoreMultiset(items[i], r);
      InsertByScoreSorted(items[i], r);
      assert items[..i + 1] == items[..i] + [items[i]];
      r := InsertByScore(items[i], r);
      i := i + 1;
    }
    assert items[..i] == items;
  }

  /** What reciprocal-rank fusion of the lists with k = size may yield. */
  ghost predicate RrfOutcome(lists: seq<Items>, k: int, rr: Result<seq<Item>, GoError>) {
    if k < 0 then rr == Err(Rrf.MakeslicePanic)
    else rr.Ok? && exists order :: Rrf.FusedRanking(ItemsOf(lists), order) && rr.value == Rrf.TopItems(ItemsOf(lists), order, k)
  }

  const RawQueryMissing := Error("raw query is empty. reranker requires raw query in msearch")

  /** The admissible outcomes of the aggregation switch. */
  ghost predicate Reranked(req: MSearchRequest, cfg: SearchConfig, lists: seq<Items>, rerankers: Rerankers,
                           rr: Result<seq<Item>, GoError>)
    requires req.aggregate.Some?
  {
    var m := Lower(req.aggregate.value.methodName);
    if m == "flatten_reranker" then
      match FlattenDecision(req, cfg)
      case Err(e) => rr == Err(e)
      case Ok(None) => rr.Ok? && multiset(rr.value) == multiset(FR.Flatten(lists)) && SortedByScore(rr.value)
      case Ok(Some(t)) =>
        if rerankers(t).None? then rr == Err(Error("no reranker"))
        else if req.rawQuery == "" then rr == Err(RawQueryMissing)
        else
          var fr := FR.FlattenRerank(lists, FR.EmptyConfig, req.rawQuery, req.size, rerankers(t).value);
          if fr == Err(RerankerTimeout) then RrfOutcome(lists, req.size, rr) else rr == fr
    else if m == "rrf" then RrfOutcome(lists, req.size, rr)
    else rr == Err(Error("invalid aggregate method"))
  }

  /** The items of `item`'s list kept for each reranked item with its id. */
  function Matches(item: Item, reranked: seq<Item>): seq<Item>
  {
    if |reranked| == 0 then []
    else Matches(item, reranked[..|reranked| - 1]) + (if reranked[|reranked| - 1].id == item.id then [item] else [])
  }

  /** A list's items, each repeated once per reranked item with its id. */
  function Kept(items: seq<Item>, reranked: seq<Item>): seq<Item>
  {
    if |items| == 0 then []
    else Kept(items[..|items| - 1], reranked) + Matches(items[|items| - 1], reranked)
  }

  /** The items whose id is among ids, in order. */
  function Filter(items: seq<Item>, ids: set<string>): seq<Item>
  {
    if |items| == 0 then []
    else Filter(items[..|items| - 1], ids) + (if items[|items| - 1].id in ids then [items[|items| - 1]] else [])
  }

  /** With distinct reranked ids an item is kept once if its id was
      reranked and dropped otherwise. */
  lemma {:induction false} MatchesDistinct(item: Item, reranked: seq<Item>)
    requires NoDups(Ids(reranked))
    ensures Matches(item, reranked) == if item.id in Members(Ids(reranked)) then [item] else []
    decreases |reranked|
  {
    if |reranked| > 0 {
      var n := |reranked| - 1;
      var front := reranked[..n];
      assert Ids(front) == Ids(reranked)[..n];
      assert NoDups(Ids(front));
      MatchesDistinct(item, front);
      assert Ids(reranked) == Ids(front) + [reranked[n].id];
      MembersSnoc(Ids(front), reranked[n].id);
      if reranked[n].id == item.id {
        assert item.id !in Members(Ids(front)) by {
          forall a | 0 <= a < n ensures Ids(front)[a] != item.id {
            assert Ids(reranked)[a] != Ids(reranked)[n];
          }
        }
      }
    }
  }

  /** With distinct reranked ids, a list keeps exactly its items whose id was
      reranked, in its own order. */
  lemma {:induction false} KeptIsFilter(items: seq<Item>, reranked: seq<Item>)
    requires NoDups(Ids(reranked))
    ensures Kept(items, reranked) == Filter(items, Members(Ids(reranked)))
    decreases |items|
  {
    if |items| > 0 {
      KeptIsFilter(items[..|items| - 1], reranked);
      MatchesDistinct(items[|items| - 1], reranked);
    }
  }

  /** The preserve-source split as intended: every source list keeps its own
      tag and the items it contributed to the aggregate. */
  function Split(lists: seq<Items>, reranked: seq<Item>): (r: seq<Items>)
    ensures |r| == |lists|
  {
    seq(|lists|, i requires 0 <= i < |lists| => Items(lists[i].id, Kept(lists[i].items, reranked)))
  }

  /** The preserve-source split as written: list i is tagged with the id of
      request i, whatever request list i came from. */
  function SplitAsWritten(requests: seq<SearchRequest>, lists: seq<Items>, reranked: seq<Item>): Result<seq<Items>, GoError>
  {
    if |lists| > |requests| then Err(IndexPanic)
    else Ok(seq(|lists|, i requires 0 <= i < |lists| => Items(requests[i].id, Kept(lists[i].items, reranked))))
  }

  /** The multi-search results arrive in goroutine completion order, each
      tagged with its own request id; the written split then relabels them
      by position: two requests "a", "b" whose results arrive as "b", "a"
      come back with the tags swapped, while the intended split keeps them. */
  lemma AsWrittenSplitMislabels()
    ensures var reqA := Searcher.SearchRequest("a", map[], "", "", 10, None, None);
      var reqB := Searcher.SearchRequest("b", map[], "", "", 10, None, None);
      var x := Item("x", map[], 1.0);
      var y := Item("y", map[], 0.5);
      var lists := [Items("b", [x]), Items("a", [y])];
      var w := SplitAsWritten([reqA, reqB], lists, [x, y]);
      w.Ok? && w.value[0] == Items("a", [x]) &&
      Split(lists, [x, y])[0] == Items("b", [x])
  {
    var x := Item("x", map[], 1.0);
    var y := Item("y", map[], 0.5);
    assert [x, y][..1] == [x];
    assert [x][..0] == [];
    assert Matches(x, []) == [];
    assert Matches(x, [x]) == Matches(x, []) + [x];
    assert Matches(x, [x, y]) == Matches(x, [x]) + [];
    assert Kept([x], [x, y]) == Kept([], [x, y]) + Matches(x, [x, y]);
  }

  /** The innermost split loop: the item once per reranked item with its id. */
  method MatchAll(item: Item, reranked: seq<Item>) returns (found: seq<Item>)
    ensures found == Matches(item, reranked)
  {
    found := [];
    var u := 0;
    while u < |reranked|
      invariant 0 <= u <= |reranked|
      invariant found == Matches(item, reranked[..u])
    {
      assert reranked[..u + 1][..u] == reranked[..u];
      if item.id == reranked[u].id {
        found := found + [item];
      }
      u := u + 1;
    }
    assert reranked[..u] == reranked;
  }

  /** The middle split loop: one list's items, each kept per match. */
  method KeepAll(items: seq<Item>, reranked: seq<Item>) returns (aggregated: seq<Item>)
    ensures aggregated == Kept(items, reranked)
  {
    aggregated := [];
    var t := 0;
    while t < |items|
      invariant 0 <= t <= |items|
      invariant aggregated == Kept(items[..t], reranked)
    {
      var found := MatchAll(items[t], reranked);
      assert items[..t + 1][..t] == items[..t];
      aggregated := aggregated + found;
      t := t + 1;
    }
    assert items[..t] == items;
  }

  /** The split loop: for every list, for every item, for every reranked
      item with the same id, the item is kept. */
  method SplitBySource(lists: seq<Items>, reranked: seq<Item>) returns (out: seq<Items>)
    ensures out == Split(lists, reranked)
  {
    out := [];
    var i := 0;
    while i < |lists|
      invariant 0 <= i <= |lists|
      invariant out == Split(lists[..i], reranked)
    {
      var aggregated := KeepAll(lists[i].items, reranked);
      assert Split(lists[..i + 1], reranked) == Split(lists[..i], reranked) + [Items(lists[i].id, aggregated)];
      out := out + [Items(lists[i].id, aggregated)];
      i := i + 1;
    }
    assert lists[..i] == lists;
  }

  /** Splitting by source makes one list per source with the requested
      size as its capacity, which panics for a negative size. */
  predicate SplitPanics(req: MSearchRequest, lists: seq<Items>)
    requires req.aggregate.Some?
  {
    req.aggregate.value.preserveSource && req.size < 0 && |lists| > 0
  }

  /** What the aggregation returns for a given outcome of the switch. */
  function Distribute(req: MSearchRequest, lists: seq<Items>, rr: Result<seq<Item>, GoError>): (r: Result<seq<Items>, GoError>)
    requires req.aggregate.Some?
    ensures r.Err? <==> rr.Err? || SplitPanics(req, lists)
    ensures rr.Err? ==> r == Err(rr.error)
    ensures rr.Ok? && SplitPanics(req, lists) ==> r == Err(Rrf.MakeslicePanic)
    ensures r.Ok? && !req.aggregate.value.preserveSource ==> r.value == [Items("", rr.value)]
    ensures r.Ok? && req.aggregate.value.preserveSource ==> (|r.value| == |lists| &&
      forall i :: 0 <= i < |lists| ==> r.value[i].id == lists[i].id)
  {
    match rr
    case Err(e) => Err(e)
    case Ok(items) =>
      if req.aggregate.value.preserveSource then
        if SplitPanics(req, lists) then Err(Rrf.MakeslicePanic) else Ok(Split(lists, items))
      else Ok([Items("", items)])
  }

  /** `aggregateMsearchResults`, with the corrected tagging of the
      preserve-source split. */
  method AggregateMsearchResults(req: MSearchRequest, cfg: SearchConfig, lists: seq<Items>, rerankers: Rerankers)
    returns (r: Result<seq<Items>, GoError>)
    ensures req.aggregate.None? ==> r == Ok(lists)
    ensures req.aggregate.Some? ==> exists rr :: Reranked(req, cfg, lists, rerankers, rr) && r == Distribute(req, lists, rr)
  {
    if req.aggregate.None? {
      return Ok(lists);
    }
    var rr: Result<seq<Item>, GoError>;
    var m := Lower(req.aggregate.value.methodName);
    if m == "flatten_reranker" {
      var decision: Result<Option<string>, GoError>;
      if cfg.reranker.Some? {
        var use := UseReranker(req.requests, cfg.reranker.value, req.rawQuery);
        if use.Err? {
          decision := Err(use.error);
        } else if use.value {
          decision := Ok(Some(cfg.reranker.value.rerankerType));
        } else {
          decision := Ok(None);
        }
      } else {
        decision := Ok(Some("e5"));
      }
      assert decision == FlattenDecision(req, cfg);
      if decision.Err? {
        rr := Err(decision.error);
      } else if decision.value.None? {
        var flat: seq<Item> := [];
        var l := 0;
        while l < |lists|
          invariant 0 <= l <= |lists|
          invariant flat == FR.Flatten(lists[..l])
        {
          FR.FlattenSnoc(lists, l);
          flat := flat + lists[l].items;
          l := l + 1;
        }
        assert lists[..l] == lists;
        var sorted := SortByScore(flat);
        rr := Ok(sorted);
      } else {
        var t := decision.value.value;
        if rerankers(t).None? {
          rr := Err(Error("no reranker"));
        } else if req.rawQuery == "" {
          rr := Err(RawQueryMissing);
        } else {
          var fr := FR.Aggregate(lists, FR.EmptyConfig, req.rawQuery, req.size, rerankers(t).value);
          if fr == Err(RerankerTimeout) {
            rr := Rrf.Aggregate(ItemsOf(lists), req.size);
          } else {
            rr := fr;
          }
        }
      }
    } else if m == "rrf" {
      rr := Rrf.Aggregate(ItemsOf(lists), req.size);
    } else {
      rr := Err(Error("invalid aggregate method"));
    }
    assert Reranked(req, cfg, lists, rerankers, rr);
    if rr.Err? {
      r := Err(rr.error);
    } else if req.aggregate.value.preserveSource && req.size < 0 && |lists| > 0 {
      r := Err(Rrf.MakeslicePanic);
    } else if req.aggregate.value.preserveSource {
      var split := SplitBySource(lists, rr.value);
      r := Ok(split);
    } else {
      r := Ok([Items("", rr.value)]);
    }
    assert r == Distribute(req, lists, rr);
  }

  const RawQueryRequired := Error("raw query is empty. reranker requires raw query in msearch if reranker is set in search config")

  /** Every request without a raw query of its own takes the
      multi-search's raw query; the others are kept. */
  function FillRaw(reqs: seq<SearchRequest>, raw: string): (r: seq<SearchRequest>)
    ensures |r| == |reqs|
    ensures forall i :: 0 <= i < |reqs| ==>
      r[i].rawQuery == (if reqs[i].rawQuery == "" then raw else reqs[i].rawQuery) && r[i].(rawQuery := reqs[i].rawQuery) == reqs[i]
  {
    if |reqs| == 0 then []
    else [if reqs[0].rawQuery == "" then reqs[0].(rawQuery := raw) else reqs[0]] + FillRaw(reqs[1..], raw)
  }

  /** The first step of `getMultiSearchResults`: with a reranker whose
      query source is the raw query, the multi-search must carry a raw
      query, and every request without one of its own takes it in place;
      a nil query-source message is dereferenced. Otherwise the request is
      left as it is. */
  function FillRawQueries(req: MSearchRequest, cfg: SearchConfig): (r: Result<MSearchRequest, GoError>)
    ensures cfg.reranker.None? ==> r == Ok(req)
    ensures cfg.reranker.Some? && cfg.reranker.value.querySource.NilQuerySource? ==> r == Err(NilDerefPanic)
    ensures cfg.reranker.Some? && cfg.reranker.value.querySource.RawQuerySource? ==>
      if req.rawQuery == "" then r == Err(RawQueryRequired)
      else r == Ok(req.(requests := FillRaw(req.requests, req.rawQuery)))
    ensures (cfg.reranker.Some? && !cfg.reranker.value.querySource.NilQuerySource? &&
      !cfg.reranker.value.querySource.RawQuerySource?) ==> r == Ok(req)
  {
    if cfg.reranker.None? then Ok(req)
    else match cfg.reranker.value.querySource
      case NilQuerySource => Err(NilDerefPanic)
      case RawQuerySource =>
        if req.rawQuery == "" then Err(RawQueryRequired)
        else Ok(req.(requests := FillRaw(req.requests, req.rawQuery)))
      case _ => Ok(req)
  }

  /** After the fill, a raw-query reranker reranks the flattened results
      exactly when some request brought a raw query of its own that differs
      from the multi-search's: the requests that had none now agree. */
  lemma FilledRawQueriesRerank(req: MSearchRequest, cfg: SearchConfig)
    requires cfg.reranker.Some? && cfg.reranker.value.querySource.RawQuerySource?
    requires FillRawQueries(req, cfg).Ok?
    ensures var filled := FillRawQueries(req, cfg).value;
      NeedsRerank(filled.requests, cfg.reranker.value, filled.rawQuery) == Ok(false) <==>
      forall i :: 0 <= i < |req.requests| ==> (req.requests[i].rawQuery == "" || req.requests[i].rawQuery == req.rawQuery)
  {
    var filled := FillRawQueries(req, cfg).value;
    var rc := cfg.reranker.value;
    NeedsRerankSpec(filled.requests, rc, filled.rawQuery);
    assert forall i :: 0 <= i < |req.requests| ==>
      (RerankQuery(filled.requests[i], rc) == Ok(filled.rawQuery) <==>
       (req.requests[i].rawQuery == "" || req.requests[i].rawQuery == req.rawQuery));
  }

  /** The concurrent per-request searches of a multi-search, outside the
      model: their results come back in completion order. */
  type MultiSearch = (SearcherFn, MSearchRequest, SearchConfig) -> Result<seq<Items>, GoError>

  /** `SearchServiceServer.MSearch`: a search config is required and only
      the "opensearch" searcher type is accepted, before any search; the
      raw queries are filled in, then the searches' error is returned as
      is and their results are aggregated for the filled request. */
  method MSearch(req: MSearchRequest, cfg: Option<SearchConfig>, searchers: Searchers, multi: MultiSearch,
                 rerankers: Rerankers) returns (r: Result<seq<Items>, GoError>)
    ensures cfg.None? ==> r == Err(Error("no search config"))
    ensures cfg.Some? && cfg.value.searcherType != "opensearch" ==>
      r == Err(Error("only opensearch searcher type is supported for msearch"))
    ensures cfg.Some? && cfg.value.searcherType == "opensearch" && searchers("opensearch").None? ==>
      r == Err(Error("no searcher"))
    ensures (cfg.Some? && cfg.value.searcherType == "opensearch" && searchers("opensearch").Some? &&
      FillRawQueries(req, cfg.value).Err?) ==> r == Err(FillRawQueries(req, cfg.value).error)
    ensures (cfg.Some? && cfg.value.searcherType == "opensearch" && searchers("opensearch").Some? &&
      FillRawQueries(req, cfg.value).Ok?) ==>
      var filled := FillRawQueries(req, cfg.value).value;
      var searched := multi(searchers("opensearch").value, filled, cfg.value);
      (searched.Err? ==> r == Err(searched.error)) &&
      (searched.Ok? && req.aggregate.None? ==> r == searched) &&
      (searched.Ok? && req.aggregate.Some? ==>
         exists rr :: Reranked(filled, cfg.value, searched.value, rerankers, rr) && r == Distribute(filled, searched.value, rr))
  {
    if cfg.None? {
      return Err(Error("no search config"));
    }
    if cfg.value.searcherType != "opensearch" {
      return Err(Error("only opensearch searcher type is supported for msearch"));
    }
    var searcher := searchers(cfg.value.searcherType);
    if searcher.None? {
      return Err(Error("no searcher"));
    }
    var filled := FillRawQueries(req, cfg.value);
    if filled.Err? {
      return Err(filled.error);
    }
    var searched := multi(searcher.value, filled.value, cfg.value);
    if searched.Err? {
      return Err(searched.error);
    }
    r := AggregateMsearchResults(filled.value, cfg.value, searched.value, rerankers);
  }
}
