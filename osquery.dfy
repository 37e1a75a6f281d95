/** The OpenSearch searcher's query assembly and response mapping: range
    filters are merged into the strategy's bool query, the compound strategy
    wraps it, the size is set, and search hits become items. */
module OpenSearchQuery {
  import opened Common
  import opened GoValue
  import FunctionScore

  /** The query strategy configured for the searcher. */
  datatype StrategyKind = TextStrategyKind | VectorStrategyKind | NoStrategyKind

  /** `getQueryStrategyType`. */
  function QueryStrategyType(kind: StrategyKind): (r: Result<string, GoError>)
    ensures r.Ok? <==> kind != NoStrategyKind
    ensures kind == TextStrategyKind ==> r == Ok("text")
    ensures kind == VectorStrategyKind ==> r == Ok("vector")
    ensures r.Err? ==> r.error == Error("invalid query strategy type")
  {
    match kind
    case TextStrategyKind => Ok("text")
    case VectorStrategyKind => Ok("vector")
    case NoStrategyKind => Err(Error("invalid query strategy type"))
  }

  /** The compound strategy configured for the searcher, if any. */
  datatype Compound = FunctionScoreCompound(functions: seq<Val>) | OtherCompound

  /** The `{"range": v}` clause of every filter that has a "range" key, in
      filter order. Within one filter only the "range" key acts, so the
      order in which a filter's keys are visited does not matter. */
  function RangeClauses(filters: seq<map<string, Val>>): (r: seq<Val>)
    ensures |r| <= |filters|
  {
    if |filters| == 0 then []
    else
      var n := |filters| - 1;
      RangeClauses(filters[..n]) + (if "range" in filters[n] then [Obj(map["range" := filters[n]["range"]])] else [])
  }

  /** The query has a `query.bool` object whose `must`, if present, is a list:
      what the type assertions in `createQuery` need. */
  predicate Mergeable(query: map<string, Val>) {
    "query" in query && query["query"].Obj? &&
    "bool" in query["query"].fields && query["query"].fields["bool"].Obj? &&
    ("must" in query["query"].fields["bool"].fields ==> query["query"].fields["bool"].fields["must"].List?)
  }

  /** The `must` list of a mergeable query; absent means empty. */
  function MustOf(query: map<string, Val>): seq<Val>
    requires Mergeable(query)
  {
    var b := query["query"].fields["bool"].fields;
    if "must" in b then b["must"].items else []
  }

  /** The query with `clauses` appended to `query.bool.must`. */
  function WithMust(query: map<string, Val>, clauses: seq<Val>): (r: map<string, Val>)
    requires Mergeable(query)
    ensures Mergeable(r) && MustOf(r) == MustOf(query) + clauses
    ensures r.Keys == query.Keys
  {
    var q := query["query"].fields;
    var b := q["bool"].fields;
    query["query" := Obj(q["bool" := Obj(b["must" := List(MustOf(query) + clauses)])])]
  }

  /** The panic of a failed type assertion in the range branch. */
  const AssertionPanic := Panic("interface conversion: interface {} is nil, not map[string]interface {}")

  /** The range-filter loop of `createQuery`: with no range filter the query
      is untouched; otherwise it must have a bool clause (the assertions
      panic otherwise) and the ranges are appended to `must` in order. */
  function AddRanges(query: map<string, Val>, filters: seq<map<string, Val>>): Result<map<string, Val>, GoError>
  {
    var ranges := RangeClauses(filters);
    if |ranges| == 0 then Ok(query)
    else if !Mergeable(query) then Err(AssertionPanic)
    else Ok(WithMust(query, ranges))
  }

  lemma RangeClausesSnoc(filters: seq<map<string, Val>>, i: nat)
    requires i < |filters|
    ensures RangeClauses(filters[..i + 1]) == RangeClauses(filters[..i]) +
      (if "range" in filters[i] then [Obj(map["range" := filters[i]["range"]])] else [])
  {
    assert filters[..i + 1][..i] == filters[..i];
  }

  /** The range-filter loop, as a loop over the filters that updates the query. */
  method AddRangeFilters(query: map<string, Val>, filters: seq<map<string, Val>>) returns (r: Result<map<string, Val>, GoError>)
    ensures r == AddRanges(query, filters)
  {
    var q := query;
    var i := 0;
    while i < |filters|
      invariant 0 <= i <= |filters|
      invariant |RangeClauses(filters[..i])| == 0 ==> q == query
      invariant |RangeClauses(filters[..i])| > 0 ==> Mergeable(query) && q == WithMust(query, RangeClauses(filters[..i]))
    {
      RangeClausesSnoc(filters, i);
      if "range" in filters[i] {
        if !Mergeable(q) {
          assert |RangeClauses(filters[..i])| == 0;
          assert filters[..i + 1] == filters[..i + 1];
          RangeTail(filters, i + 1);
          return Err(AssertionPanic);
        }
        var clause := Obj(map["range" := filters[i]["range"]]);
        assert |RangeClauses(filters[..i])| == 0 ==> Mergeable(query);
        q := WithMust(q, [clause]);
        WithMustTwice(query, RangeClauses(filters[..i]), [clause]);
        assert RangeClauses(filters[..i + 1]) == RangeClauses(filters[..i]) + [clause];
      } else {
        assert RangeClauses(filters[..i + 1]) == RangeClauses(filters[..i]) + [];
        assert RangeClauses(filters[..i]) + [] == RangeClauses(filters[..i]);
      }
      i := i + 1;
    }
    assert filters[..i] == filters;
    return Ok(q);
  }

  /** Range clauses only grow with more filters. */
  lemma RangeTail(filters: seq<map<string, Val>>, i: nat)
    requires i <= |filters|
    ensures |RangeClauses(filters[..i])| <= |RangeClauses(filters)|
    decreases |filters| - i
  {
    if i < |filters| {
      RangeClausesSnoc(filters, i);
      RangeTail(filters, i + 1);
    } else {
      assert filters[..i] == filters;
    }
  }

  lemma WithMustTwice(query: map<string, Val>, a: seq<Val>, b: seq<Val>)
    requires Mergeable(query)
    ensures |a| == 0 ==> WithMust(query, b) == WithMust(query, a + b)
    ensures WithMust(WithMust(query, a), b) == WithMust(query, a + b)
  {
    if |a| == 0 {
      assert a + b == b;
    }
    var q := query["query"].fields;
    var bl := q["bool"].fields;
    var once := WithMust(query, a);
    assert once["query"].fields == q["bool" := Obj(bl["must" := List(MustOf(query) + a)])];
    assert once["query"].fields["bool"].fields == bl["must" := List(MustOf(query) + a)];
    assert MustOf(query) + a + b == MustOf(query) + (a + b);
    var q1 := once["query"].fields;
    var b1 := q1["bool"].fields;
    var must := List(MustOf(query) + (a + b));
    assert MustOf(once) + b == MustOf(query) + (a + b);
    assert b1["must" := must] == bl["must" := must];
    assert q1["bool" := Obj(b1["must" := must])] == q["bool" := Obj(bl["must" := must])];
    assert WithMust(once, b) == once["query" := Obj(q1["bool" := Obj(b1["must" := must])])];
    assert WithMust(query, a + b) == query["query" := Obj(q["bool" := Obj(bl["must" := must])])];
  }

  /** `createQuery` once the strategy has built its query: strategy errors
      are wrapped, range filters are merged, the compound strategy wraps the
      result, and the size (0 meaning 10) is set. */
  function CreateQuery(built: Result<map<string, Val>, GoError>, filters: seq<map<string, Val>>,
                       compound: Option<Compound>, size: int): Result<map<string, Val>, GoError>
  {
    match built
    case Err(Error(m)) => Err(Error("Error creating opensearch query: " + m))
    case Err(p) => Err(p)
    case Ok(query) =>
      match AddRanges(query, filters)
      case Err(e) => Err(e)
      case Ok(q) =>
        var wrapped :=
          match compound
          case None => Ok(q)
          case Some(OtherCompound) => Err(Error("invalid compound strategy type"))
          case Some(FunctionScoreCompound(fns)) =>
            match FunctionScore.CreateCompoundQuery(q, fns)
            case Err(Error(m)) => Err(Error("Error creating compound query: " + m))
            case Err(p) => Err(p)
            case Ok(v) => Ok(v.fields);
        match wrapped
        case Err(e) => Err(e)
        case Ok(w) => Ok(w["size" := Int(if size == 0 then 10 else size)])
  }

  /** A successful query always carries its size, with 0 read as 10; without
      a compound strategy the range filters sit at the end of `bool.must`. */
  lemma CreateQuerySize(built: Result<map<string, Val>, GoError>, filters: seq<map<string, Val>>,
                        compound: Option<Compound>, size: int)
    ensures var r := CreateQuery(built, filters, compound, size);
      r.Ok? ==> "size" in r.value && r.value["size"] == Int(if size == 0 then 10 else size)
    ensures var r := CreateQuery(built, filters, compound, size);
      r.Ok? && compound.None? && |RangeClauses(filters)| > 0 ==>
        Mergeable(built.value) &&
        r.value == WithMust(built.value, RangeClauses(filters))["size" := Int(if size == 0 then 10 else size)]
    ensures built.Ok? && |RangeClauses(filters)| > 0 && !Mergeable(built.value) ==>
      CreateQuery(built, filters, compound, size) == Err(AssertionPanic)
    ensures compound == Some(OtherCompound) && built.Ok? && AddRanges(built.value, filters).Ok? ==>
      CreateQuery(built, filters, compound, size) == Err(Error("invalid compound strategy type"))
  {
  }

  /** Only filters with a range key matter: filters without one can be
      dropped or added without changing the query. */
  lemma {:induction false} RangeClausesIgnoreOthers(filters: seq<map<string, Val>>, other: map<string, Val>)
    requires "range" !in other
    ensures RangeClauses(filters + [other]) == RangeClauses(filters)
  {
    assert (filters + [other])[..|filters|] == filters;
  }

  /** One search hit as an item: `_id` must be a string and `_source` an
      object (the type assertions panic otherwise); the score is left 0. */
  function HitItem(hit: Val): Result<Item, GoError>
  {
    if hit.Obj? && "_id" in hit.fields && hit.fields["_id"].Str? &&
       "_source" in hit.fields && hit.fields["_source"].Obj?
    then Ok(Item(hit.fields["_id"].s, hit.fields["_source"].fields, 0.0))
    else Err(AssertionPanic)
  }

  /** `r["hits"]["hits"]` as a list, or the assertion panic. */
  function HitsOf(resp: Val): Result<seq<Val>, GoError>
  {
    if resp.Obj? && "hits" in resp.fields && resp.fields["hits"].Obj? &&
       "hits" in resp.fields["hits"].fields && resp.fields["hits"].fields["hits"].List?
    then Ok(resp.fields["hits"].fields["hits"].items)
    else Err(AssertionPanic)
  }

  /** The first hit that does not map, scanning in order. */
  function FirstBadHit(hits: seq<Val>): Option<nat>
  {
    if |hits| == 0 then None
    else
      var n := |hits| - 1;
      var earlier := FirstBadHit(hits[..n]);
      if earlier.Some? then earlier else if HitItem(hits[n]).Err? then Some(n) else None
  }

  /** `osSearchResponseToProto` on the decoded body: hits map one-to-one and
      in order to items with id `_id` and attributes `_source`. */
  function ResponseItems(body: Result<Val, string>): (r: Result<seq<Item>, GoError>)
  {
    match body
    case Err(m) => Err(Error("Error parsing the response body: " + m))
    case Ok(resp) =>
      match HitsOf(resp)
      case Err(e) => Err(e)
      case Ok(hits) =>
        if FirstBadHit(hits).Some? then Err(AssertionPanic)
        else Ok(seq(|hits|, i requires 0 <= i < |hits| => ItemOf(hits[i])))
  }

  /** The item of a hit that maps. */
  function ItemOf(hit: Val): Item {
    match HitItem(hit)
    case Ok(item) => item
    case Err(_) => Item("", map[], 0.0)
  }

  lemma {:induction false} FirstBadHitSpec(hits: seq<Val>)
    ensures FirstBadHit(hits).None? <==> forall i :: 0 <= i < |hits| ==> HitItem(hits[i]).Ok?
    decreases |hits|
  {
    if |hits| > 0 {
      var n := |hits| - 1;
      FirstBadHitSpec(hits[..n]);
      assert forall i :: 0 <= i < n ==> hits[..n][i] == hits[i];
    }
  }

  /** Hits map one-to-one, in order: the i-th item has the i-th hit's `_id`
      and `_source`, and any hit of the wrong shape makes the call panic. */
  lemma ResponseItemsSpec(resp: Val)
    requires HitsOf(resp).Ok?
    ensures var hits := HitsOf(resp).value;
      var r := ResponseItems(Ok(resp));
      (r.Ok? <==> forall i :: 0 <= i < |hits| ==> HitItem(hits[i]).Ok?) &&
      (r.Ok? ==> (|r.value| == |hits| &&
        forall i :: 0 <= i < |hits| ==>
          r.value[i].id == hits[i].fields["_id"].s && r.value[i].attributes == hits[i].fields["_source"].fields)) &&
      (r.Err? ==> r.error == AssertionPanic)
  {
    FirstBadHitSpec(HitsOf(resp).value);
  }

  /** `osSearchResponseToProto`, filling an items array by index. */
  method OsSearchResponseToProto(body: Result<Val, string>) returns (r: Result<seq<Item>, GoError>)
    ensures r == ResponseItems(body)
  {
    if body.Err? {
      return Err(Error("Error parsing the response body: " + body.error));
    }
    var hitsOr := HitsOf(body.value);
    if hitsOr.Err? {
      return Err(hitsOr.error);
    }
    var hits := hitsOr.value;
    var items := new Item[|hits|](_ => Item("", map[], 0.0));
    var i := 0;
    while i < |hits|
      invariant 0 <= i <= |hits|
      invariant FirstBadHit(hits[..i]).None?
      invariant forall j :: 0 <= j < i ==> items[j] == ItemOf(hits[j])
    {
      assert hits[..i + 1][..i] == hits[..i];
      var item := HitItem(hits[i]);
      if item.Err? {
        FirstBadStays(hits, i + 1);
        return Err(item.error);
      }
      items[i] := item.value;
      i := i + 1;
    }
    assert hits[..i] == hits;
    assert items[..] == seq(|hits|, j requires 0 <= j < |hits| => ItemOf(hits[j]));
    return Ok(items[..]);
  }

  lemma {:induction false} FirstBadStays(hits: seq<Val>, i: nat)
    requires i <= |hits| && FirstBadHit(hits[..i]).Some?
    ensures FirstBadHit(hits).Some?
    decreases |hits| - i
  {
    if i < |hits| {
      var pre, next := hits[..i], hits[..i + 1];
      assert next[..|next| - 1] == pre;
      assert FirstBadHit(next) == FirstBadHit(pre);
      FirstBadStays(hits, i + 1);
    } else {
      assert hits[..i] == hits;
    }
  }
}
