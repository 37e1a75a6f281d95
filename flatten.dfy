/** The flatten-reranker aggregator: the result lists of a multi-search are
    concatenated and handed to a reranker in one call. */
module FlattenReranker {
  import opened Common
  import opened GoValue

  /** Where the reranker takes its query from (`proto.Reranker.QuerySource`).
      `NilQuerySource` is a nil `QuerySource` message; `NoSource` a message
      whose `Source` oneof is unset. */
  datatype QuerySource =
    | NilQuerySource
    | NoSource
    | RawQuerySource
    | QueryFieldSource(field: string)
    | ConcatQueryAndRawQuery(field: string)

  /** `proto.Reranker`: the reranker type name and its query source. */
  datatype RerankerConfig = RerankerConfig(rerankerType: string, querySource: QuerySource)

  /** `&proto.Reranker{}`: the empty configuration passed on in multi-search. */
  const EmptyConfig := RerankerConfig("", NilQuerySource)

  /** The arguments of one `Reranker.Rerank` call. */
  datatype RerankCall = RerankCall(config: RerankerConfig, query: string, items: seq<Item>, k: int)

  /** A reranker (e5, upstage): a remote call outside the model. */
  type Reranker = RerankCall -> Result<seq<Item>, GoError>

  /** All items of all lists, lists in order and items in order. */
  function Flatten(lists: seq<Items>): seq<Item>
  {
    if |lists| == 0 then []
    else Flatten(lists[..|lists| - 1]) + lists[|lists| - 1].items
  }

  /** The sum of the list lengths. */
  function TotalLength(lists: seq<Items>): nat
  {
    if |lists| == 0 then 0
    else TotalLength(lists[..|lists| - 1]) + |lists[|lists| - 1].items|
  }

  /** Flattening keeps every item: the length is the sum of the lengths. */
  lemma {:induction false} FlattenLength(lists: seq<Items>)
    ensures |Flatten(lists)| == TotalLength(lists)
    decreases |lists|
  {
    if |lists| > 0 {
      FlattenLength(lists[..|lists| - 1]);
    }
  }

  /** Flattening is concatenation in order: list i's item j sits right after
      the items of the lists before it. */
  lemma {:induction false} FlattenAt(lists: seq<Items>, i: nat, j: nat)
    requires i < |lists| && j < |lists[i].items|
    ensures TotalLength(lists[..i]) + j < |Flatten(lists)|
    ensures Flatten(lists)[TotalLength(lists[..i]) + j] == lists[i].items[j]
    decreases |lists|
  {
    var n := |lists| - 1;
    var front := lists[..n];
    assert Flatten(lists) == Flatten(front) + lists[n].items;
    if i < n {
      assert lists[..i] == front[..i];
      FlattenAt(front, i, j);
    } else {
      assert lists[..i] == front;
      FlattenLength(front);
    }
  }

  /** Flattening one more list appends its items. */
  lemma FlattenSnoc(lists: seq<Items>, l: nat)
    requires l < |lists|
    ensures Flatten(lists[..l + 1]) == Flatten(lists[..l]) + lists[l].items
  {
    assert lists[..l + 1][..l] == lists[..l];
  }

  /** The multiset of a flattened list is the union of the lists' multisets:
      flattening loses and invents no item. */
  lemma {:induction false} FlattenMultiset(lists: seq<Items>, x: Item)
    ensures multiset(Flatten(lists))[x] == CountIn(lists, x)
    decreases |lists|
  {
    if |lists| > 0 {
      FlattenMultiset(lists[..|lists| - 1], x);
    }
  }

  /** How often x occurs over all lists. */
  function CountIn(lists: seq<Items>, x: Item): nat
  {
    if |lists| == 0 then 0
    else CountIn(lists[..|lists| - 1], x) + multiset(lists[|lists| - 1].items)[x]
  }

  /** What `FlattenReranker.Aggregate` returns for given lists. */
  function FlattenRerank(lists: seq<Items>, config: RerankerConfig, query: string, k: int,
                         rerank: Reranker): Result<seq<Item>, GoError>
  {
    if |lists| == 0 then Ok([])
    else rerank(RerankCall(config, query, Flatten(lists), k))
  }

  /** `FlattenReranker.Aggregate`: no lists, no call and an empty (nil)
      result; otherwise one reranker call on the concatenation with the
      same configuration, query and k, whose outcome is returned as is. */
  method Aggregate(lists: seq<Items>, config: RerankerConfig, query: string, k: int,
                   rerank: Reranker) returns (r: Result<seq<Item>, GoError>)
    ensures |lists| == 0 ==> r == Ok([])
    ensures |lists| > 0 ==> r == rerank(RerankCall(config, query, Flatten(lists), k))
    ensures r == FlattenRerank(lists, config, query, k, rerank)
  {
    if |lists| == 0 {
      return Ok([]);
    }
    var flattened: seq<Item> := [];
    var l := 0;
    while l < |lists|
      invariant 0 <= l <= |lists|
      invariant flattened == Flatten(lists[..l])
    {
      FlattenSnoc(lists, l);
      flattened := flattened + lists[l].items;
      l := l + 1;
    }
    assert lists[..l] == lists;
    r := rerank(RerankCall(config, query, flattened, k));
  }
}
