/** Go-side values shared by the search, conversation and backend models:
    the `map[string]interface{}` trees that are marshalled to JSON, the
    protobuf Item, and Go's error and panic outcomes. */
module GoValue {
  import opened Common

  /** A value stored in a `map[string]interface{}` query tree. Numbers that
      the code writes are integers; float32 embeddings are kept as exact reals. */
  datatype Val =
    | Null
    | Bool(b: bool)
    | Int(i: int)
    | Num(r: real)
    | Str(s: string)
    | List(items: seq<Val>)
    | Obj(fields: map<string, Val>)
    | Vector(v: seq<real>)

  /** What a Go call can end in besides its result: a returned `error`
      (identified by its message) or a run-time panic. */
  datatype GoError =
    | Error(msg: string)
    | Panic(msg: string)

  /** The run-time panic of dereferencing nil. */
  const NilDereference := Panic("invalid memory address or nil pointer dereference")

  /** `reranker.ErrRerankerTimeout`, compared by identity in the source. */
  const RerankerTimeout := Error("reranker timeout")

  /** `proto.Item`: an id, the `_source` attributes and a float score. */
  datatype Item = Item(id: string, attributes: map<string, Val>, score: real)

  /** `proto.Items`: one request's result list, tagged with the request id. */
  datatype Items = Items(id: string, items: seq<Item>)

  /** The item lists of several tagged lists, in order. */
  function ItemsOf(lists: seq<Items>): (r: seq<seq<Item>>)
    ensures |r| == |lists|
    ensures forall i :: 0 <= i < |lists| ==> r[i] == lists[i].items
  {
    seq(|lists|, i requires 0 <= i < |lists| => lists[i].items)
  }

  /** Walks nested objects along a path of keys. */
  function At(v: Val, path: seq<string>): (r: Option<Val>)
    ensures |path| == 0 ==> r == Some(v)
    decreases |path|
  {
    if |path| == 0 then Some(v)
    else if v.Obj? && path[0] in v.fields then At(v.fields[path[0]], path[1..])
    else None
  }

  /** One step of a path walk. */
  lemma AtStep(v: Val, k: string, rest: seq<string>)
    requires v.Obj? && k in v.fields
    ensures At(v, [k] + rest) == At(v.fields[k], rest)
  {
    assert ([k] + rest)[0] == k && ([k] + rest)[1..] == rest;
  }

  /** A Go `map[string]string` read: the zero value "" when the key is absent. */
  function Get(m: map<string, string>, k: string): string {
    if k in m then m[k] else ""
  }

  /** Go `[]T(nil)` vs a value: a slice that may be nil. */
  function OrEmpty<T>(s: Option<seq<T>>): seq<T> {
    if s.Some? then s.value else []
  }

  /** The ids of a list of items, in order. */
  function Ids(items: seq<Item>): (r: seq<string>)
    ensures |r| == |items|
    ensures forall i :: 0 <= i < |items| ==> r[i] == items[i].id
  {
    seq(|items|, i requires 0 <= i < |items| => items[i].id)
  }

  /** Items sorted by non-increasing score. */
  predicate SortedByScore(items: seq<Item>) {
    forall i, j :: 0 <= i < j < |items| ==> items[i].score >= items[j].score
  }

  /** Go's int32 conversion of a mathematical integer: two's-complement
      wrap-around into [-2^31, 2^31). */
  function Int32(x: int): (r: int)
    ensures -0x8000_0000 <= r < 0x8000_0000
    ensures -0x8000_0000 <= x < 0x8000_0000 ==> r == x
    ensures (r - x) % 0x1_0000_0000 == 0
  {
    (x + 0x8000_0000) % 0x1_0000_0000 - 0x8000_0000
  }
}
