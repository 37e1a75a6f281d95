/** data_ingestion/indexer/util/list_helper.py: `_split_chunks`, the generator
    of consecutive slices `l[i:i+n]` for i in range(0, len(l), n). */
module ListHelper {
  import opened Common
  import opened PyJson

  /** The chunks of l, each n long except possibly the last. */
  function SplitChunks<T>(l: seq<T>, n: nat): seq<seq<T>>
    requires n > 0
    decreases |l|
  {
    if |l| == 0 then []
    else if |l| <= n then [l]
    else [l[..n]] + SplitChunks(l[n..], n)
  }

  function Flatten<T>(ss: seq<seq<T>>): seq<T> {
    if |ss| == 0 then [] else ss[0] + Flatten(ss[1..])
  }

  /** `_split_chunks` as Python runs it: range() refuses a zero step with
      ValueError, a negative step yields no chunk at all. */
  function SplitChunksPy<T>(l: seq<T>, n: int): (r: Result<seq<seq<T>>, PyError>)
    ensures r.Err? <==> n == 0
    ensures r.Err? ==> r.error.ValueError?
    ensures n < 0 ==> r == Ok([])
    ensures n > 0 ==> r.Ok? && Flatten(r.value) == l && |r.value| == (|l| + n - 1) / n
  {
    if n == 0 then Err(ValueError("range() arg 3 must not be zero"))
    else if n < 0 then Ok([])
    else
      FlattenSplitChunks(l, n);
      ChunkCount(l, n);
      Ok(SplitChunks(l, n))
  }

  lemma FlattenAppend<T>(a: seq<seq<T>>, b: seq<seq<T>>)
    ensures Flatten(a + b) == Flatten(a) + Flatten(b)
  {
    if |a| > 0 {
      assert (a + b)[1..] == a[1..] + b;
      FlattenAppend(a[1..], b);
    } else {
      assert a + b == b;
    }
  }

  lemma DivAddN(x: nat, n: nat)
    requires n > 0
    ensures (x + n) / n == x / n + 1
  {
    var q, r := x / n, x % n;
    assert x == q * n + r;
    assert x + n == (q + 1) * n + r;
    DivUnique(x + n, n, q + 1, r);
  }

  /** Concatenating the chunks gives back the list, in order. */
  lemma {:induction false} FlattenSplitChunks<T>(l: seq<T>, n: nat)
    requires n > 0
    ensures Flatten(SplitChunks(l, n)) == l
    decreases |l|
  {
    if |l| == 0 {
    } else if |l| <= n {
      assert Flatten([l]) == l + Flatten([l][1..]);
    } else {
      FlattenSplitChunks(l[n..], n);
      var r := SplitChunks(l, n);
      assert r == [l[..n]] + SplitChunks(l[n..], n);
      assert r[0] == l[..n] && r[1..] == SplitChunks(l[n..], n);
      assert Flatten(r) == l[..n] + Flatten(SplitChunks(l[n..], n));
      assert l == l[..n] + l[n..];
    }
  }

  /** Every chunk except the last has exactly n elements; the last has 1..n. */
  lemma {:induction false} ChunkSizes<T>(l: seq<T>, n: nat)
    requires n > 0
    ensures var r := SplitChunks(l, n);
      (forall i :: 0 <= i < |r| - 1 ==> |r[i]| == n) &&
      (|r| > 0 ==> 1 <= |r[|r| - 1]| <= n)
    decreases |l|
  {
    if |l| > n {
      ChunkSizes(l[n..], n);
      var r := SplitChunks(l, n);
      var t := SplitChunks(l[n..], n);
      assert r == [l[..n]] + t;
      assert forall i :: 1 <= i < |r| ==> r[i] == t[i - 1];
    }
  }

  /** There are ceil(|l| / n) chunks; the empty list has none. */
  lemma {:induction false} ChunkCount<T>(l: seq<T>, n: nat)
    requires n > 0
    ensures |SplitChunks(l, n)| == (|l| + n - 1) / n
    ensures |l| == 0 <==> SplitChunks(l, n) == []
    decreases |l|
  {
    if |l| == 0 {
    } else if |l| <= n {
      assert (|l| + n - 1) / n == 1;
    } else {
      ChunkCount(l[n..], n);
      DivAddN(|l| - n + n - 1, n);
    }
  }

  /** Chunk k is the slice l[k*n : k*n + n], as the generator's range loop reads. */
  lemma {:induction false} ChunkAt<T>(l: seq<T>, n: nat, k: nat)
    requires n > 0 && k < |SplitChunks(l, n)|
    ensures k * n < |l|
    ensures SplitChunks(l, n)[k] == l[k * n .. Min(k * n + n, |l|)]
    decreases |l|
  {
    if |l| > n && k > 0 {
      ChunkAt(l[n..], n, k - 1);
      assert (k - 1) * n + n == k * n;
      assert l[n..][(k - 1) * n .. Min((k - 1) * n + n, |l| - n)] == l[k * n .. Min(k * n + n, |l|)];
    }
  }
}
