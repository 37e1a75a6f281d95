/** Merging of the search function's result chunks: chunks of the same news
    article are joined into the first one, and at most five articles are
    kept. Go strings are byte strings; each char here stands for one byte. */
module MergeChunks {
  import opened Common

  /** A search reference as far as merging is concerned: its news id, its
      content and the other attributes, carried along unchanged. */
  datatype Reference = Reference(id: string, newsId: string, content: string, attributes: map<string, string>)

  const MaxChunkSize := 1000
  const MaxChunkNumber := 5

  /** `s[:min(len(s), 1000)]`. */
  function Cut(s: string): (r: string)
    ensures |r| == Min(|s|, MaxChunkSize) && r == s[..|r|]
  {
    s[..Min(|s|, MaxChunkSize)]
  }

  function NewsIds(refs: seq<Reference>): (r: seq<string>)
    ensures |r| == |refs|
    ensures forall i :: 0 <= i < |refs| ==> r[i] == refs[i].newsId
  {
    seq(|refs|, i requires 0 <= i < |refs| => refs[i].newsId)
  }

  /** The index of the first held chunk of an article, if any. */
  function IndexOfNews(merged: seq<Reference>, newsId: string): (r: Option<nat>)
    ensures r.Some? ==> (r.value < |merged| && merged[r.value].newsId == newsId &&
      forall j :: 0 <= j < r.value ==> merged[j].newsId != newsId)
    ensures r.None? <==> newsId !in NewsIds(merged)
    decreases |merged|
  {
    if |merged| == 0 then None
    else if merged[0].newsId == newsId then Some(0)
    else match IndexOfNews(merged[1..], newsId)
      case None => None
      case Some(i) => Some(i + 1)
  }

  /** One chunk processed: appended to the article held already (with a
      newline, cut to 1000 bytes), or held as a new article. */
  function Absorb(merged: seq<Reference>, chunk: Reference): seq<Reference>
  {
    match IndexOfNews(merged, chunk.newsId)
    case Some(i) => merged[i := merged[i].(content := Cut(merged[i].content + "\n" + chunk.content))]
    case None => merged + [chunk]
  }

  /** The chunks processed in order; once five articles are held the rest
      is not looked at. */
  function Merged(chunks: seq<Reference>): seq<Reference>
  {
    if |chunks| == 0 then []
    else
      var m := Merged(chunks[..|chunks| - 1]);
      if |m| >= MaxChunkNumber then m else Absorb(m, chunks[|chunks| - 1])
  }

  /** The distinct values of a sequence in first-appearance order. */
  function Distinct(s: seq<string>): seq<string>
  {
    if |s| == 0 then []
    else
      var d := Distinct(s[..|s| - 1]);
      if s[|s| - 1] in d then d else d + [s[|s| - 1]]
  }

  lemma {:induction false} DistinctSpec(s: seq<string>)
    ensures NoDups(Distinct(s))
    ensures forall x :: x in Distinct(s) <==> x in s
    decreases |s|
  {
    if |s| > 0 {
      var front := s[..|s| - 1];
      DistinctSpec(front);
      assert s == front + [s[|s| - 1]];
      var d := Distinct(front);
      var x := s[|s| - 1];
      if x !in d {
        var e := d + [x];
        forall a, b | 0 <= a < b < |e| ensures e[a] != e[b] {
          if b == |d| { assert e[a] == d[a]; assert d[a] in d; }
        }
      }
    }
  }

  /** The first chunk of an article. */
  function FirstWith(chunks: seq<Reference>, newsId: string): Option<Reference>
  {
    if |chunks| == 0 then None
    else
      var earlier := FirstWith(chunks[..|chunks| - 1], newsId);
      if earlier.Some? then earlier
      else if chunks[|chunks| - 1].newsId == newsId then Some(chunks[|chunks| - 1])
      else None
  }

  /** How many chunks belong to an article. */
  function CountNews(chunks: seq<Reference>, newsId: string): nat
  {
    if |chunks| == 0 then 0
    else CountNews(chunks[..|chunks| - 1], newsId) + (if chunks[|chunks| - 1].newsId == newsId then 1 else 0)
  }

  lemma {:induction false} FirstWithSpec(chunks: seq<Reference>, newsId: string)
    ensures FirstWith(chunks, newsId).Some? <==> newsId in NewsIds(chunks)
    ensures FirstWith(chunks, newsId).Some? ==> FirstWith(chunks, newsId).value.newsId == newsId
    ensures newsId in NewsIds(chunks) <==> CountNews(chunks, newsId) > 0
    decreases |chunks|
  {
    if |chunks| > 0 {
      var front := chunks[..|chunks| - 1];
      FirstWithSpec(front, newsId);
      assert NewsIds(chunks) == NewsIds(front) + [chunks[|chunks| - 1].newsId];
    }
  }

  /** Absorbing keeps the held articles and adds the chunk's if new. */
  lemma AbsorbIds(m: seq<Reference>, chunk: Reference)
    ensures NewsIds(Absorb(m, chunk)) ==
      if chunk.newsId in NewsIds(m) then NewsIds(m) else NewsIds(m) + [chunk.newsId]
  {
    var r := Absorb(m, chunk);
    match IndexOfNews(m, chunk.newsId)
    case Some(i) =>
      assert NewsIds(r) == NewsIds(m);
    case None =>
      assert NewsIds(r) == NewsIds(m) + [chunk.newsId];
  }

  /** The held articles are the first five distinct news ids, in order of
      first appearance; so there are at most five and none twice. */
  lemma MergedIds(chunks: seq<Reference>)
    ensures var d := Distinct(NewsIds(chunks));
      NewsIds(Merged(chunks)) == d[..Min(MaxChunkNumber, |d|)]
    ensures |Merged(chunks)| <= MaxChunkNumber
    ensures NoDups(NewsIds(Merged(chunks)))
  {
    var d := Distinct(NewsIds(chunks));
    DistinctSpec(NewsIds(chunks));
    MergedIdsPrefix(chunks);
    var r := NewsIds(Merged(chunks));
    forall a, b | 0 <= a < b < |r| ensures r[a] != r[b] {
      assert r[a] == d[a] && r[b] == d[b];
    }
  }

  lemma {:induction false} MergedIdsPrefix(chunks: seq<Reference>)
    ensures var d := Distinct(NewsIds(chunks));
      NewsIds(Merged(chunks)) == d[..Min(MaxChunkNumber, |d|)]
    decreases |chunks|
  {
    if |chunks| > 0 {
      MergedIdsPrefix(chunks[..|chunks| - 1]);
      MergedIdsStep(chunks);
    }
  }

  /** One more chunk keeps the held ids the first five distinct ones. */
  lemma MergedIdsStep(chunks: seq<Reference>)
    requires |chunks| > 0
    requires var df := Distinct(NewsIds(chunks[..|chunks| - 1]));
      NewsIds(Merged(chunks[..|chunks| - 1])) == df[..Min(MaxChunkNumber, |df|)]
    ensures var d := Distinct(NewsIds(chunks));
      NewsIds(Merged(chunks)) == d[..Min(MaxChunkNumber, |d|)]
  {
    var n := |chunks| - 1;
    var front := chunks[..n];
    var x := chunks[n];
    var m := Merged(front);
    var df := Distinct(NewsIds(front));
    var d := Distinct(NewsIds(chunks));
    assert NewsIds(chunks) == NewsIds(front) + [x.newsId];
    assert NewsIds(chunks)[..n] == NewsIds(front);
    assert d == if x.newsId in df then df else df + [x.newsId];
    if |m| < MaxChunkNumber {
      assert NewsIds(m) == df;
      AbsorbIds(m, x);
    } else {
      assert d[..MaxChunkNumber] == df[..MaxChunkNumber];
    }
  }

  /** Every held entry is the first chunk of its article, except that its
      content may have grown by merging; an article with a single chunk is
      held untouched, and a changed content is at most 1000 bytes. */
  lemma {:induction false} MergedEntries(chunks: seq<Reference>)
    ensures forall j :: 0 <= j < |Merged(chunks)| ==>
      var e := Merged(chunks)[j];
      var first := FirstWith(chunks, e.newsId);
      first.Some? &&
      e.(content := first.value.content) == first.value &&
      (CountNews(chunks, e.newsId) == 1 ==> e == first.value) &&
      (e != first.value ==> |e.content| <= MaxChunkSize)
    decreases |chunks|
  {
    if |chunks| > 0 {
      var n := |chunks| - 1;
      var front := chunks[..n];
      var x := chunks[n];
      MergedEntries(front);
      MergedIds(front);
      var m := Merged(front);
      var r := Merged(chunks);
      forall j | 0 <= j < |r|
        ensures var e := r[j];
          var first := FirstWith(chunks, e.newsId);
          first.Some? &&
          e.(content := first.value.content) == first.value &&
          (CountNews(chunks, e.newsId) == 1 ==> e == first.value) &&
          (e != first.value ==> |e.content| <= MaxChunkSize)
      {
        var e := r[j];
        if j < |m| {
          var id := m[j].newsId;
          assert id in NewsIds(m);
          assert NewsIds(m) == Distinct(NewsIds(front))[..|m|];
          DistinctSpec(NewsIds(front));
          assert id in Distinct(NewsIds(front));
          FirstWithSpec(front, id);
          assert FirstWith(chunks, id) == FirstWith(front, id);
          assert CountNews(front, id) >= 1;
          if |m| >= MaxChunkNumber {
            assert r == m;
          } else {
            match IndexOfNews(m, x.newsId)
            case Some(i) =>
              assert r == m[i := m[i].(content := Cut(m[i].content + "\n" + x.content))];
              if i == j {
                assert x.newsId == id;
                assert CountNews(chunks, id) >= 2;
              } else {
                assert e == m[j];
              }
            case None =>
              assert r == m + [x];
              assert e == m[j];
          }
        } else {
          assert |m| < MaxChunkNumber;
          assert r == Absorb(m, x);
          assert IndexOfNews(m, x.newsId).None?;
          assert e == x;
          assert NewsIds(m) == Distinct(NewsIds(front));
          DistinctSpec(NewsIds(front));
          FirstWithSpec(front, x.newsId);
        }
      }
    }
  }

  /** Once five articles are held, later chunks change nothing. */
  lemma {:induction false} MergedSaturated(chunks: seq<Reference>, k: nat)
    requires k <= |chunks|
    requires |Merged(chunks[..k])| >= MaxChunkNumber
    ensures Merged(chunks) == Merged(chunks[..k])
    decreases |chunks| - k
  {
    if k < |chunks| {
      assert chunks[..k + 1][..k] == chunks[..k];
      MergedSaturated(chunks, k + 1);
    } else {
      assert chunks[..k] == chunks;
    }
  }

  /** The inner loop of `mergeChunks`: the first held entry of the chunk's
      article absorbs it, or it is held as a new article. */
  method AbsorbChunk(held: seq<Reference>, chunk: Reference) returns (merged: seq<Reference>)
    ensures merged == Absorb(held, chunk)
  {
    merged := held;
    var i := 0;
    while i < |merged|
      invariant 0 <= i <= |merged| && merged == held
      invariant forall j :: 0 <= j < i ==> merged[j].newsId != chunk.newsId
    {
      if merged[i].newsId == chunk.newsId {
        assert IndexOfNews(merged, chunk.newsId) == Some(i);
        merged := merged[i := merged[i].(content := Cut(merged[i].content + "\n" + chunk.content))];
        return;
      }
      i := i + 1;
    }
    assert IndexOfNews(merged, chunk.newsId).None?;
    merged := merged + [chunk];
  }

  /** `mergeChunks`: for each chunk, the first held entry of the same article
      absorbs it, or it is held as a new article; the loop stops once five
      are held. */
  method MergeChunks(chunks: seq<Reference>) returns (merged: seq<Reference>)
    ensures merged == Merged(chunks)
  {
    merged := [];
    var k := 0;
    while k < |chunks|
      invariant 0 <= k <= |chunks|
      invariant merged == Merged(chunks[..k])
      invariant |merged| < MaxChunkNumber
    {
      assert chunks[..k + 1][..k] == chunks[..k];
      merged := AbsorbChunk(merged, chunks[k]);
      k := k + 1;
      if |merged| >= MaxChunkNumber {
        MergedSaturated(chunks, k);
        return;
      }
    }
    assert chunks[..k] == chunks;
  }
}
