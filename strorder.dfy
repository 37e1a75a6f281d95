/** Go's ordering of strings (`<`, `slices.Sort`): lexicographic by bytes,
    here by characters. */
module StrOrder {
  import opened Common

  /** a sorts strictly before b. */
  predicate Less(a: string, b: string)
    decreases |a|
  {
    |b| > 0 && (|a| == 0 || a[0] < b[0] || (a[0] == b[0] && Less(a[1..], b[1..])))
  }

  lemma {:induction false} LessIrreflexive(a: string)
    ensures !Less(a, a)
    decreases |a|
  {
    if |a| > 0 {
      LessIrreflexive(a[1..]);
    }
  }

  lemma {:induction false} LessTransitive(a: string, b: string, c: string)
    requires Less(a, b) && Less(b, c)
    ensures Less(a, c)
    decreases |a|
  {
    if |a| > 0 && a[0] == b[0] && b[0] == c[0] {
      LessTransitive(a[1..], b[1..], c[1..]);
    }
  }

  lemma {:induction false} LessTotal(a: string, b: string)
    ensures a == b || Less(a, b) || Less(b, a)
    decreases |a|
  {
    if |a| > 0 && |b| > 0 && a[0] == b[0] {
      LessTotal(a[1..], b[1..]);
      if a[1..] == b[1..] {
        assert a == [a[0]] + a[1..] && b == [b[0]] + b[1..];
      }
    }
  }

  lemma LessAsymmetric(a: string, b: string)
    requires Less(a, b)
    ensures !Less(b, a)
  {
    if Less(b, a) {
      LessTransitive(a, b, a);
      LessIrreflexive(a);
    }
  }

  /** Strictly ascending, hence without duplicates. */
  predicate Sorted(s: seq<string>)
  {
    forall i, j :: 0 <= i < j < |s| ==> Less(s[i], s[j])
  }

  /** Strings in ascending order are distinct. */
  lemma SortedNoDups(s: seq<string>)
    requires Sorted(s)
    ensures NoDups(s)
  {
    forall a, b | 0 <= a < b < |s| ensures s[a] != s[b] {
      LessIrreflexive(s[a]);
    }
  }

  /** The least element of a non-empty set of strings. */
  ghost function Least(ks: set<string>): (m: string)
    requires ks != {}
    ensures m in ks && forall y :: y in ks ==> y == m || Less(m, y)
    decreases ks
  {
    var x :| x in ks;
    if ks == {x} then x
    else
      var m := Least(ks - {x});
      LessTotal(x, m);
      if Less(x, m) then
        assert forall y :: y in ks - {x} ==> Less(x, y) by {
          forall y | y in ks - {x} ensures Less(x, y) {
            if y != m { LessTransitive(x, m, y); }
          }
        }
        x
      else m
  }

  /** A set of strings in ascending order. */
  ghost function SortedSet(ks: set<string>): (r: seq<string>)
    ensures Sorted(r) && Members(r) == ks
    decreases ks
  {
    if ks == {} then []
    else
      var m := Least(ks);
      var rest := SortedSet(ks - {m});
      LeastFirst(m, rest);
      [m] + rest
  }

  lemma LeastFirst(m: string, rest: seq<string>)
    requires Sorted(rest) && forall y :: y in Members(rest) ==> Less(m, y)
    ensures Sorted([m] + rest) && Members([m] + rest) == {m} + Members(rest)
  {
    var r := [m] + rest;
    forall i, j | 0 <= i < j < |r| ensures Less(r[i], r[j]) {
      if i == 0 {
        assert r[j] == rest[j - 1] && rest[j - 1] in Members(rest);
      } else {
        assert r[i] == rest[i - 1] && r[j] == rest[j - 1];
      }
    }
  }

  /** Two ascending sequences holding the same strings are equal: the
      sorted order of a set is unique. */
  lemma {:induction false} SortedUnique(a: seq<string>, b: seq<string>)
    requires Sorted(a) && Sorted(b) && Members(a) == Members(b)
    ensures a == b
    decreases |a|
  {
    if |b| > 0 {
      assert b[0] in Members(b);
    }
    if |a| > 0 {
      assert a[0] in Members(b);
      assert b[0] in Members(a);
      if |b| == 0 {
        assert false;
      }
      if a[0] != b[0] {
        var i :| 0 <= i < |b| && b[i] == a[0];
        var j :| 0 <= j < |a| && a[j] == b[0];
        assert Less(b[0], a[0]);
        assert Less(a[0], b[0]);
        LessAsymmetric(a[0], b[0]);
      }
      forall x | x in Members(a[1..]) ensures x in Members(b[1..]) {
        var i :| 0 <= i < |a[1..]| && a[1..][i] == x;
        assert x != a[0] by { LessIrreflexive(a[0]); assert Less(a[0], a[i + 1]); }
        assert x in Members(b);
        var j :| 0 <= j < |b| && b[j] == x;
      }
      forall x | x in Members(b[1..]) ensures x in Members(a[1..]) {
        var i :| 0 <= i < |b[1..]| && b[1..][i] == x;
        assert x != b[0] by { LessIrreflexive(b[0]); assert Less(b[0], b[i + 1]); }
        assert x in Members(a);
        var j :| 0 <= j < |a| && a[j] == x;
      }
      SortedUnique(a[1..], b[1..]);
      assert a == [a[0]] + a[1..] && b == [b[0]] + b[1..];
    }
  }

  /** x put into its place in an ascending sequence. */
  function Insert(x: string, s: seq<string>): (r: seq<string>)
    ensures |r| == |s| + 1
    ensures Members(r) == Members(s) + {x}
  {
    if |s| == 0 then [x]
    else if Less(s[0], x) then
      var rest := Insert(x, s[1..]);
      assert Members(s) == {s[0]} + Members(s[1..]);
      assert Members([s[0]] + rest) == {s[0]} + Members(rest);
      [s[0]] + rest
    else
      assert Members([x] + s) == {x} + Members(s);
      [x] + s
  }

  /** Inserting a string that is not there yet keeps the order. */
  lemma {:induction false} InsertSorted(x: string, s: seq<string>)
    requires Sorted(s) && x !in s
    ensures Sorted(Insert(x, s))
    decreases |s|
  {
    if |s| > 0 {
      if Less(s[0], x) {
        InsertSorted(x, s[1..]);
        var rest := Insert(x, s[1..]);
        var r := [s[0]] + rest;
        forall i, j | 0 <= i < j < |r| ensures Less(r[i], r[j]) {
          if i == 0 {
            assert rest[j - 1] in Members(rest);
            assert rest[j - 1] in Members(s[1..]) + {x};
            if rest[j - 1] != x {
              var k :| 0 <= k < |s[1..]| && s[1..][k] == rest[j - 1];
              assert Less(s[0], s[k + 1]);
            }
          } else {
            assert r[i] == rest[i - 1] && r[j] == rest[j - 1];
          }
        }
      } else {
        LessTotal(s[0], x);
        var r := [x] + s;
        forall i, j | 0 <= i < j < |r| ensures Less(r[i], r[j]) {
          if i == 0 && j > 1 {
            LessTransitive(x, s[0], s[j - 1]);
          }
        }
      }
    }
  }

  /** Collect a set's elements, one at a time in whatever order the map
      yields them, and sort them. */
  method SortKeys(ks: set<string>) returns (r: seq<string>)
    ensures r == SortedSet(ks)
  {
    r := [];
    var rest := ks;
    while rest != {}
      invariant rest <= ks
      invariant Sorted(r) && Members(r) == ks - rest
      decreases rest
    {
      var k :| k in rest;
      InsertSorted(k, r);
      r := Insert(k, r);
      rest := rest - {k};
    }
    SortedUnique(r, SortedSet(ks));
  }
}
