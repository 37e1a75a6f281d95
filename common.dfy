/** Shared value types and string helpers used by every service model. */
module Common {

  datatype Option<T> = None | Some(value: T)

  datatype Result<T, E> = Ok(value: T) | Err(error: E)

  function Min(a: int, b: int): int { if a <= b then a else b }

  /** A sequence is a prefix of another. */
  predicate IsPrefix<T(==)>(p: seq<T>, s: seq<T>) {
    |p| <= |s| && s[..|p|] == p
  }

  /** Go strings.HasPrefix / Python str.startswith. */
  predicate StartsWith(s: string, p: string) {
    |p| <= |s| && s[..|p|] == p
  }

  /** Go strings.TrimPrefix: drops p once when s starts with it. */
  function TrimPrefix(s: string, p: string): (r: string)
    ensures StartsWith(s, p) ==> p + r == s
    ensures !StartsWith(s, p) ==> r == s
  {
    if StartsWith(s, p) then s[|p|..] else s
  }

  /** One string occurs inside another (Go `strings.Contains`). */
  predicate Contains(s: string, sub: string) {
    exists i :: 0 <= i <= |s| && sub <= s[i..]
  }

  /** `f` applied to each element. */
  function MapSeq<A, B>(f: A -> B, xs: seq<A>): (r: seq<B>)
    ensures |r| == |xs| && forall i :: 0 <= i < |xs| ==> r[i] == f(xs[i])
  {
    seq(|xs|, i requires 0 <= i < |xs| => f(xs[i]))
  }

  lemma MapSeqSnoc<A, B>(f: A -> B, xs: seq<A>)
    requires |xs| > 0
    ensures MapSeq(f, xs[..|xs| - 1]) + [f(xs[|xs| - 1])] == MapSeq(f, xs)
  {
    var n := |xs| - 1;
    forall i | 0 <= i < n ensures MapSeq(f, xs[..n])[i] == MapSeq(f, xs)[i] {
      assert xs[..n][i] == xs[i];
    }
  }

  lemma AppendPair<T>(a: seq<T>, x: T, y: T)
    ensures a + [x, y] == (a + [x]) + [y]
  {
  }

  /** Occurrence of a character. */
  predicate HasChar(s: string, c: char) {
    exists i :: 0 <= i < |s| && s[i] == c
  }

  /** Joins pieces with a separator (Go strings.Join, Python str.join). */
  function Join(parts: seq<string>, sep: string): string
  {
    if |parts| == 0 then ""
    else if |parts| == 1 then parts[0]
    else parts[0] + sep + Join(parts[1..], sep)
  }

  /** Go strings.Split with a one-character separator: never empty,
      the pieces contain no separator, and re-joining gives back s. */
  function Split(s: string, sep: char): (r: seq<string>)
    ensures |r| >= 1
    ensures forall i :: 0 <= i < |r| ==> !HasChar(r[i], sep)
    ensures Join(r, [sep]) == s
    ensures !HasChar(s, sep) ==> r == [s]
  {
    if |s| == 0 then [""]
    else if s[0] == sep then
      var rest := Split(s[1..], sep);
      assert s == [sep] + s[1..];
      [""] + rest
    else
      var rest := Split(s[1..], sep);
      assert !HasChar([s[0]], sep);
      var r := [[s[0]] + rest[0]] + rest[1..];
      assert HasChar(r[0], sep) ==> HasChar(rest[0], sep);
      r
  }

  /** Splitting text that starts with a separator-free piece and then a
      separator: the piece, then the split of what follows. */
  lemma {:induction false} SplitPrefix(a: string, rest: string, sep: char)
    requires !HasChar(a, sep) && |rest| > 0 && rest[0] == sep
    ensures Split(a + rest, sep) == [a] + Split(rest[1..], sep)
    decreases |a|
  {
    if |a| == 0 {
      assert a + rest == rest;
    } else {
      assert !HasChar(a[1..], sep) by {
        assert forall i :: 0 <= i < |a[1..]| ==> a[1..][i] == a[i + 1];
      }
      var s, tail := a + rest, Split(rest[1..], sep);
      assert s[1..] == a[1..] + rest;
      SplitPrefix(a[1..], rest, sep);
      var inner := Split(s[1..], sep);
      assert inner == [a[1..]] + tail;
      assert a[0] != sep && s[0] == a[0];
      assert Split(s, sep) == [[s[0]] + inner[0]] + inner[1..];
      assert [a[0]] + a[1..] == a;
      assert inner[1..] == tail;
    }
  }

  /** A prefix put in front of a string is found there, and taking it off
      gives the string back. */
  lemma PrefixThenRest(p: string, s: string)
    ensures StartsWith(p + s, p) && (p + s)[|p|..] == s
  {
    assert (p + s)[..|p|] == p;
  }

  /** A split on a separator that occurs once. */
  lemma SplitOnce(a: string, b: string, sep: char)
    requires !HasChar(a, sep) && !HasChar(b, sep)
    ensures Split(a + [sep] + b, sep) == [a, b]
  {
    SplitPrefix(a, [sep] + b, sep);
    assert a + [sep] + b == a + ([sep] + b);
    assert ([sep] + b)[1..] == b;
  }

  /** A character occurs in a concatenation iff it occurs in a part. */
  lemma HasCharConcat(a: string, b: string, c: char)
    ensures HasChar(a + b, c) <==> HasChar(a, c) || HasChar(b, c)
  {
    if HasChar(a + b, c) {
      var i :| 0 <= i < |a + b| && (a + b)[i] == c;
      if i < |a| {
        assert a[i] == c;
      } else {
        assert b[i - |a|] == c;
      }
    }
    if HasChar(a, c) {
      var i :| 0 <= i < |a| && a[i] == c;
      assert (a + b)[i] == c;
    }
    if HasChar(b, c) {
      var i :| 0 <= i < |b| && b[i] == c;
      assert (a + b)[|a| + i] == c;
    }
  }

  /** A string holding the separator splits into at least two parts. */
  lemma SplitHasTwo(s: string, sep: char)
    requires HasChar(s, sep)
    ensures |Split(s, sep)| >= 2
  {
  }

  /** The first two parts and the separator between them start the join. */
  lemma JoinPrefix(parts: seq<string>, sep: string)
    requires |parts| >= 2
    ensures parts[0] + sep + parts[1] + (if |parts| > 2 then sep else "") <= Join(parts, sep)
  {
    if |parts| > 2 {
      assert Join(parts[1..], sep) == parts[1] + sep + Join(parts[2..], sep);
    }
  }

  /** Go's unicode.IsSpace, the set strings.TrimSpace and bytes.TrimSpace
      remove: the ASCII white space, U+0085, U+00A0 and the other Unicode
      White_Space characters. Python's int() and float() skip the same set
      around a literal: C white space below U+007F, and every character
      str.isspace accepts above it. */
  predicate IsSpace(c: char) {
    c == ' ' || '\t' <= c <= '\r' || (c > '\U{007F}' && IsWideSpace(c))
  }

  /** The white space above ASCII. */
  predicate IsWideSpace(c: char) {
    c == '\U{0085}' || c == '\U{00A0}' || c == '\U{1680}' || '\U{2000}' <= c <= '\U{200A}' ||
    c == '\U{2028}' || c == '\U{2029}' || c == '\U{202F}' || c == '\U{205F}' || c == '\U{3000}'
  }

  function TrimLeft(s: string): (r: string)
    ensures |r| <= |s| && s[|s| - |r|..] == r
    ensures |r| > 0 ==> !IsSpace(r[0])
  {
    if |s| > 0 && IsSpace(s[0]) then TrimLeft(s[1..]) else s
  }

  function TrimRight(s: string): (r: string)
    ensures |r| <= |s| && s[..|r|] == r
    ensures |r| > 0 ==> !IsSpace(r[|r| - 1])
  {
    if |s| > 0 && IsSpace(s[|s| - 1]) then TrimRight(s[..|s| - 1]) else s
  }

  /** Go strings.TrimSpace / bytes.TrimSpace; also the white space Python's
      int() and float() skip around a literal. */
  function TrimSpace(s: string): (r: string)
    ensures |r| <= |s|
    ensures |r| > 0 ==> !IsSpace(r[0]) && !IsSpace(r[|r| - 1])
  {
    TrimRight(TrimLeft(s))
  }

  /** Text that neither starts nor ends with white space is its own trim. */
  lemma TrimmedAlready(s: string)
    requires |s| > 0 && !IsSpace(s[0]) && !IsSpace(s[|s| - 1])
    ensures TrimSpace(s) == s
  {
    assert TrimLeft(s) == s;
  }

  /** ASCII lower-casing (Go strings.ToLower on ASCII names). */
  function LowerChar(c: char): char {
    if 'A' <= c <= 'Z' then (c as int + 32) as char else c
  }

  function Lower(s: string): (r: string)
    ensures |r| == |s| && forall i :: 0 <= i < |s| ==> r[i] == LowerChar(s[i])
  {
    if |s| == 0 then "" else [LowerChar(s[0])] + Lower(s[1..])
  }

  function DigitChar(d: int): char
    requires 0 <= d < 10
  {
    ('0' as int + d) as char
  }

  function NatToString(n: nat): (r: string)
    ensures |r| >= 1
    ensures forall i :: 0 <= i < |r| ==> '0' <= r[i] <= '9'
    decreases n
  {
    if n < 10 then [DigitChar(n)] else NatToString(n / 10) + [DigitChar(n % 10)]
  }

  /** Decimal rendering of an integer (Python str(int), Go fmt %d / strconv.Itoa). */
  function IntToString(i: int): string {
    if i < 0 then "-" + NatToString(-i) else NatToString(i)
  }

  predicate IsDigit(c: char) { '0' <= c <= '9' }

  predicate AllDigits(s: string) { forall i :: 0 <= i < |s| ==> IsDigit(s[i]) }

  function DigitsValue(s: string): (r: nat)
    requires AllDigits(s)
  {
    if |s| == 0 then 0 else 10 * DigitsValue(s[..|s| - 1]) + (s[|s| - 1] as int - '0' as int)
  }

  function Pow10(n: nat): (r: nat)
    ensures r >= 1
  {
    if n == 0 then 1 else 10 * Pow10(n - 1)
  }

  lemma {:induction false} Pow10Monotone(a: nat, b: nat)
    requires a <= b
    ensures Pow10(a) <= Pow10(b)
    decreases b
  {
    if a < b {
      Pow10Monotone(a, b - 1);
    }
  }

  /** The bounds of Go's 64-bit `int`. */
  const MinInt64: int := -0x8000_0000_0000_0000
  const MaxInt64: int := 0x7FFF_FFFF_FFFF_FFFF

  /** Go strconv.Atoi: an optional sign and at least one decimal digit, whose
      value fits a 64-bit int; anything else is an error (None). */
  function Atoi(s: string): (r: Option<int>)
    ensures r.Some? <==> DecimalInt(s).Some? && MinInt64 <= DecimalInt(s).value <= MaxInt64
    ensures r.Some? ==> r == DecimalInt(s)
  {
    match DecimalInt(s)
    case Some(v) => if MinInt64 <= v <= MaxInt64 then Some(v) else None
    case None => None
  }

  /** An optional sign and at least one decimal digit, read as an unbounded
      integer. */
  function DecimalInt(s: string): (r: Option<int>)
    ensures r.Some? ==> |s| > 0
  {
    if |s| > 0 && (s[0] == '-' || s[0] == '+') then
      var d := s[1..];
      if |d| > 0 && AllDigits(d) then
        var v: int := DigitsValue(d);
        Some(if s[0] == '-' then -v else v)
      else None
    else if |s| > 0 && AllDigits(s) then Some(DigitsValue(s))
    else None
  }

  lemma {:induction false} DigitsOfNatToString(n: nat)
    ensures AllDigits(NatToString(n)) && DigitsValue(NatToString(n)) == n
    decreases n
  {
    if n >= 10 {
      DigitsOfNatToString(n / 10);
      var s := NatToString(n / 10) + [DigitChar(n % 10)];
      assert s[..|s| - 1] == NatToString(n / 10);
      assert s[|s| - 1] as int - '0' as int == n % 10;
      assert DigitsValue(s) == 10 * (n / 10) + n % 10;
    }
  }

  /** Atoi reads back what IntToString writes, for every 64-bit value. */
  lemma AtoiIntToString(i: int)
    requires MinInt64 <= i <= MaxInt64
    ensures Atoi(IntToString(i)) == Some(i)
  {
    DecimalIntToString(i);
  }

  /** Any integer written in decimal reads back as itself. */
  lemma DecimalIntToString(i: int)
    ensures DecimalInt(IntToString(i)) == Some(i)
  {
    var n: nat := Abs(i);
    var d := NatToString(n);
    assert AllDigits(d) && DigitsValue(d) == n by { DigitsOfNatToString(n); }
    if i < 0 {
      assert IntToString(i) == "-" + d;
      DecimalIntNegative(d);
    } else {
      assert IntToString(i) == d;
      DecimalIntUnsigned(d);
    }
  }

  lemma DecimalIntNegative(d: string)
    requires |d| > 0 && AllDigits(d)
    ensures DecimalInt("-" + d) == Some(-(DigitsValue(d) as int))
  {
    var s := "-" + d;
    assert s[1..] == d;
    assert s[0] == '-';
  }

  lemma DecimalIntUnsigned(d: string)
    requires |d| > 0 && AllDigits(d)
    ensures DecimalInt(d) == Some(DigitsValue(d))
  {
    assert IsDigit(d[0]);
  }

  lemma MulAtLeast(a: int, n: int)
    requires a >= 1 && n > 0
    ensures a * n >= n
  {
    assert a * n == (a - 1) * n + n;
  }

  lemma DivUnique(x: int, n: int, q: int, r: int)
    requires n > 0 && 0 <= r < n && x == q * n + r
    ensures x / n == q
  {
    var q0, r0 := x / n, x % n;
    assert x == q0 * n + r0;
    assert (q0 - q) * n == r - r0;
    if q0 - q >= 1 {
      MulAtLeast(q0 - q, n);
    } else if q - q0 >= 1 {
      MulAtLeast(q - q0, n);
    }
  }

  function Abs(x: int): nat { if x < 0 then -x else x }

  /** Python's `a % b` for b != 0: the remainder takes the sign of the divisor. */
  function PyMod(a: int, b: int): (r: int)
    requires b != 0
    ensures r == 0 <==> a % Abs(b) == 0
    ensures b > 0 ==> 0 <= r < b
    ensures b < 0 ==> b < r <= 0
  {
    var m := a % Abs(b);
    if b > 0 || m == 0 then m else m + b
  }

  /** (i + k) mod n is k when i is a multiple of n and 0 <= k < n. */
  lemma ModOffset(i: nat, k: nat, n: nat)
    requires n > 0 && i % n == 0 && k < n
    ensures (i + k) % n == k
  {
    var q := i / n;
    assert i == q * n;
    DivUnique(i + k, n, q, k);
  }

  lemma ModNext(i: nat, n: nat)
    requires n > 0 && i % n == 0
    ensures (i + n) % n == 0
  {
    var q := i / n;
    assert i == q * n;
    assert (q + 1) * n == q * n + n;
    DivUnique(i + n, n, q + 1, 0);
  }

  /** The elements of an iteration order. */
  function Members<T>(order: seq<T>): set<T> {
    set x | x in order
  }

  predicate NoDups<T(==)>(order: seq<T>) {
    forall a, b :: 0 <= a < b < |order| ==> order[a] != order[b]
  }

  /** An iteration order of a set (a Python set, the keys of a Go map):
      every element exactly once. */
  predicate Enumerates<T(==)>(order: seq<T>, keys: set<T>) {
    NoDups(order) && Members(order) == keys
  }

  /** The members of a sequence with a head. */
  lemma MembersCons<T>(x: T, t: seq<T>)
    ensures Members([x] + t) == {x} + Members(t)
  {
    var o := [x] + t;
    assert forall a :: 0 <= a < |t| ==> o[a + 1] == t[a];
    assert o[0] == x;
  }

  /** Growing an iteration order by one new element. */
  lemma MembersSnoc<T>(order: seq<T>, k: T)
    requires NoDups(order) && k !in Members(order)
    ensures Members(order + [k]) == Members(order) + {k}
    ensures NoDups(order + [k])
  {
    var o := order + [k];
    assert forall a :: 0 <= a < |order| ==> o[a] == order[a];
    assert o[|order|] == k;
    forall c | c in Members(o) ensures c in Members(order) + {k} {
      var a :| 0 <= a < |o| && o[a] == c;
    }
  }

  /** An iteration order has as many elements as the set it enumerates. */
  lemma {:induction false} EnumeratesCard<T>(order: seq<T>, keys: set<T>)
    requires Enumerates(order, keys)
    ensures |keys| == |order|
    decreases |order|
  {
    if |order| > 0 {
      var n := |order| - 1;
      var front := order[..n];
      forall c | c in Members(front) ensures c in keys - {order[n]} {
        var a :| 0 <= a < n && front[a] == c;
        assert order[a] == c;
      }
      forall c | c in keys - {order[n]} ensures c in Members(front) {
        var a :| 0 <= a < |order| && order[a] == c;
        assert a < n && front[a] == c;
      }
      EnumeratesCard(front, keys - {order[n]});
    }
  }

  /** The elements of a set in the unspecified order a Go map yields them. */
  method MapOrder<T>(s: set<T>) returns (order: seq<T>)
    ensures Enumerates(order, s)
  {
    order := [];
    var rest := s;
    while rest != {}
      invariant rest <= s && Enumerates(order, s - rest)
      decreases rest
    {
      var x :| x in rest;
      MembersSnoc(order, x);
      order := order + [x];
      rest := rest - {x};
    }
  }
}
