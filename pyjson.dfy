/** Python values as produced by json.loads / yaml.load, with the parts of
    Python's built-ins (str, repr, int, float, truthiness, subscripting) that
    the ingestion code relies on. */
module PyJson {
  import opened Common

  /** A decoded JSON / YAML value. Dicts keep insertion order, as Python dicts do.
      A float is identified by its Python repr ("1.5", "inf", "nan"). */
  datatype Json =
    | JNull
    | JBool(b: bool)
    | JInt(i: int)
    | JFloat(repr: string)
    | JStr(s: string)
    | JList(items: seq<Json>)
    | JDict(fields: seq<(string, Json)>)

  /** The Python exceptions the modelled code raises or lets escape. */
  datatype PyError =
    | KeyError(key: string)
    | TypeError(msg: string)
    | ValueError(msg: string)
    | OverflowError(msg: string)
    | IndexError(msg: string)
    | ZeroDivisionError
    | AssertionError(msg: string)
    | LookupError(msg: string)
    | RuntimeError(msg: string)
    | AttributeError(msg: string)
    | Exception(msg: string)

  /** Python bool(x). */
  predicate Truthy(j: Json) {
    match j
    case JNull => false
    case JBool(b) => b
    case JInt(i) => i != 0
    case JFloat(r) => r != "0.0" && r != "-0.0"
    case JStr(s) => s != ""
    case JList(xs) => xs != []
    case JDict(fs) => fs != []
  }

  /** Python type name, as it appears in TypeError messages. */
  function TypeName(j: Json): string {
    match j
    case JNull => "NoneType"
    case JBool(_) => "bool"
    case JInt(_) => "int"
    case JFloat(_) => "float"
    case JStr(_) => "str"
    case JList(_) => "list"
    case JDict(_) => "dict"
  }

  /** Dict lookup on an insertion-ordered field list. */
  function Lookup(fs: seq<(string, Json)>, k: string): Option<Json>
  {
    if |fs| == 0 then None
    else if fs[0].0 == k then Some(fs[0].1)
    else Lookup(fs[1..], k)
  }

  /** Python `d[k] = v` on an insertion-ordered dict: an existing key keeps its
      position, a new key goes to the end. */
  function DictSet(fs: seq<(string, Json)>, k: string, v: Json): (r: seq<(string, Json)>)
    ensures Lookup(r, k) == Some(v)
    ensures forall k' :: k' != k ==> Lookup(r, k') == Lookup(fs, k')
    ensures Lookup(fs, k).Some? ==> |r| == |fs|
    ensures Lookup(fs, k).None? ==> r == fs + [(k, v)]
  {
    if |fs| == 0 then [(k, v)]
    else if fs[0].0 == k then [(k, v)] + fs[1..]
    else [fs[0]] + DictSet(fs[1..], k, v)
  }

  /** Python `x[k]` with a string key. */
  function Subscript(x: Json, k: string): (r: Result<Json, PyError>)
    ensures r.Ok? <==> x.JDict? && Lookup(x.fields, k).Some?
    ensures r.Ok? ==> r.value == Lookup(x.fields, k).value
    ensures x.JDict? && r.Err? ==> r.error == KeyError(k)
    ensures !x.JDict? ==> r.Err? && r.error.TypeError?
  {
    match x
    case JDict(fs) => (match Lookup(fs, k) case Some(v) => Ok(v) case None => Err(KeyError(k)))
    case JList(_) => Err(TypeError("list indices must be integers or slices, not str"))
    case JStr(_) => Err(TypeError("string indices must be integers"))
    case _ => Err(TypeError("'" + TypeName(x) + "' object is not subscriptable"))
  }

  // ---------------------------------------------------------------- repr / str

  /** The characters Python's `str.isprintable()` rejects and `repr` therefore
      escapes: the controls (Cc), the separators other than the ASCII space
      (Zs, Zl, Zp), the format characters (Cf) and the private-use areas (Co).
      Unassigned code points (Cn) are not listed. */
  predicate NonPrintable(c: char) {
    var n := c as int;
    n < 0x20 || 0x7F <= n <= 0xA0 || n == 0xAD
    || 0x600 <= n <= 0x605 || n == 0x61C || n == 0x6DD || n == 0x70F
    || 0x890 <= n <= 0x891 || n == 0x8E2 || n == 0x1680 || n == 0x180E
    || 0x2000 <= n <= 0x200F || 0x2028 <= n <= 0x202F || 0x205F <= n <= 0x206F
    || n == 0x3000 || 0xE000 <= n <= 0xF8FF || n == 0xFEFF || 0xFFF9 <= n <= 0xFFFB
    || n == 0x110BD || n == 0x110CD || 0x13430 <= n <= 0x1343F
    || 0x1BCA0 <= n <= 0x1BCA3 || 0x1D173 <= n <= 0x1D17A
    || n == 0xE0001 || 0xE0020 <= n <= 0xE007F
    || 0xF0000 <= n <= 0xFFFFD || 0x100000 <= n <= 0x10FFFD
  }

  const HexDigits := "0123456789abcdef"

  function Pow16(w: nat): (r: nat)
    ensures r >= 1
  {
    if w == 0 then 1 else 16 * Pow16(w - 1)
  }

  /** The last `width` lower-case hexadecimal digits of n, zero-padded. */
  function Hex(n: nat, width: nat): (r: string)
    ensures |r| == width
    ensures forall i :: 0 <= i < |r| ==> r[i] in HexDigits
  {
    if width == 0 then "" else Hex(n / 16, width - 1) + [HexDigits[n % 16]]
  }

  function HexDigitValue(c: char): nat {
    if '0' <= c <= '9' then c as int - '0' as int
    else if 'a' <= c <= 'f' then c as int - 'a' as int + 10
    else 0
  }

  /** The number a string of hexadecimal digits reads as. */
  function HexValue(s: string): nat {
    if |s| == 0 then 0 else 16 * HexValue(s[..|s| - 1]) + HexDigitValue(s[|s| - 1])
  }

  /** Hex is read back by HexValue whenever n fits in the width. */
  lemma {:induction false} HexRoundTrip(n: nat, width: nat)
    requires n < Pow16(width)
    ensures HexValue(Hex(n, width)) == n
  {
    if width > 0 {
      var h := Hex(n, width);
      assert h[..|h| - 1] == Hex(n / 16, width - 1);
      assert n / 16 < Pow16(width - 1) by {
        assert n < 16 * Pow16(width - 1);
      }
      HexRoundTrip(n / 16, width - 1);
      assert HexDigitValue(HexDigits[n % 16]) == n % 16;
    }
  }

  /** Escape of one character inside a repr'd string quoted with q: the
      backslash, the quote and \t \n \r by name, any other non-printable
      character by its code point (\xNN below 0x100, \uNNNN below 0x10000,
      \UNNNNNNNN above). */
  function EscapeChar(c: char, q: char): string {
    if c == '\\' then "\\\\"
    else if c == q then ['\\', q]
    else if c == '\n' then "\\n"
    else if c == '\r' then "\\r"
    else if c == '\t' then "\\t"
    else if NonPrintable(c) then
      var n := c as int;
      if n < 0x100 then "\\x" + Hex(n, 2)
      else if n < 0x10000 then "\\u" + Hex(n, 4)
      else "\\U" + Hex(n, 8)
    else [c]
  }

  /** A non-printable character other than \t \n \r is written as a
      backslash, a width letter and the hexadecimal digits of its code point. */
  lemma EscapeNonPrintable(c: char, q: char)
    requires NonPrintable(c) && c != '\t' && c != '\n' && c != '\r'
    requires q == '\'' || q == '"'
    ensures var e := EscapeChar(c, q);
      && |e| >= 4 && e[0] == '\\' && HexValue(e[2..]) == c as int
      && (c as int < 0x100 ==> e[1] == 'x' && |e| == 4)
      && (0x100 <= c as int < 0x10000 ==> e[1] == 'u' && |e| == 6)
      && (0x10000 <= c as int ==> e[1] == 'U' && |e| == 10)
  {
    var n := c as int;
    var e := EscapeChar(c, q);
    assert c != '\\' && c != q;
    if n < 0x100 {
      assert e[2..] == Hex(n, 2);
      HexRoundTrip(n, 2);
    } else if n < 0x10000 {
      assert e[2..] == Hex(n, 4);
      HexRoundTrip(n, 4);
    } else {
      assert e[2..] == Hex(n, 8);
      HexRoundTrip(n, 8);
    }
  }

  function EscapeAll(s: string, q: char): string {
    if |s| == 0 then "" else EscapeChar(s[0], q) + EscapeAll(s[1..], q)
  }

  /** Every character of one escape is printable. */
  lemma EscapeCharPrintable(c: char, q: char)
    requires q == '\'' || q == '"'
    ensures forall i :: 0 <= i < |EscapeChar(c, q)| ==> !NonPrintable(EscapeChar(c, q)[i])
  {
    var e := EscapeChar(c, q);
    if c != '\\' && c != q && c != '\n' && c != '\r' && c != '\t' && NonPrintable(c) {
      assert forall d :: d in HexDigits ==> !NonPrintable(d);
      var n := c as int;
      var w := if n < 0x100 then 2 else if n < 0x10000 then 4 else 8;
      assert e[2..] == Hex(n, w);
      assert forall i :: 2 <= i < |e| ==> e[i] in HexDigits;
    }
  }

  /** The escaped text is printable: repr never emits a character that
      `str.isprintable()` rejects. */
  lemma {:induction false} EscapeAllPrintable(s: string, q: char)
    requires q == '\'' || q == '"'
    ensures forall i :: 0 <= i < |EscapeAll(s, q)| ==> !NonPrintable(EscapeAll(s, q)[i])
  {
    if |s| > 0 {
      EscapeAllPrintable(s[1..], q);
      EscapeCharPrintable(s[0], q);
      var e := EscapeChar(s[0], q);
      var rest := EscapeAll(s[1..], q);
      assert EscapeAll(s, q) == e + rest;
      forall i | 0 <= i < |e + rest|
        ensures !NonPrintable((e + rest)[i])
      {
        if i >= |e| {
          assert (e + rest)[i] == rest[i - |e|];
        }
      }
    }
  }

  /** Python repr(str): single quotes unless the text holds a single quote and no
      double quote. */
  function ReprStr(s: string): (r: string)
    ensures |r| >= 2 && (r[0] == '\'' || r[0] == '"') && r[|r| - 1] == r[0]
  {
    var q := if HasChar(s, '\'') && !HasChar(s, '"') then '"' else '\'';
    [q] + EscapeAll(s, q) + [q]
  }

  /** Python repr(x). */
  function Repr(j: Json): string
    decreases j, 1, 0
  {
    match j
    case JNull => "None"
    case JBool(b) => if b then "True" else "False"
    case JInt(i) => IntToString(i)
    case JFloat(r) => r
    case JStr(s) => ReprStr(s)
    case JList(xs) => "[" + ReprItems(j, 0) + "]"
    case JDict(fs) => "{" + ReprFields(j, 0) + "}"
  }

  function ReprItems(j: Json, i: nat): string
    requires j.JList? && i <= |j.items|
    decreases j, 0, |j.items| - i
  {
    if i == |j.items| then ""
    else
      assert j.items[i] in j.items;
      (if i == 0 then "" else ", ") + Repr(j.items[i]) + ReprItems(j, i + 1)
  }

  function ReprFields(j: Json, i: nat): string
    requires j.JDict? && i <= |j.fields|
    decreases j, 0, |j.fields| - i
  {
    if i == |j.fields| then ""
    else
      assert j.fields[i] in j.fields;
      (if i == 0 then "" else ", ") + ReprStr(j.fields[i].0) + ": " + Repr(j.fields[i].1) + ReprFields(j, i + 1)
  }

  /** Python str(x): a string is itself, everything else its repr. */
  function Str(j: Json): (r: string)
    ensures j.JStr? ==> r == j.s
    ensures j.JInt? ==> r == IntToString(j.i)
    ensures j.JNull? ==> r == "None"
    ensures j.JBool? ==> r == (if j.b then "True" else "False")
  {
    if j.JStr? then j.s else Repr(j)
  }

  /** repr(str) is printable whatever the text holds. */
  lemma ReprStrPrintable(s: string)
    ensures forall i :: 0 <= i < |ReprStr(s)| ==> !NonPrintable(ReprStr(s)[i])
  {
    var q := if HasChar(s, '\'') && !HasChar(s, '"') then '"' else '\'';
    EscapeAllPrintable(s, q);
    var body := EscapeAll(s, q);
    assert ReprStr(s) == [q] + body + [q];
    forall i | 0 < i < |ReprStr(s)| - 1
      ensures !NonPrintable(ReprStr(s)[i])
    {
      assert ReprStr(s)[i] == body[i - 1];
    }
  }

  /** The no-break space U+00A0 is escaped as \xa0. */
  lemma EscapeNoBreakSpace()
    ensures EscapeChar('\U{00A0}', '\'') == "\\xa0"
  {
    assert NonPrintable('\U{00A0}');
    assert Hex(0xA0, 2) == "a0" by {
      assert Hex(0, 0) == "";
      assert Hex(0xA, 1) == "a";
    }
  }

  /** The text a, no-break space, b escapes to a\xa0b. */
  lemma EscapeAllNoBreakSpace()
    ensures EscapeAll("a\U{00A0}b", '\'') == "a\\xa0b"
  {
    var s := "a\U{00A0}b";
    EscapeNoBreakSpace();
    assert EscapeChar('b', '\'') == "b";
    assert EscapeAll(s[2..], '\'') == "b" by {
      assert s[2..] == "b" && s[2..][1..] == "";
    }
    assert EscapeAll(s[1..], '\'') == "\\xa0b" by {
      assert s[1..][0] == '\U{00A0}' && s[1..][1..] == s[2..];
    }
    assert EscapeChar('a', '\'') == "a";
  }

  /** repr('a\xa0b') writes the no-break space as \xa0. */
  lemma ReprStrNoBreakSpace()
    ensures ReprStr("a\U{00A0}b") == "'a\\xa0b'"
  {
    var s := "a\U{00A0}b";
    assert !HasChar(s, '\'') by {
      forall i | 0 <= i < |s| ensures s[i] != '\'' { }
    }
    EscapeAllNoBreakSpace();
  }

  /** str() of a list escapes a no-break space inside an item the way Python
      does: the no-break space comes out as the four characters \xa0. */
  lemma StrEscapesNoBreakSpace()
    ensures Str(JList([JStr("a\U{00A0}b")])) == "['a\\xa0b']"
  {
    var s := "a\U{00A0}b";
    var j := JList([JStr(s)]);
    ReprStrNoBreakSpace();
    assert Repr(JStr(s)) == "'a\\xa0b'";
    assert ReprItems(j, 1) == "";
    assert ReprItems(j, 0) == "" + Repr(j.items[0]) + ReprItems(j, 1);
    assert Str(j) == "[" + ReprItems(j, 0) + "]";
  }

  // ---------------------------------------------------------------- ==

  /** The integer a value compares equal to under Python `==`: a bool is 0 or
      1, an int itself, and a float written as an integer followed by ".0"
      (every integral float below 1e16 is, exactly) that integer. */
  function IntegralValue(v: Json): Option<int>
  {
    match v
    case JBool(b) => Some(if b then 1 else 0)
    case JInt(i) => Some(i)
    case JFloat(r) => if |r| >= 3 && r[|r| - 2..] == ".0" then DecimalInt(r[..|r| - 2]) else None
    case _ => None
  }

  /** Python `==` on hashable values: 1, 1.0 and True are equal, and so are
      0, 0.0, -0.0 and False; any other value equals only itself. */
  predicate PyEq(a: Json, b: Json) {
    a == b || (IntegralValue(a).Some? && IntegralValue(a) == IntegralValue(b))
  }

  /** Python `==` is an equivalence. */
  lemma PyEqEquivalence(a: Json, b: Json, c: Json)
    ensures PyEq(a, a)
    ensures PyEq(a, b) ==> PyEq(b, a)
    ensures PyEq(a, b) && PyEq(b, c) ==> PyEq(a, c)
  {
  }

  /** The numbers and bools that Python identifies, and some it does not. */
  lemma PyEqNumbers()
    ensures PyEq(JInt(1), JFloat("1.0")) && PyEq(JInt(1), JBool(true))
    ensures PyEq(JBool(false), JFloat("-0.0")) && PyEq(JFloat("0.0"), JFloat("-0.0"))
    ensures !PyEq(JInt(1), JStr("1")) && !PyEq(JFloat("1.5"), JInt(1)) && !PyEq(JNull, JBool(false))
  {
    assert DigitsValue("1") == 1;
    assert DigitsValue("0") == 0;
  }

  // ---------------------------------------------------------------- int() / float()

  /** Digits with single underscores between them (Python numeric literal grouping). */
  predicate IsGroupedDigits(s: string) {
    |s| > 0 && IsDigit(s[0]) && IsDigit(s[|s| - 1]) &&
    (forall i :: 0 <= i < |s| ==> IsDigit(s[i]) || s[i] == '_') &&
    (forall i :: 0 <= i < |s| - 1 ==> !(s[i] == '_' && s[i + 1] == '_'))
  }

  /** Python int(s) accepts surrounding whitespace, an optional sign and grouped
      decimal digits. */
  predicate IsIntLiteral(s: string) {
    var t := TrimSpace(s);
    if |t| > 0 && (t[0] == '+' || t[0] == '-') then IsGroupedDigits(t[1..]) else IsGroupedDigits(t)
  }

  /** The float reprs `int()` refuses: the infinities and NaN. */
  predicate Infinite(repr: string) {
    repr == "inf" || repr == "-inf"
  }

  /** The exceptions `int()` raises: on an infinity, on NaN, on a string
      that is not an integer literal, and on a value of another type. */
  const InfinityToInt := OverflowError("cannot convert float infinity to integer")
  const NaNToInt := ValueError("cannot convert float NaN to integer")

  function BadIntLiteral(s: string): PyError {
    ValueError("invalid literal for int() with base 10: " + ReprStr(s))
  }

  function NotIntConvertible(x: Json): PyError {
    TypeError("int() argument must be a string, a bytes-like object or a real number, not '" + TypeName(x) + "'")
  }

  /** Whether `int(x)` succeeds, and the exception it raises otherwise. */
  function IntCheck(x: Json): (r: Option<PyError>)
    ensures r.None? <==> (x.JInt? || x.JBool? || (x.JFloat? && !Infinite(x.repr) && x.repr != "nan") ||
                          (x.JStr? && IsIntLiteral(x.s)))
  {
    match x
    case JInt(_) => None
    case JBool(_) => None
    case JFloat(r) =>
      if Infinite(r) then Some(InfinityToInt)
      else if r == "nan" then Some(NaNToInt)
      else None
    case JStr(s) =>
      if IsIntLiteral(s) then None else Some(BadIntLiteral(s))
    case _ => Some(NotIntConvertible(x))
  }

  /** Python float(s) read as an exact decimal: the value is m * 10^e.
      None is a literal float() rejects; Inf is either infinity (a special
      spelling, or a literal too large for a double) and NaN the nan spelling. */
  datatype FloatLit = Finite(m: int, e: int) | Inf | NaN

  /** Index of the first occurrence of c1 or c2 in s, or |s| when neither occurs. */
  function Find(s: string, c1: char, c2: char): (k: nat)
    ensures k <= |s|
  {
    if |s| == 0 then 0
    else if s[0] == c1 || s[0] == c2 then 0
    else 1 + Find(s[1..], c1, c2)
  }

  /** Case-insensitive equality with a lower-case word. */
  predicate EqualsIgnoreCase(s: string, w: string) {
    |s| == |w| && forall i :: 0 <= i < |s| ==> LowerChar(s[i]) == w[i]
  }

  /** Splits "digits[.digits]" into integer and fraction digits; at least one digit. */
  function Mantissa(s: string): Option<(string, string)>
  {
    var k := Find(s, '.', '.');
    var ip := s[..k];
    var fp := if k < |s| then s[k + 1..] else "";
    if AllDigits(ip) && AllDigits(fp) && |ip| + |fp| > 0 then Some((ip, fp)) else None
  }

  /** Python float(s) on decimal literals with optional exponent, and on the
      inf / infinity / nan spellings (any case). Underscores between digits
      are accepted and dropped before the text is read (PEP 515). */
  function ParseFloat(s: string): Option<FloatLit>
  {
    match Ungrouped(s)
    case None => None
    case Some(u) => ParseTrimmed(TrimSpace(u))
  }

  /** The text with its grouping underscores removed, or None when an
      underscore does not stand between two digits. */
  function Ungrouped(s: string): (r: Option<string>)
    ensures r.Some? ==> forall i :: 0 <= i < |r.value| ==> r.value[i] != '_'
    ensures (forall i :: 0 <= i < |s| ==> s[i] != '_') ==> r == Some(s)
  {
    if forall i :: 0 <= i < |s| && s[i] == '_' ==> UnderscoreBetweenDigits(s, i)
    then Some(DropUnderscores(s)) else None
  }

  predicate UnderscoreBetweenDigits(s: string, i: int)
    requires 0 <= i < |s|
  {
    0 < i < |s| - 1 && IsDigit(s[i - 1]) && IsDigit(s[i + 1])
  }

  /** s without its underscores, every other character kept in order. */
  function DropUnderscores(s: string): (r: string)
    ensures |r| <= |s|
    ensures forall i :: 0 <= i < |r| ==> r[i] != '_'
    ensures (forall i :: 0 <= i < |s| ==> s[i] != '_') ==> r == s
  {
    if |s| == 0 then ""
    else (if s[0] == '_' then "" else [s[0]]) + DropUnderscores(s[1..])
  }

  /** float() on text with the surrounding white space already removed. */
  function ParseTrimmed(t: string): Option<FloatLit>
  {
    var neg := |t| > 0 && t[0] == '-';
    var body := if |t| > 0 && (t[0] == '+' || t[0] == '-') then t[1..] else t;
    if EqualsIgnoreCase(body, "inf") || EqualsIgnoreCase(body, "infinity") then Some(Inf)
    else if EqualsIgnoreCase(body, "nan") then Some(NaN)
    else ParseFinite(body, neg)
  }

  /** The unsigned part of a finite literal: a mantissa and an optional exponent. */
  function ParseFinite(body: string, neg: bool): Option<FloatLit>
  {
    var k := Find(body, 'e', 'E');
    var mant := body[..k];
    var expPart := if k < |body| then body[k + 1..] else "0";
    match (Mantissa(mant), DecimalInt(expPart))
    case (Some((ip, fp)), Some(e)) =>
      var m: int := DigitsValue(ip + fp);
      if Overflows(m, e - |fp|) then Some(Inf)
      else Some(Finite(if neg then -m else m, e - |fp|))
    case _ => None
  }

  function Pow2(n: nat): (r: nat)
    ensures r >= 1
  {
    if n == 0 then 1 else 2 * Pow2(n - 1)
  }

  /** The least magnitude that round-to-nearest takes to infinity in IEEE 754
      binary64: halfway between the largest finite double, (2^53 - 1) * 2^971,
      and 2^1024, that is 2^970 * (2^54 - 1). */
  function OverflowThreshold(): nat {
    Pow2(970) * 0x3F_FFFF_FFFF_FFFF
  }

  /** Whether the magnitude m * 10^e (m >= 0) is too large for a double:
      float() then reads the literal as an infinity. */
  predicate Overflows(m: nat, e: int) {
    if e >= 0 then m * Pow10(e) >= OverflowThreshold()
    else m >= OverflowThreshold() * Pow10(-e)
  }

  /** int(v) for v = m * 10^e: truncation toward zero. */
  function TruncDecimal(m: int, e: int): int
  {
    if e >= 0 then m * Pow10(e)
    else if m >= 0 then m / Pow10(-e)
    else -((-m) / Pow10(-e))
  }
}
