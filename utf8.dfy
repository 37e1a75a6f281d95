/** Repair of function-call arguments that are not valid UTF-8: the bytes of
    Go's `convertArgumentsToUTF8IfNot`. Decoding follows the UTF-8 syntax of
    section 4 of RFC 3629 as Go's `utf8.DecodeRune` applies it: a byte that
    does not start a well-formed sequence decodes as U+FFFD with width 1. */
module Utf8Repair {
  import opened Common
  import opened GoValue

  newtype byte = x: int | 0 <= x < 256

  const RuneError := 0xFFFD

  predicate Cont(b: byte) { 0x80 <= b <= 0xBF }

  /** `utf8.DecodeRune`: the first rune and the number of bytes it takes. */
  function DecodeRune(s: seq<byte>): (r: (int, nat))
    requires |s| > 0
    ensures 1 <= r.1 <= 4 && r.1 <= |s|
    ensures r.1 > 1 ==> r.0 != RuneError || r.1 == 3
  {
    var b0 := s[0];
    if b0 < 0x80 then (b0 as int, 1)
    else if 0xC2 <= b0 <= 0xDF then
      if |s| >= 2 && Cont(s[1]) then ((b0 as int - 0xC0) * 64 + (s[1] as int - 0x80), 2)
      else (RuneError, 1)
    else if 0xE0 <= b0 <= 0xEF then
      var lo := if b0 == 0xE0 then 0xA0 else 0x80;
      var hi := if b0 == 0xED then 0x9F else 0xBF;
      if |s| >= 3 && lo <= s[1] <= hi && Cont(s[2]) then
        ((b0 as int - 0xE0) * 4096 + (s[1] as int - 0x80) * 64 + (s[2] as int - 0x80), 3)
      else (RuneError, 1)
    else if 0xF0 <= b0 <= 0xF4 then
      var lo := if b0 == 0xF0 then 0x90 else 0x80;
      var hi := if b0 == 0xF4 then 0x8F else 0xBF;
      if |s| >= 4 && lo <= s[1] <= hi && Cont(s[2]) && Cont(s[3]) then
        ((b0 as int - 0xF0) * 262144 + (s[1] as int - 0x80) * 4096 + (s[2] as int - 0x80) * 64 +
         (s[3] as int - 0x80), 4)
      else (RuneError, 1)
    else (RuneError, 1)
  }

  /** The first bytes do not start a well-formed sequence. */
  predicate Invalid(s: seq<byte>)
    requires |s| > 0
  {
    DecodeRune(s) == (RuneError, 1)
  }

  /** `utf8.ValidString`: every step of decoding finds a well-formed sequence. */
  predicate Valid(s: seq<byte>)
    decreases |s|
  {
    |s| == 0 || (!Invalid(s) && Valid(s[DecodeRune(s).1..]))
  }

  /** The runes the repair loop collects: a byte that does not decode stands
      for the code point of its own value. */
  function Runes(s: seq<byte>): (r: seq<int>)
    ensures |r| <= |s|
    ensures forall i :: 0 <= i < |r| ==> 0 <= r[i]
    decreases |s|
  {
    if |s| == 0 then []
    else
      var (rune, size) := DecodeRune(s);
      [if rune == RuneError && size == 1 then s[0] as int else rune] + Runes(s[size..])
  }

  /** The ISO-8859-1 encoder: each rune up to U+00FF is the byte of that
      value; any other rune makes encoding fail. */
  function Latin1(runes: seq<int>): (r: Option<seq<byte>>)
    requires forall i :: 0 <= i < |runes| ==> 0 <= runes[i]
    ensures r.Some? <==> forall i :: 0 <= i < |runes| ==> runes[i] <= 0xFF
    ensures r.Some? ==> |r.value| == |runes| && forall i :: 0 <= i < |runes| ==> r.value[i] as int == runes[i]
  {
    if |runes| == 0 then Some([])
    else if runes[0] > 0xFF then None
    else match Latin1(runes[1..])
      case None => None
      case Some(rest) => Some([runes[0] as byte] + rest)
  }

  /** The replacement character U+FFFD in UTF-8. */
  const Replacement: seq<byte> := [0xEF, 0xBF, 0xBD]

  /** The UTF-8 decoder of the text encoding package: well-formed sequences
      pass through, each byte that does not decode becomes U+FFFD. */
  function Sanitize(s: seq<byte>): seq<byte>
    decreases |s|
  {
    if |s| == 0 then []
    else
      var size := DecodeRune(s).1;
      (if Invalid(s) then Replacement else s[..size]) + Sanitize(s[size..])
  }

  /** Decoding looks no further than the sequence it finds. */
  lemma DecodePrefix(s: seq<byte>, rest: seq<byte>)
    requires |s| > 0 && !Invalid(s) && DecodeRune(s).1 == |s|
    ensures DecodeRune(s + rest) == DecodeRune(s)
  {
    assert (s + rest)[0] == s[0];
    if |s| >= 2 { assert (s + rest)[1] == s[1]; }
    if |s| >= 3 { assert (s + rest)[2] == s[2]; }
    if |s| >= 4 { assert (s + rest)[3] == s[3]; }
  }

  /** Whatever the decoder is given, its output is valid UTF-8. */
  lemma {:induction false} SanitizeValid(s: seq<byte>)
    ensures Valid(Sanitize(s))
    decreases |s|
  {
    if |s| > 0 {
      var size := DecodeRune(s).1;
      SanitizeValid(s[size..]);
      var rest := Sanitize(s[size..]);
      var head := if Invalid(s) then Replacement else s[..size];
      assert Sanitize(s) == head + rest;
      if Invalid(s) {
        assert DecodeRune(Replacement) == (RuneError, 3);
      } else {
        assert DecodeRune(s[..size]) == DecodeRune(s) by {
          DecodePrefix(s[..size], s[size..]);
          assert s[..size] + s[size..] == s;
        }
      }
      DecodePrefix(head, rest);
      assert (head + rest)[|head|..] == rest;
    }
  }

  /** Sanitizing valid UTF-8 changes nothing. */
  lemma {:induction false} SanitizeValidIdentity(s: seq<byte>)
    requires Valid(s)
    ensures Sanitize(s) == s
    decreases |s|
  {
    if |s| > 0 {
      var size := DecodeRune(s).1;
      SanitizeValidIdentity(s[size..]);
      assert s[..size] + s[size..] == s;
    }
  }

  /** A byte as the UTF-8 encoding of the Latin-1 character of that value. */
  function Latin1Char(b: byte): seq<byte>
  {
    if b < 0x80 then [b]
    else if b < 0xC0 then [0xC2, b]
    else [0xC3, b - 0x40]
  }

  /** Bytes read as Latin-1 text and written out as UTF-8. */
  function Latin1ToUtf8(b: seq<byte>): seq<byte>
  {
    if |b| == 0 then [] else Latin1Char(b[0]) + Latin1ToUtf8(b[1..])
  }

  /** The repair step undoes that re-encoding: collecting the runes of the
      re-encoded text and writing them as Latin-1 gives the original bytes. */
  lemma {:induction false} Latin1RoundTrip(b: seq<byte>)
    ensures Latin1(Runes(Latin1ToUtf8(b))) == Some(b)
    decreases |b|
  {
    if |b| > 0 {
      Latin1RoundTrip(b[1..]);
      var head := Latin1Char(b[0]);
      var rest := Latin1ToUtf8(b[1..]);
      assert Latin1ToUtf8(b) == head + rest;
      assert DecodeRune(head) == (b[0] as int, |head|);
      DecodePrefix(head, rest);
      assert (head + rest)[|head|..] == rest;
      assert Runes(head + rest) == [b[0] as int] + Runes(rest);
      assert [b[0]] + b[1..] == b;
    }
  }

  const NoStandaloneQuery := Error("there is no standalone_query in arguments")

  /** `setNewStandaloneQuery`: the arguments decoded, `standalone_query`
      replaced, and encoded again. */
  function SetNewStandaloneQuery(sargs: seq<byte>, query: string,
                                 unmarshal: seq<byte> -> Result<map<string, Val>, GoError>,
                                 marshal: map<string, Val> -> Result<seq<byte>, GoError>): (r: Result<seq<byte>, GoError>)
    ensures unmarshal(sargs).Err? ==> r == Err(unmarshal(sargs).error)
    ensures unmarshal(sargs).Ok? && "standalone_query" !in unmarshal(sargs).value ==> r == Err(NoStandaloneQuery)
    ensures unmarshal(sargs).Ok? && "standalone_query" in unmarshal(sargs).value ==>
      r == marshal(unmarshal(sargs).value["standalone_query" := Str(query)])
  {
    match unmarshal(sargs)
    case Err(e) => Err(e)
    case Ok(margs) =>
      if "standalone_query" in margs then marshal(margs["standalone_query" := Str(query)])
      else Err(NoStandaloneQuery)
  }

  /** What `convertArgumentsToUTF8IfNot` answers. */
  function ConvertedArguments(sargs: seq<byte>, query: string,
                              unmarshal: seq<byte> -> Result<map<string, Val>, GoError>,
                              marshal: map<string, Val> -> Result<seq<byte>, GoError>): Result<seq<byte>, GoError>
  {
    if Valid(sargs) then Ok(sargs)
    else match Latin1(Runes(sargs))
      case None => SetNewStandaloneQuery(sargs, query, unmarshal, marshal)
      case Some(bytes) => Ok(Sanitize(bytes))
  }

  /** Valid input comes back unchanged; repaired input is always valid
      UTF-8; input with a rune beyond Latin-1 falls back to replacing the
      standalone query. */
  lemma ConvertedArgumentsOutcomes(sargs: seq<byte>, query: string,
                                   unmarshal: seq<byte> -> Result<map<string, Val>, GoError>,
                                   marshal: map<string, Val> -> Result<seq<byte>, GoError>)
    ensures Valid(sargs) ==> ConvertedArguments(sargs, query, unmarshal, marshal) == Ok(sargs)
    ensures !Valid(sargs) && Latin1(Runes(sargs)).Some? ==>
      ConvertedArguments(sargs, query, unmarshal, marshal).Ok? &&
      Valid(ConvertedArguments(sargs, query, unmarshal, marshal).value) &&
      |ConvertedArguments(sargs, query, unmarshal, marshal).value| <= 3 * |sargs|
    ensures !Valid(sargs) && Latin1(Runes(sargs)).None? ==>
      ConvertedArguments(sargs, query, unmarshal, marshal) == SetNewStandaloneQuery(sargs, query, unmarshal, marshal)
  {
    if !Valid(sargs) && Latin1(Runes(sargs)).Some? {
      var bytes := Latin1(Runes(sargs)).value;
      SanitizeValid(bytes);
      SanitizeLength(bytes);
    }
  }

  lemma {:induction false} SanitizeLength(s: seq<byte>)
    ensures |Sanitize(s)| <= 3 * |s|
    decreases |s|
  {
    if |s| > 0 {
      SanitizeLength(s[DecodeRune(s).1..]);
    }
  }

  /** The decoding loop: runes are collected one at a time from the front. */
  method CollectRunes(sargs: seq<byte>) returns (converted: seq<int>)
    ensures converted == Runes(sargs)
  {
    converted := [];
    var invalid := sargs;
    while |invalid| > 0
      invariant converted + Runes(invalid) == Runes(sargs)
      decreases |invalid|
    {
      var (r, size) := DecodeRune(invalid);
      RunesStep(invalid);
      var next: int;
      if r == RuneError && size == 1 {
        next := invalid[0] as int;
      } else {
        next := r;
      }
      assert converted + [next] + Runes(invalid[size..]) == converted + Runes(invalid);
      converted := converted + [next];
      invalid := invalid[size..];
    }
  }

  /** One rune taken from the front of the bytes. */
  lemma RunesStep(s: seq<byte>)
    requires |s| > 0
    ensures var (rune, size) := DecodeRune(s);
      Runes(s) == [if rune == RuneError && size == 1 then s[0] as int else rune] + Runes(s[size..])
  {
  }

  /** `convertArgumentsToUTF8IfNot`. */
  method ConvertArgumentsToUtf8IfNot(sargs: seq<byte>, query: string,
                                     unmarshal: seq<byte> -> Result<map<string, Val>, GoError>,
                                     marshal: map<string, Val> -> Result<seq<byte>, GoError>)
    returns (r: Result<seq<byte>, GoError>)
    ensures r == ConvertedArguments(sargs, query, unmarshal, marshal)
  {
    if Valid(sargs) {
      return Ok(sargs);
    }
    var converted := CollectRunes(sargs);
    var encoded := Latin1(converted);
    if encoded.None? {
      return SetNewStandaloneQuery(sargs, query, unmarshal, marshal);
    }
    r := Ok(Sanitize(encoded.value));
  }
}
