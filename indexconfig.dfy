/** data_ingestion/indexer/config.py: the indexing configuration, its YAML
    normalisation in `parse_conf`, and `string_to_integer_transformer`. */
module IndexConfig {
  import opened Common
  import opened PyJson

  /** The two run modes of the indexer. */
  datatype IndexingType = WHOLE | INCREMENTAL

  /** The enum's value string. */
  function IndexingTypeValue(t: IndexingType): string {
    match t
    case WHOLE => "WHOLE"
    case INCREMENTAL => "INCREMENTAL"
  }

  /** `IndexingType(v)`: the member whose value is v. */
  function IndexingTypeOf(v: Json): (r: Option<IndexingType>)
    ensures r.Some? <==> v == JStr("WHOLE") || v == JStr("INCREMENTAL")
    ensures r.Some? ==> v == JStr(IndexingTypeValue(r.value))
  {
    if v == JStr("WHOLE") then Some(WHOLE)
    else if v == JStr("INCREMENTAL") then Some(INCREMENTAL)
    else None
  }

  /** A text field mapping. None stands for a YAML null / absent optional. */
  datatype TextField = TextField(
    typ: string,
    analyzer: Option<string>,
    srcField: seq<string>,
    fields: Option<Json>,
    index: Option<bool>)

  /** Which embedding source is configured; each flag is "the option is not None". */
  datatype EmbeddingMethod = EmbeddingMethod(encoder: bool, file: bool)

  datatype VectorField = VectorField(
    dimension: int,
    srcField: seq<string>,
    annMethod: Json,
    embeddingMethod: EmbeddingMethod)

  /** `Field`: text and vector fields in their declared order; an absent
      (None) mapping and an empty one behave alike everywhere they are read. */
  datatype Fields = Fields(textField: seq<(string, TextField)>, vectorField: seq<(string, VectorField)>)

  /** `Config` after dacite. `settings` is the index settings dict. */
  datatype Config = Config(
    indexName: string,
    settings: seq<(string, Json)>,
    fields: Fields,
    srcFile: seq<string>,
    groupId: string,
    jobId: string,
    docIdFields: seq<string>,
    dedupField: string,
    batchSize: int)

  /** The dataclass default of `Config.batch_size`. */
  const DefaultBatchSize := 2000

  /** `string_to_integer_transformer`: int(float(s)), or 2000 when float() or int()
      raise ValueError. An infinite value raises OverflowError, which is not caught. */
  function StringToInteger(s: string): (r: Result<int, PyError>)
    ensures r.Err? <==> ParseFloat(s) == Some(Inf)
    ensures r.Err? ==> r.error.OverflowError?
    ensures ParseFloat(s).None? || ParseFloat(s) == Some(NaN) ==> r == Ok(DefaultBatchSize)
  {
    match ParseFloat(s)
    case None => Ok(DefaultBatchSize)
    case Some(NaN) => Ok(DefaultBatchSize)
    case Some(Inf) => Err(OverflowError("cannot convert float infinity to integer"))
    case Some(Finite(m, e)) => Ok(TruncDecimal(m, e))
  }

  /** The dict handed to dacite, and the indexing type `parse_conf` computed. */
  datatype ParsedConf = ParsedConf(d: seq<(string, Json)>, indexingType: IndexingType)

  /** The message of the ValueError for an unknown indexing type. */
  const IndexingTypeError := "indexing_type must be one of ['WHOLE', 'INCREMENTAL']"

  /** `parse_conf` after yaml.load, as written: `d["batch_size"]` is read
      unconditionally, so a file without it raises KeyError. */
  function ParseConf(d: seq<(string, Json)>): (r: Result<ParsedConf, PyError>)
    ensures Lookup(d, "batch_size").None? ==> r == Err(KeyError("batch_size"))
    ensures Lookup(d, "batch_size").Some? ==> r == NormaliseConf(d)
  {
    match Lookup(d, "batch_size")
    case None => Err(KeyError("batch_size"))
    case Some(_) => NormaliseConf(d)
  }

  /** `parse_conf` with the batch size read only when present, so that the
      dataclass default applies to a file without it. */
  function ParseConfFixed(d: seq<(string, Json)>): (r: Result<ParsedConf, PyError>)
    ensures Lookup(d, "batch_size").Some? ==> r == ParseConf(d)
    ensures Lookup(d, "batch_size").None? ==> (r.Ok? <==> CheckIndexingType(d).Some?)
    ensures Lookup(d, "batch_size").None? && r.Ok? ==>
      EffectiveBatchSize(r.value.d) == JInt(DefaultBatchSize) && Some(r.value.indexingType) == CheckIndexingType(d)
    ensures r.Ok? ==> forall k :: k != "batch_size" && k != "src_file" && k != "group_id" && k != "job_id" ==>
      Lookup(r.value.d, k) == Lookup(d, k)
  {
    NormaliseConfKeeps(d);
    if Lookup(d, "batch_size").None? then NormaliseConfAbsent(d); NormaliseConf(d)
    else NormaliseConf(d)
  }

  /** Normalising keeps every key but the batch size and the three run fields. */
  lemma NormaliseConfKeeps(d: seq<(string, Json)>)
    ensures NormaliseConf(d).Ok? ==> forall k :: k != "batch_size" && k != "src_file" && k != "group_id" && k != "job_id" ==>
      Lookup(NormaliseConf(d).value.d, k) == Lookup(d, k)
  {
    if NormaliseConf(d).Ok? {
      var d2 := NormaliseBatchSize(d).value;
      assert NormaliseConf(d) == CheckAndReset(d2);
      assert NormaliseConf(d).value.d == ResetRunFields(d2);
    }
  }

  /** Without a batch size nothing is converted: only the indexing type can
      fail, and dacite falls back to the default. */
  lemma NormaliseConfAbsent(d: seq<(string, Json)>)
    requires Lookup(d, "batch_size").None?
    ensures NormaliseConf(d).Ok? <==> CheckIndexingType(d).Some?
    ensures NormaliseConf(d).Ok? ==>
      (EffectiveBatchSize(NormaliseConf(d).value.d) == JInt(DefaultBatchSize) &&
       Some(NormaliseConf(d).value.indexingType) == CheckIndexingType(d))
  {
    assert NormaliseBatchSize(d) == Ok(d);
    assert NormaliseConf(d) == CheckAndReset(d);
  }

  /** Everything `parse_conf` does once the batch size has been read. */
  function NormaliseConf(d: seq<(string, Json)>): (r: Result<ParsedConf, PyError>)
  {
    match NormaliseBatchSize(d)
    case Err(e) => Err(e)
    case Ok(d2) => CheckAndReset(d2)
  }

  /** The indexing type check, then the run fields emptied. */
  function CheckAndReset(d: seq<(string, Json)>): (r: Result<ParsedConf, PyError>)
    ensures r.Ok? <==> CheckIndexingType(d).Some?
    ensures r.Err? ==> r.error == ValueError(IndexingTypeError)
    ensures r.Ok? ==>
      (Some(r.value.indexingType) == CheckIndexingType(d) &&
       Lookup(r.value.d, "batch_size") == Lookup(d, "batch_size"))
  {
    ResetKeepsBatchSize(d);
    match CheckIndexingType(d)
    case None => Err(ValueError(IndexingTypeError))
    case Some(t) => Ok(ParsedConf(ResetRunFields(d), t))
  }

  /** A string batch size is replaced by int(float(s)); any other value is kept,
      and so is every other key. */
  function NormaliseBatchSize(d: seq<(string, Json)>): (r: Result<seq<(string, Json)>, PyError>)
    ensures forall s :: Lookup(d, "batch_size") == Some(JStr(s)) ==>
      (StringToInteger(s).Ok? ==> r.Ok? && Lookup(r.value, "batch_size") == Some(JInt(StringToInteger(s).value))) &&
      (StringToInteger(s).Err? ==> r == Err(StringToInteger(s).error))
    ensures (Lookup(d, "batch_size").None? || !Lookup(d, "batch_size").value.JStr?) ==> r == Ok(d)
    ensures r.Ok? ==> forall k :: k != "batch_size" ==> Lookup(r.value, k) == Lookup(d, k)
  {
    match Lookup(d, "batch_size")
    case Some(JStr(s)) =>
      (match StringToInteger(s) case Ok(n) => Ok(DictSet(d, "batch_size", JInt(n))) case Err(e) => Err(e))
    case _ => Ok(d)
  }

  /** The indexing type: absent means WHOLE, otherwise it must be one of the
      enum's value strings. */
  function CheckIndexingType(d: seq<(string, Json)>): (t: Option<IndexingType>)
    ensures Lookup(d, "indexing_type").None? ==> t == Some(WHOLE)
    ensures Lookup(d, "indexing_type").Some? ==>
      (t.Some? <==> Lookup(d, "indexing_type").value in {JStr("WHOLE"), JStr("INCREMENTAL")})
    ensures Lookup(d, "indexing_type").Some? && t.Some? ==> Lookup(d, "indexing_type").value == JStr(IndexingTypeValue(t.value))
  {
    match Lookup(d, "indexing_type")
    case None => Some(WHOLE)
    case Some(v) => IndexingTypeOf(v)
  }

  /** src_file, group_id and job_id are emptied whatever the file says; every
      other key keeps its value. */
  function ResetRunFields(d: seq<(string, Json)>): (r: seq<(string, Json)>)
    ensures Lookup(r, "src_file") == Some(JList([]))
    ensures Lookup(r, "group_id") == Some(JStr(""))
    ensures Lookup(r, "job_id") == Some(JStr(""))
    ensures forall k :: k != "src_file" && k != "group_id" && k != "job_id" ==> Lookup(r, k) == Lookup(d, k)
  {
    var d1 := DictSet(d, "src_file", JList([]));
    var d2 := DictSet(d1, "group_id", JStr(""));
    DictSet(d2, "job_id", JStr(""))
  }

  lemma ResetKeepsBatchSize(d: seq<(string, Json)>)
    ensures Lookup(ResetRunFields(d), "batch_size") == Lookup(d, "batch_size")
  {
    var d1 := DictSet(d, "src_file", JList([]));
    var d2 := DictSet(d1, "group_id", JStr(""));
    assert "batch_size" != "src_file";
    assert Lookup(d1, "batch_size") == Lookup(d, "batch_size");
    assert "batch_size" != "group_id";
    assert Lookup(d2, "batch_size") == Lookup(d1, "batch_size");
    assert "batch_size" != "job_id";
    assert Lookup(DictSet(d2, "job_id", JStr("")), "batch_size") == Lookup(d2, "batch_size");
  }

  /** The batch size dacite puts in `Config`: the dict's value, or the default. */
  function EffectiveBatchSize(d: seq<(string, Json)>): Json {
    match Lookup(d, "batch_size")
    case Some(v) => v
    case None => JInt(DefaultBatchSize)
  }

  /** The corrected parser lets a file without batch_size reach the 2000 default;
      the one as written never does. */
  lemma BatchSizeDefault(d: seq<(string, Json)>)
    requires Lookup(d, "batch_size").None?
    ensures ParseConf(d) == Err(KeyError("batch_size"))
    ensures ParseConfFixed(d).Ok? ==> EffectiveBatchSize(ParseConfFixed(d).value.d) == JInt(2000)
  {
    var r := ParseConfFixed(d);
    if r.Ok? {
      assert NormaliseBatchSize(d) == Ok(d);
      var t := CheckIndexingType(d);
      assert r.value.d == ResetRunFields(d);
      assert Lookup(r.value.d, "batch_size") == Lookup(d, "batch_size");
    }
  }

  // ------------------------------------------------------------- decimal literals

  lemma DigitsStep(x: int, p: int, d: int, c: int)
    ensures 10 * (x * p + d) + c == x * (10 * p) + (10 * d + c)
  {
  }

  lemma AllDigitsConcat(a: string, b: string)
    requires AllDigits(a) && AllDigits(b)
    ensures AllDigits(a + b)
  {
    forall i | 0 <= i < |a + b| ensures IsDigit((a + b)[i]) {
      if i < |a| { assert (a + b)[i] == a[i]; } else { assert (a + b)[i] == b[i - |a|]; }
    }
  }

  lemma {:induction false} DigitsValueAppend(a: string, b: string)
    requires AllDigits(a) && AllDigits(b)
    ensures AllDigits(a + b)
    ensures DigitsValue(a + b) == DigitsValue(a) * Pow10(|b|) + DigitsValue(b)
    decreases |b|
  {
    AllDigitsConcat(a, b);
    if |b| > 0 {
      var ab := a + b;
      var b' := b[..|b| - 1];
      var c := b[|b| - 1] as int - '0' as int;
      assert ab[..|ab| - 1] == a + b';
      assert ab[|ab| - 1] == b[|b| - 1];
      DigitsValueAppend(a, b');
      var x, p := DigitsValue(a), Pow10(|b'|);
      assert DigitsValue(ab) == 10 * DigitsValue(a + b') + c;
      assert DigitsValue(a + b') == x * p + DigitsValue(b');
      assert Pow10(|b|) == 10 * p;
      assert DigitsValue(b) == 10 * DigitsValue(b') + c;
      DigitsStep(x, p, DigitsValue(b'), c);
    } else {
      assert a + b == a;
    }
  }

  lemma {:induction false} DigitsValueBound(s: string)
    requires AllDigits(s)
    ensures DigitsValue(s) < Pow10(|s|)
    decreases |s|
  {
    if |s| > 0 {
      DigitsValueBound(s[..|s| - 1]);
    }
  }


  lemma {:induction false} FindAbsent(s: string, c1: char, c2: char)
    requires forall i :: 0 <= i < |s| ==> s[i] != c1 && s[i] != c2
    ensures Find(s, c1, c2) == |s|
    decreases |s|
  {
    if |s| > 0 { FindAbsent(s[1..], c1, c2); }
  }

  lemma {:induction false} FindAt(s: string, c1: char, c2: char, j: nat)
    requires j < |s| && (s[j] == c1 || s[j] == c2)
    requires forall i :: 0 <= i < j ==> s[i] != c1 && s[i] != c2
    ensures Find(s, c1, c2) == j
    decreases j
  {
    if j > 0 { FindAt(s[1..], c1, c2, j - 1); }
  }

  /** float() on a literal with no sign, no surrounding space and no exponent
      reads its mantissa as an exact decimal. */
  lemma ParseFloatUnsigned(s: string, ip: string, fp: string)
    requires |s| > 0 && IsDigit(s[0]) && !IsSpace(s[|s| - 1]) && NoUnderscore(s)
    requires Find(s, 'e', 'E') == |s| && Mantissa(s) == Some((ip, fp)) && AllDigits(ip + fp)
    requires |ip| + |fp| <= 15
    ensures ParseFloat(s) == Some(Finite(DigitsValue(ip + fp), 0 - |fp|))
  {
    ParseFloatPlain(s);
    ParseFiniteNoExponent(s, ip, fp);
  }

  /** A literal with no sign and no surrounding space that starts with a digit
      is read as a finite number. */
  lemma ParseFloatPlain(s: string)
    requires |s| > 0 && IsDigit(s[0]) && !IsSpace(s[|s| - 1]) && NoUnderscore(s)
    ensures ParseFloat(s) == ParseFinite(s, false)
  {
    TrimmedAlready(s);
    UngroupedPlain(s);
    TrimmedPlain(s);
  }

  lemma UngroupedPlain(s: string)
    requires NoUnderscore(s)
    ensures ParseFloat(s) == ParseTrimmed(TrimSpace(s))
  {
    assert Ungrouped(s) == Some(s);
  }

  lemma TrimmedPlain(t: string)
    requires |t| > 0 && IsDigit(t[0])
    ensures ParseTrimmed(t) == ParseFinite(t, false)
  {
    NotSpecialSpelling(t);
  }

  /** With no exponent the exponent is 0 and the mantissa alone gives the value. */
  lemma ParseFiniteNoExponent(s: string, ip: string, fp: string)
    requires Find(s, 'e', 'E') == |s| && Mantissa(s) == Some((ip, fp)) && AllDigits(ip + fp)
    requires |ip| + |fp| <= 15
    ensures ParseFinite(s, false) == Some(Finite(DigitsValue(ip + fp), 0 - |fp|))
  {
    var k := Find(s, 'e', 'E');
    assert s[..k] == s;
    DecimalZero();
    FifteenDigitsFinite(ip + fp, |fp|);
    var m := DigitsValue(ip + fp);
    assert !Overflows(m, 0 - |fp|);
    assert ParseFinite(s, false) == Some(Finite(m, 0 - |fp|));
  }

  predicate NoUnderscore(s: string) {
    forall i :: 0 <= i < |s| ==> s[i] != '_'
  }

  /** At most fifteen digits, scaled down by any power of ten, stay far below
      the binary64 overflow threshold. */
  lemma FifteenDigitsFinite(digits: string, n: nat)
    requires AllDigits(digits) && |digits| <= 15
    ensures !Overflows(DigitsValue(digits), 0 - n)
  {
    var m := DigitsValue(digits);
    DigitsValueBound(digits);
    Pow10Monotone(|digits|, 15);
    BelowThreshold(m);
    var t := OverflowThreshold();
    if n > 0 {
      MulAtLeast(Pow10(n), t);
      assert m < t * Pow10(n);
    } else {
      assert Pow10(0) == 1;
      assert m * Pow10(0) < t;
    }
  }

  lemma BelowThreshold(m: nat)
    requires m < Pow10(15)
    ensures m < OverflowThreshold()
  {
    assert Pow10(15) == 1_000_000_000_000_000;
    assert OverflowThreshold() == Pow2(970) * 0x3F_FFFF_FFFF_FFFF;
  }

  lemma DecimalZero()
    ensures DecimalInt("0") == Some(0)
  {
    var z := "0";
    assert z[0] == '0';
    assert AllDigits(z);
    assert z[..0] == "";
  }

  /** A literal that starts with a digit is none of the inf / nan spellings. */
  lemma NotSpecialSpelling(s: string)
    requires |s| > 0 && IsDigit(s[0])
    ensures !EqualsIgnoreCase(s, "inf") && !EqualsIgnoreCase(s, "infinity") && !EqualsIgnoreCase(s, "nan")
  {
    assert LowerChar(s[0]) == s[0];
  }

  /** "I.F" has no exponent marker and splits at its point into I and F. */
  lemma DecimalShape(ip: string, fp: string)
    requires |ip| > 0 && AllDigits(ip) && AllDigits(fp)
    ensures Find(ip + "." + fp, 'e', 'E') == |ip + "." + fp|
    ensures Mantissa(ip + "." + fp) == Some((ip, fp))
    ensures NoUnderscore(ip + "." + fp)
  {
    var s := ip + "." + fp;
    forall i | 0 <= i < |s| ensures s[i] != 'e' && s[i] != 'E' && s[i] != '_' {
      if i < |ip| { assert s[i] == ip[i]; }
      else if i > |ip| { assert s[i] == fp[i - |ip| - 1]; }
    }
    FindAbsent(s, 'e', 'E');
    forall i | 0 <= i < |ip| ensures s[i] != '.' { assert s[i] == ip[i]; }
    FindAt(s, '.', '.', |ip|);
    assert s[..|ip|] == ip && s[|ip| + 1..] == fp;
  }

  /** float() reads "I.F" as the exact decimal DigitsValue(IF) * 10^-|F|
      when it has at most fifteen digits, which a double holds exactly enough. */
  lemma ParseFloatDecimal(ip: string, fp: string)
    requires |ip| > 0 && AllDigits(ip) && AllDigits(fp) && |ip| + |fp| <= 15
    ensures AllDigits(ip + fp)
    ensures ParseFloat(ip + "." + fp) == Some(Finite(DigitsValue(ip + fp), 0 - |fp|))
  {
    var s := ip + "." + fp;
    assert s[0] == ip[0];
    assert s[|s| - 1] == if |fp| > 0 then fp[|fp| - 1] else '.';
    DecimalShape(ip, fp);
    AllDigitsConcat(ip, fp);
    ParseFloatUnsigned(s, ip, fp);
  }

  /** A decimal literal "I.F" (I a non-empty digit string) is read as its
      integer part: int(float("12.75")) == 12. Up to fifteen digits binary64
      rounding cannot move the value across an integer. */
  lemma {:induction false} StringToIntegerDecimal(ip: string, fp: string)
    requires |ip| > 0 && AllDigits(ip) && AllDigits(fp) && |ip| + |fp| <= 15
    ensures StringToInteger(ip + "." + fp) == Ok(DigitsValue(ip))
  {
    var s := ip + "." + fp;
    ParseFloatDecimal(ip, fp);
    var m := DigitsValue(ip + fp);
    assert StringToInteger(s) == Ok(TruncDecimal(m, 0 - |fp|));
    DigitsValueAppend(ip, fp);
    DigitsValueBound(fp);
    TruncShift(m, DigitsValue(ip), DigitsValue(fp), |fp|);
  }

  /** Dropping n fraction digits d from m = x * 10^n + d leaves x. */
  lemma TruncShift(m: int, x: nat, d: nat, n: nat)
    requires d < Pow10(n) && m == x * Pow10(n) + d
    ensures TruncDecimal(m, 0 - n) == x
  {
    if n > 0 {
      assert TruncDecimal(m, 0 - n) == m / Pow10(n);
      DivUnique(m, Pow10(n), x, d);
    } else {
      assert Pow10(0) == 1;
    }
  }

  /** A plain digit string of at most fifteen digits is read as its integer
      value: int(float("2000")) == 2000. */
  lemma {:induction false} StringToIntegerDigits(ip: string)
    requires |ip| > 0 && AllDigits(ip) && |ip| <= 15
    ensures StringToInteger(ip) == Ok(DigitsValue(ip))
  {
    ParseFloatDigits(ip);
    assert TruncDecimal(DigitsValue(ip), 0) == DigitsValue(ip);
  }

  /** float() reads a plain digit string of at most fifteen digits exactly. */
  lemma ParseFloatDigits(ip: string)
    requires |ip| > 0 && AllDigits(ip) && |ip| <= 15
    ensures ParseFloat(ip) == Some(Finite(DigitsValue(ip), 0))
  {
    assert NoUnderscore(ip);
    assert Find(ip, 'e', 'E') == |ip| by { FindAbsent(ip, 'e', 'E'); }
    assert Mantissa(ip) == Some((ip, "")) by {
      FindAbsent(ip, '.', '.');
      assert ip[..|ip|] == ip;
    }
    assert ip + "" == ip;
    ParseFloatUnsigned(ip, ip, "");
  }

}
