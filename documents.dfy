/** Document assembly in data_ingestion/indexer/indexer.py: the composite
    document id, the merge of source fields, and the per-record loop shared by
    `_load_index_docs` and `_process_index_docs`. */
module IndexDocuments {
  import opened Common
  import opened PyJson
  import opened IndexConfig
  import opened IndexUploader

  /** An index document `{doc_id: fields}`: always a one-key dict here. */
  type IndexDoc = (string, Doc)

  const GroupIdKey := "upstage_group_id"
  const FileSourceError := "src_field should be one when embedding_method is file"

  /** `prepend_inner_key_prefix`. */
  function InnerKey(name: string): (r: string)
    ensures StartsWith(r, "upstage_") && r[8..] == name
  {
    "upstage_" + name
  }

  /** `[record[f] for f in fs]`: every lookup in order, the first failure raised. */
  function Gather(record: Json, fs: seq<string>): (r: Result<seq<Json>, PyError>)
    ensures r.Ok? <==> forall i :: 0 <= i < |fs| ==> Subscript(record, fs[i]).Ok?
    ensures r.Ok? ==> |r.value| == |fs| && forall i :: 0 <= i < |fs| ==> r.value[i] == Subscript(record, fs[i]).value
    ensures r.Err? ==> exists i :: (0 <= i < |fs| && Subscript(record, fs[i]) == Err(r.error) &&
      forall j :: 0 <= j < i ==> Subscript(record, fs[j]).Ok?)
    decreases |fs|
  {
    if |fs| == 0 then Ok([])
    else
      match Subscript(record, fs[0])
      case Err(e) => Err(e)
      case Ok(v) =>
        match Gather(record, fs[1..])
        case Err(e) =>
          assert forall j :: 1 <= j <= |fs[1..]| ==> fs[j] == fs[1..][j - 1];
          Err(e)
        case Ok(vs) => Ok([v] + vs)
  }

  function StrAll(vs: seq<Json>): (r: seq<string>)
    ensures |r| == |vs| && forall i :: 0 <= i < |vs| ==> r[i] == Str(vs[i])
  {
    seq(|vs|, i requires 0 <= i < |vs| => Str(vs[i]))
  }

  /** `_composite_key`: the str() of each id field's value, joined with "_" in
      declared order. */
  function CompositeKey(record: Json, idFields: seq<string>): (r: Result<string, PyError>)
    ensures r.Ok? <==> Gather(record, idFields).Ok?
    ensures r.Err? ==> r.error == Gather(record, idFields).error
  {
    match Gather(record, idFields)
    case Err(e) => Err(e)
    case Ok(vs) => Ok(Join(StrAll(vs), "_"))
  }

  /** Index of the first non-string value, or |vs|. */
  function FirstNonStr(vs: seq<Json>): (i: nat)
    ensures i <= |vs| && (forall j :: 0 <= j < i ==> vs[j].JStr?) && (i < |vs| ==> !vs[i].JStr?)
  {
    if |vs| == 0 then 0 else if !vs[0].JStr? then 0 else 1 + FirstNonStr(vs[1..])
  }

  /** `" ".join(vs)`: every item must be a str. */
  function JoinStrs(vs: seq<Json>): (r: Result<string, PyError>)
    ensures r.Ok? <==> forall i :: 0 <= i < |vs| ==> vs[i].JStr?
    ensures r.Ok? ==> r.value == Join(StrAll(vs), " ")
    ensures r.Err? ==> r.error.TypeError?
  {
    var i := FirstNonStr(vs);
    if i < |vs| then
      Err(TypeError("sequence item " + IntToString(i) + ": expected str instance, " + TypeName(vs[i]) + " found"))
    else Ok(Join(StrAll(vs), " "))
  }

  /** `_merge_source_fields(key, field, record)`. `fieldType` is `field.type`;
      None stands for a field object that has no `type` attribute (a vector
      field), on which the one-source branch raises AttributeError. */
  function MergeSourceFields(key: string, fieldType: Option<string>, srcs: seq<string>, record: Json): (r: Result<Json, PyError>)
    // one integer source: the raw value, after int() accepted it
    ensures |srcs| == 1 && fieldType == Some("integer") ==>
      (r.Ok? <==> Subscript(record, srcs[0]).Ok? && IntCheck(Subscript(record, srcs[0]).value).None?) &&
      (r.Ok? ==> r.value == Subscript(record, srcs[0]).value)
    // one other source: its str()
    ensures |srcs| == 1 && fieldType.Some? && fieldType.value != "integer" ==>
      (r.Ok? <==> Subscript(record, srcs[0]).Ok?) && (r.Ok? ==> r.value == JStr(Str(Subscript(record, srcs[0]).value)))
    ensures |srcs| == 1 && fieldType.None? ==> r.Err? && r.error.AttributeError?
    // several sources: space-joined strings in listed order
    ensures |srcs| > 1 ==>
      (r.Ok? <==> Gather(record, srcs).Ok? && forall i :: 0 <= i < |srcs| ==> Gather(record, srcs).value[i].JStr?) &&
      (r.Ok? ==> r.value == JStr(Join(StrAll(Gather(record, srcs).value), " ")))
    // no source: str(record[key])
    ensures |srcs| == 0 ==> (r.Ok? <==> Subscript(record, key).Ok?) && (r.Ok? ==> r.value == JStr(Str(Subscript(record, key).value)))
  {
    if |srcs| == 1 then
      if fieldType.None? then Err(AttributeError("'VectorField' object has no attribute 'type'"))
      else if fieldType.value == "integer" then
        match Subscript(record, srcs[0])
        case Err(e) => Err(e)
        case Ok(v) => (match IntCheck(v) case Some(e) => Err(e) case None => Ok(v))
      else
        match Subscript(record, srcs[0])
        case Err(e) => Err(e)
        case Ok(v) => Ok(JStr(Str(v)))
    else if |srcs| > 1 then
      match Gather(record, srcs)
      case Err(e) => Err(e)
      case Ok(vs) => (match JoinStrs(vs) case Err(e) => Err(e) case Ok(s) => Ok(JStr(s)))
    else
      match Subscript(record, key)
      case Err(e) => Err(e)
      case Ok(v) => Ok(JStr(Str(v)))
  }

  /** The value one text field contributes. */
  function TextValue(tf: (string, TextField), record: Json): Result<Json, PyError> {
    MergeSourceFields(tf.0, Some(tf.1.typ), tf.1.srcField, record)
  }

  /** The value one vector field contributes: the text to embed (encoder), the
      stored vector (file, exactly one source), or nothing (neither).
      `vectorType` is what `field.type` yields on a vector field. */
  function VectorValue(vf: (string, VectorField), record: Json, vectorType: Option<string>): Option<Result<Json, PyError>> {
    var f := vf.1;
    if f.embeddingMethod.encoder then Some(MergeSourceFields(vf.0, vectorType, f.srcField, record))
    else if f.embeddingMethod.file then
      if |f.srcField| != 1 then Some(Err(Exception(FileSourceError)))
      else Some(Subscript(record, f.srcField[0]))
    else None
  }

  /** The text-field loop: each field's value assigned in order. */
  function TextFold(tfs: seq<(string, TextField)>, record: Json, doc: Doc): Result<Doc, PyError>
    decreases |tfs|
  {
    if |tfs| == 0 then Ok(doc)
    else
      match TextValue(tfs[0], record)
      case Err(e) => Err(e)
      case Ok(v) => TextFold(tfs[1..], record, doc[tfs[0].0 := v])
  }

  /** The vector-field loop. */
  function VectorFold(vfs: seq<(string, VectorField)>, record: Json, doc: Doc, vectorType: Option<string>): Result<Doc, PyError>
    decreases |vfs|
  {
    if |vfs| == 0 then Ok(doc)
    else
      match VectorValue(vfs[0], record, vectorType)
      case None => VectorFold(vfs[1..], record, doc, vectorType)
      case Some(Err(e)) => Err(e)
      case Some(Ok(v)) => VectorFold(vfs[1..], record, doc[vfs[0].0 := v], vectorType)
  }

  /** One record turned into its index document, or the exception raised. */
  function AssembleDoc(cfg: Config, record: Json, vectorType: Option<string>): Result<IndexDoc, PyError> {
    match CompositeKey(record, cfg.docIdFields)
    case Err(e) => Err(e)
    case Ok(id) =>
      match TextFold(cfg.fields.textField, record, map[])
      case Err(e) => Err(e)
      case Ok(d1) =>
        match VectorFold(cfg.fields.vectorField, record, d1, vectorType)
        case Err(e) => Err(e)
        case Ok(d2) => Ok((id, d2[InnerKey("group_id") := JStr(cfg.groupId)]))
  }

  /** What `field.type` yields on a vector field as the code is written: nothing. */
  const AsWrittenVectorType: Option<string> := None
  /** The evidently intended reading: a vector field's text is its source's str(). */
  const IntendedVectorType: Option<string> := Some("knn_vector")

  /** Every record assembled by `assemble`, in order; the first failure raised. */
  function LoadWith(assemble: Json -> Result<IndexDoc, PyError>, records: seq<Json>): (r: Result<seq<IndexDoc>, PyError>)
    ensures r.Ok? <==> forall i :: 0 <= i < |records| ==> assemble(records[i]).Ok?
    ensures r.Ok? ==> (|r.value| == |records| &&
      forall i :: 0 <= i < |records| ==> assemble(records[i]) == Ok(r.value[i]))
    decreases |records|
  {
    if |records| == 0 then Ok([])
    else
      match assemble(records[0])
      case Err(e) => Err(e)
      case Ok(d) =>
        match LoadWith(assemble, records[1..])
        case Err(e) =>
          assert exists i :: 1 <= i < |records| && assemble(records[i]).Err? by {
            var i :| 0 <= i < |records[1..]| && assemble(records[1..][i]).Err?;
            assert records[1..][i] == records[i + 1];
          }
          Err(e)
        case Ok(ds) =>
          assert forall i :: 1 <= i < |records| ==> records[i] == records[1..][i - 1];
          Ok([d] + ds)
  }

  /** The assembly of one record under a configuration. */
  function AssemblerFor(cfg: Config, vectorType: Option<string>): Json -> Result<IndexDoc, PyError> {
    record => AssembleDoc(cfg, record, vectorType)
  }

  /** `_load_index_docs`: every record assembled, in order; the first failure raised. */
  function LoadDocs(cfg: Config, records: seq<Json>, vectorType: Option<string>): (r: Result<seq<IndexDoc>, PyError>)
    ensures r.Ok? <==> forall i :: 0 <= i < |records| ==> AssembleDoc(cfg, records[i], vectorType).Ok?
    ensures r.Ok? ==> (|r.value| == |records| &&
      forall i :: 0 <= i < |records| ==> AssembleDoc(cfg, records[i], vectorType) == Ok(r.value[i]))
  {
    LoadWith(AssemblerFor(cfg, vectorType), records)
  }

  // ------------------------------------------------------------------ methods

  /** The text-field loop of `_load_index_docs` / `_process_index_docs`. */
  method FillTextFields(tfs: seq<(string, TextField)>, record: Json, doc: Doc) returns (r: Result<Doc, PyError>)
    ensures r == TextFold(tfs, record, doc)
  {
    var d := doc;
    var i := 0;
    while i < |tfs|
      invariant 0 <= i <= |tfs|
      invariant TextFold(tfs, record, doc) == TextFold(tfs[i..], record, d)
    {
      var v := TextValue(tfs[i], record);
      assert tfs[i..][1..] == tfs[i + 1..];
      if v.Err? {
        return Err(v.error);
      }
      d := d[tfs[i].0 := v.value];
      i := i + 1;
    }
    r := Ok(d);
  }

  /** The vector-field loop of `_load_index_docs` / `_process_index_docs`. */
  method FillVectorFields(vfs: seq<(string, VectorField)>, record: Json, doc: Doc, vectorType: Option<string>) returns (r: Result<Doc, PyError>)
    ensures r == VectorFold(vfs, record, doc, vectorType)
  {
    var d := doc;
    var i := 0;
    while i < |vfs|
      invariant 0 <= i <= |vfs|
      invariant VectorFold(vfs, record, doc, vectorType) == VectorFold(vfs[i..], record, d, vectorType)
    {
      var v := VectorValue(vfs[i], record, vectorType);
      assert vfs[i..][1..] == vfs[i + 1..];
      if v.Some? {
        if v.value.Err? {
          return Err(v.value.error);
        }
        d := d[vfs[i].0 := v.value.value];
      }
      i := i + 1;
    }
    r := Ok(d);
  }

  /** The per-record body: id, text fields, vector fields, group id. */
  method AssembleRecord(cfg: Config, record: Json, vectorType: Option<string>) returns (r: Result<IndexDoc, PyError>)
    ensures r == AssembleDoc(cfg, record, vectorType)
  {
    var id := CompositeKey(record, cfg.docIdFields);
    if id.Err? {
      return Err(id.error);
    }
    var d1 := FillTextFields(cfg.fields.textField, record, map[]);
    if d1.Err? {
      return Err(d1.error);
    }
    var d2 := FillVectorFields(cfg.fields.vectorField, record, d1.value, vectorType);
    if d2.Err? {
      return Err(d2.error);
    }
    r := Ok((id.value, d2.value[InnerKey("group_id") := JStr(cfg.groupId)]));
  }

  /** `_load_index_docs` over already decoded lines. */
  method LoadIndexDocs(cfg: Config, records: seq<Json>, vectorType: Option<string>) returns (r: Result<seq<IndexDoc>, PyError>)
    ensures r == LoadDocs(cfg, records, vectorType)
  {
    var docs: seq<IndexDoc> := [];
    var i := 0;
    while i < |records|
      invariant 0 <= i <= |records|
      invariant LoadDocs(cfg, records[..i], vectorType) == Ok(docs)
    {
      var d := AssembleRecord(cfg, records[i], vectorType);
      if d.Err? {
        LoadDocsPrefixErr(cfg, records, i, vectorType);
        return Err(d.error);
      }
      LoadDocsNext(cfg, records, i, docs, d.value, vectorType);
      docs := docs + [d.value];
      i := i + 1;
    }
    assert records[..i] == records;
    r := Ok(docs);
  }

  // ------------------------------------------------------------------ lemmas

  /** One successful turn of the load loop extends the prefix's documents. */
  lemma LoadDocsNext(cfg: Config, records: seq<Json>, i: nat, docs: seq<IndexDoc>, d: IndexDoc, vectorType: Option<string>)
    requires i < |records| && LoadDocs(cfg, records[..i], vectorType) == Ok(docs)
    requires AssembleDoc(cfg, records[i], vectorType) == Ok(d)
    ensures LoadDocs(cfg, records[..i + 1], vectorType) == Ok(docs + [d])
  {
    var pre, next := records[..i], records[..i + 1];
    assert next == pre + [records[i]];
    LoadWithSnoc(AssemblerFor(cfg, vectorType), pre, records[i]);
  }

  lemma {:induction false} LoadWithSnoc(assemble: Json -> Result<IndexDoc, PyError>, records: seq<Json>, rec: Json)
    requires LoadWith(assemble, records).Ok? && assemble(rec).Ok?
    ensures LoadWith(assemble, records + [rec]) == Ok(LoadWith(assemble, records).value + [assemble(rec).value])
    decreases |records|
  {
    if |records| > 0 {
      assert (records + [rec])[0] == records[0] && (records + [rec])[1..] == records[1..] + [rec];
      LoadWithSnoc(assemble, records[1..], rec);
      var d0 := assemble(records[0]).value;
      var rest := LoadWith(assemble, records[1..]).value;
      var d := assemble(rec).value;
      assert LoadWith(assemble, records) == Ok([d0] + rest);
      assert LoadWith(assemble, records + [rec]) == Ok([d0] + (rest + [d]));
      assert [d0] + (rest + [d]) == ([d0] + rest) + [d];
    } else {
      assert records + [rec] == [rec] && [rec][1..] == [];
      assert LoadWith(assemble, [rec][1..]) == Ok([]);
      var d := assemble(rec).value;
      assert [d] + [] == [] + [d];
    }
  }

  /** The first failing record's exception is what loading raises. */
  lemma LoadDocsPrefixErr(cfg: Config, records: seq<Json>, i: nat, vectorType: Option<string>)
    requires i < |records| && LoadDocs(cfg, records[..i], vectorType).Ok? && AssembleDoc(cfg, records[i], vectorType).Err?
    ensures LoadDocs(cfg, records, vectorType) == Err(AssembleDoc(cfg, records[i], vectorType).error)
  {
    LoadWithPrefixErr(AssemblerFor(cfg, vectorType), records, i);
  }

  lemma {:induction false} LoadWithPrefixErr(assemble: Json -> Result<IndexDoc, PyError>, records: seq<Json>, i: nat)
    requires i < |records| && LoadWith(assemble, records[..i]).Ok? && assemble(records[i]).Err?
    ensures LoadWith(assemble, records) == Err(assemble(records[i]).error)
    decreases i
  {
    if i > 0 {
      assert records[1..][..i - 1] == records[..i][1..];
      assert records[1..][i - 1] == records[i];
      LoadWithPrefixErr(assemble, records[1..], i - 1);
    }
  }

  /** Splitting a "_"-joined list with no "_" in its pieces gives back the pieces. */
  lemma {:induction false} SplitJoin(parts: seq<string>, sep: char)
    requires |parts| >= 1 && forall i :: 0 <= i < |parts| ==> !HasChar(parts[i], sep)
    ensures Split(Join(parts, [sep]), sep) == parts
  {
    JoinSplitUnique(Join(parts, [sep]), parts, sep);
  }

  /** A string has one decomposition into separator-free pieces. */
  lemma {:induction false} JoinSplitUnique(s: string, parts: seq<string>, sep: char)
    requires |parts| >= 1 && forall i :: 0 <= i < |parts| ==> !HasChar(parts[i], sep)
    requires Join(parts, [sep]) == s
    ensures Split(s, sep) == parts
    decreases |s|, |parts|
  {
    var r := Split(s, sep);
    if |parts| == 1 {
      assert s == parts[0];
    } else if |parts[0]| == 0 {
      assert s == [sep] + Join(parts[1..], [sep]);
      assert s[1..] == Join(parts[1..], [sep]);
      JoinSplitUnique(s[1..], parts[1..], sep);
      assert s[0] == sep;
      assert r == [""] + parts[1..];
    } else {
      var p0 := parts[0];
      var tail := [p0[1..]] + parts[1..];
      assert !HasChar(p0[1..], sep);
      assert forall i :: 0 <= i < |tail| ==> !HasChar(tail[i], sep) by {
        forall i | 0 <= i < |tail| ensures !HasChar(tail[i], sep) {
          if i > 0 { assert tail[i] == parts[i]; }
        }
      }
      assert s == p0 + [sep] + Join(parts[1..], [sep]);
      assert Join(tail, [sep]) == p0[1..] + [sep] + Join(parts[1..], [sep]);
      assert s[1..] == Join(tail, [sep]);
      JoinSplitUnique(s[1..], tail, sep);
      assert s[0] == p0[0] && p0[0] != sep;
      assert p0 == [p0[0]] + p0[1..];
    }
  }

  /** Composite ids determine their components: two records with at least one id
      field and no "_" in the str() of any id value share an id exactly when
      their id values print alike. */
  lemma CompositeKeyInjective(a: Json, b: Json, idFields: seq<string>)
    requires |idFields| >= 1
    requires CompositeKey(a, idFields).Ok? && CompositeKey(b, idFields).Ok?
    requires forall i :: 0 <= i < |idFields| ==> !HasChar(Str(Gather(a, idFields).value[i]), '_')
    requires forall i :: 0 <= i < |idFields| ==> !HasChar(Str(Gather(b, idFields).value[i]), '_')
    ensures CompositeKey(a, idFields) == CompositeKey(b, idFields) <==>
      StrAll(Gather(a, idFields).value) == StrAll(Gather(b, idFields).value)
  {
    var sa := StrAll(Gather(a, idFields).value);
    var sb := StrAll(Gather(b, idFields).value);
    if CompositeKey(a, idFields) == CompositeKey(b, idFields) {
      SplitJoin(sa, '_');
      SplitJoin(sb, '_');
    }
  }

  /** Some declaration in the list has this name. */
  predicate Declares<F>(fs: seq<(string, F)>, k: string) {
    exists i :: 0 <= i < |fs| && fs[i].0 == k
  }

  /** The text loop assigns exactly the declared text field names. */
  lemma {:induction false} TextFoldKeys(tfs: seq<(string, TextField)>, record: Json, doc: Doc)
    requires TextFold(tfs, record, doc).Ok?
    ensures forall k :: k in TextFold(tfs, record, doc).value <==> k in doc || Declares(tfs, k)
    decreases |tfs|
  {
    if |tfs| > 0 {
      var v := TextValue(tfs[0], record).value;
      TextFoldKeys(tfs[1..], record, doc[tfs[0].0 := v]);
      forall k ensures Declares(tfs, k) <==> k == tfs[0].0 || Declares(tfs[1..], k) {
        if Declares(tfs, k) {
          var i :| 0 <= i < |tfs| && tfs[i].0 == k;
          if i > 0 { assert tfs[1..][i - 1].0 == k; }
        }
        if Declares(tfs[1..], k) {
          var i :| 0 <= i < |tfs[1..]| && tfs[1..][i].0 == k;
          assert tfs[i + 1].0 == k;
        }
      }
    }
  }

  /** A vector field embedded from a file needs exactly one source field: with
      any other count the vector loop raises, before any later field. */
  lemma {:induction false} FileFieldNeedsOneSource(vfs: seq<(string, VectorField)>, record: Json, doc: Doc, vectorType: Option<string>, i: nat)
    requires i < |vfs| && !vfs[i].1.embeddingMethod.encoder && vfs[i].1.embeddingMethod.file && |vfs[i].1.srcField| != 1
    ensures VectorFold(vfs, record, doc, vectorType).Err?
    decreases i
  {
    if i > 0 {
      match VectorValue(vfs[0], record, vectorType)
      case None =>
        FileFieldNeedsOneSource(vfs[1..], record, doc, vectorType, i - 1);
      case Some(Err(e)) =>
      case Some(Ok(v)) =>
        FileFieldNeedsOneSource(vfs[1..], record, doc[vfs[0].0 := v], vectorType, i - 1);
    }
  }

  /** Every assembled document carries the run's group id and the record's
      composite id. */
  lemma AssembledDoc(cfg: Config, record: Json, vectorType: Option<string>)
    requires AssembleDoc(cfg, record, vectorType).Ok?
    ensures var d := AssembleDoc(cfg, record, vectorType).value;
      CompositeKey(record, cfg.docIdFields) == Ok(d.0) &&
      GroupIdKey in d.1 && d.1[GroupIdKey] == JStr(cfg.groupId)
  {
    assert InnerKey("group_id") == GroupIdKey;
  }

  // ------------------------------------------------------------------ finding

  /** A configuration with one encoder-embedded vector field read from one source. */
  function EncoderConfig(): Config {
    Config("news", [], Fields([], [("vec", VectorField(4, ["title"], JDict([]), EmbeddingMethod(true, false)))]),
      [], "g", "", ["id"], "id", 2000)
  }

  function EncoderRecord(): Json {
    JDict([("id", JInt(7)), ("title", JStr("hello"))])
  }

  /** As written, such a field can never be indexed: `field.type` is read on a
      vector field, which has no such attribute. The intended reading embeds the
      source's text. */
  lemma EncoderSingleSourceFails()
    ensures AssembleDoc(EncoderConfig(), EncoderRecord(), AsWrittenVectorType).Err?
    ensures AssembleDoc(EncoderConfig(), EncoderRecord(), AsWrittenVectorType).error.AttributeError?
    ensures AssembleDoc(EncoderConfig(), EncoderRecord(), IntendedVectorType) ==
      Ok(("7", map["vec" := JStr("hello"), "upstage_group_id" := JStr("g")]))
  {
    var rec := EncoderRecord();
    assert Subscript(rec, "id") == Ok(JInt(7));
    assert ["id"][1..] == [];
    assert Gather(rec, ["id"][1..]) == Ok([]);
    assert [JInt(7)] + [] == [JInt(7)];
    assert Gather(rec, ["id"]) == Ok([JInt(7)]);
    assert Str(JInt(7)) == "7" by {
      assert IntToString(7) == NatToString(7) == [DigitChar(7)];
    }
    assert StrAll([JInt(7)]) == ["7"];
    assert Subscript(rec, "title") == Ok(JStr("hello"));
    var cfg := EncoderConfig();
    assert TextFold(cfg.fields.textField, rec, map[]) == Ok(map[]);
    assert cfg.fields.vectorField[1..] == [];
    assert VectorFold(cfg.fields.vectorField[1..], rec, map["vec" := JStr("hello")], IntendedVectorType) == Ok(map["vec" := JStr("hello")]);
    assert InnerKey("group_id") == GroupIdKey;
  }

  /** With the intended reading, an encoder field with one source contributes the
      str() of that source, as a text field does. */
  lemma EncoderSingleSourceIntended(vf: (string, VectorField), record: Json)
    requires vf.1.embeddingMethod.encoder && |vf.1.srcField| == 1
    ensures VectorValue(vf, record, IntendedVectorType) ==
      Some(MergeSourceFields(vf.0, Some("text"), vf.1.srcField, record))
  {
  }
}
