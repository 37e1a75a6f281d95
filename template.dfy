/** `create_index_template` in data_ingestion/indexer/indexer.py: the
    write-optimised index settings it forces into the configuration, and the
    field mappings it derives from the text and vector field declarations. */
module IndexTemplate {
  import opened Common
  import opened PyJson
  import opened IndexConfig

  const InactiveRefreshInterval := "-1"
  const DefaultRefreshInterval := "1s"
  const CompressCodec := "best_compression"
  const FlushThresholdSize := "2048MB"

  /** `settings["index"]` as a dict, or what item assignment on it raises. */
  function IndexSettings(settings: seq<(string, Json)>): (r: Result<seq<(string, Json)>, PyError>)
    ensures r.Ok? <==> Lookup(settings, "index").Some? && Lookup(settings, "index").value.JDict?
    ensures r.Ok? ==> r.value == Lookup(settings, "index").value.fields
    ensures Lookup(settings, "index").None? ==> r == Err(KeyError("index"))
    ensures Lookup(settings, "index").Some? && r.Err? ==> r.error.TypeError?
  {
    match Lookup(settings, "index")
    case None => Err(KeyError("index"))
    case Some(JDict(ix)) => Ok(ix)
    case Some(JList(_)) => Err(TypeError("list indices must be integers or slices, not str"))
    case Some(v) => Err(TypeError("'" + TypeName(v) + "' object does not support item assignment"))
  }

  /** The translog settings: {"flush_threshold_size": "2048MB"}. */
  function Translog(): Json {
    JDict([("flush_threshold_size", JStr(FlushThresholdSize))])
  }

  /** `settings["index"]` after the template builder: refresh off, compressed
      codec, translog threshold, and knn only when vector fields exist; every
      other setting is kept. */
  function ForcedIndexSettings(ix: seq<(string, Json)>, knn: bool): (r: seq<(string, Json)>)
    ensures Lookup(r, "refresh_interval") == Some(JStr(InactiveRefreshInterval))
    ensures Lookup(r, "codec") == Some(JStr(CompressCodec))
    ensures Lookup(r, "translog") == Some(Translog())
    ensures knn ==> Lookup(r, "knn") == Some(JBool(true))
    ensures !knn ==> Lookup(r, "knn") == Lookup(ix, "knn")
    ensures forall k :: k !in {"refresh_interval", "codec", "translog", "knn"} ==> Lookup(r, k) == Lookup(ix, k)
  {
    var a := DictSet(ix, "refresh_interval", JStr(InactiveRefreshInterval));
    var b := DictSet(a, "codec", JStr(CompressCodec));
    var c := DictSet(b, "translog", Translog());
    if knn then DictSet(c, "knn", JBool(true)) else c
  }

  /** The mapping of one text field: `type` always; `analyzer`, `fields` and
      `index` only when truthy, so `index: False` is dropped. */
  function TextMapping(f: TextField): (m: seq<(string, Json)>)
    ensures Lookup(m, "type") == Some(JStr(f.typ))
    ensures Lookup(m, "analyzer").Some? <==> f.analyzer.Some? && f.analyzer.value != ""
    ensures Lookup(m, "analyzer").Some? ==> Lookup(m, "analyzer").value == JStr(f.analyzer.value)
    ensures Lookup(m, "fields").Some? <==> f.fields.Some? && Truthy(f.fields.value)
    ensures Lookup(m, "fields").Some? ==> Lookup(m, "fields").value == f.fields.value
    ensures Lookup(m, "index") == (if f.index == Some(true) then Some(JBool(true)) else None)
    ensures forall k :: k !in {"type", "analyzer", "fields", "index"} ==> Lookup(m, k).None?
  {
    var m0 := [("type", JStr(f.typ))];
    var m1 := if f.analyzer.Some? && f.analyzer.value != "" then DictSet(m0, "analyzer", JStr(f.analyzer.value)) else m0;
    var m2 := if f.fields.Some? && Truthy(f.fields.value) then DictSet(m1, "fields", f.fields.value) else m1;
    if f.index == Some(true) then DictSet(m2, "index", JBool(true)) else m2
  }

  /** The mapping of one vector field. */
  function VectorMapping(f: VectorField): (m: seq<(string, Json)>)
    ensures Lookup(m, "type") == Some(JStr("knn_vector"))
    ensures Lookup(m, "dimension") == Some(JInt(f.dimension))
    ensures Lookup(m, "method") == Some(f.annMethod)
  {
    DictSet(DictSet([("type", JStr("knn_vector"))], "dimension", JInt(f.dimension)), "method", f.annMethod)
  }

  /** The last declaration of a key (dict keys are unique, so the only one). */
  function LastOf<F>(fs: seq<(string, F)>, k: string): Option<F>
    decreases |fs|
  {
    if |fs| == 0 then None
    else if fs[|fs| - 1].0 == k then Some(fs[|fs| - 1].1)
    else LastOf(fs[..|fs| - 1], k)
  }

  /** Each declared field paired with its mapping, in declaration order. */
  function MapValues<F>(fs: seq<(string, F)>, g: F -> Json): (r: seq<(string, Json)>)
    ensures |r| == |fs| && forall i :: 0 <= i < |fs| ==> r[i] == (fs[i].0, g(fs[i].1))
  {
    seq(|fs|, i requires 0 <= i < |fs| => (fs[i].0, g(fs[i].1)))
  }

  function TextEntries(tfs: seq<(string, TextField)>): seq<(string, Json)> {
    MapValues(tfs, (f: TextField) => JDict(TextMapping(f)))
  }

  function VectorEntries(vfs: seq<(string, VectorField)>): seq<(string, Json)> {
    MapValues(vfs, (f: VectorField) => JDict(VectorMapping(f)))
  }

  /** `properties[key] = ...` for each entry in order. */
  function SetEach(acc: seq<(string, Json)>, es: seq<(string, Json)>): seq<(string, Json)>
    decreases |es|
  {
    if |es| == 0 then acc else SetEach(DictSet(acc, es[0].0, es[0].1), es[1..])
  }

  /** The mapping properties: text fields first, then vector fields, a vector
      field replacing a text field of the same name. */
  function Properties(fields: Fields): seq<(string, Json)> {
    SetEach(SetEach([], TextEntries(fields.textField)), VectorEntries(fields.vectorField))
  }

  /** The index template, whose settings are the updated settings. */
  function Template(settings: seq<(string, Json)>, props: seq<(string, Json)>): Json {
    JDict([("settings", JDict(settings)), ("mappings", JDict([("properties", JDict(props))]))])
  }

  /** The configuration after `create_index_template` updated its settings in
      place, or the exception raised on the way. */
  function TemplateSettings(config: Config): (r: Result<seq<(string, Json)>, PyError>)
    ensures r.Err? <==> IndexSettings(config.settings).Err?
  {
    match IndexSettings(config.settings)
    case Err(e) => Err(e)
    case Ok(ix) => Ok(DictSet(config.settings, "index", JDict(ForcedIndexSettings(ix, |config.fields.vectorField| > 0))))
  }

  // ------------------------------------------------------------------ lemmas

  lemma {:induction false} SetEachSnoc(acc: seq<(string, Json)>, es: seq<(string, Json)>, e: (string, Json))
    ensures SetEach(acc, es + [e]) == DictSet(SetEach(acc, es), e.0, e.1)
    decreases |es|
  {
    if |es| == 0 {
      assert [e][1..] == [];
    } else {
      assert (es + [e])[0] == es[0] && (es + [e])[1..] == es[1..] + [e];
      SetEachSnoc(DictSet(acc, es[0].0, es[0].1), es[1..], e);
    }
  }

  /** A key's value after the assignments is its last assignment, or what it had. */
  lemma {:induction false} SetEachLookup(acc: seq<(string, Json)>, es: seq<(string, Json)>, k: string)
    ensures Lookup(SetEach(acc, es), k) == (match LastOf(es, k) case Some(v) => Some(v) case None => Lookup(acc, k))
    decreases |es|
  {
    if |es| > 0 {
      var init := es[..|es| - 1];
      var e := es[|es| - 1];
      assert es == init + [e];
      SetEachSnoc(acc, init, e);
      SetEachLookup(acc, init, k);
    }
  }

  lemma {:induction false} LastOfMapValues<F>(fs: seq<(string, F)>, g: F -> Json, k: string)
    ensures LastOf(MapValues(fs, g), k) == (match LastOf(fs, k) case Some(f) => Some(g(f)) case None => None)
    decreases |fs|
  {
    if |fs| > 0 {
      assert MapValues(fs, g)[..|fs| - 1] == MapValues(fs[..|fs| - 1], g);
      LastOfMapValues(fs[..|fs| - 1], g, k);
    }
  }

  /** Every declared field has a mapping, a vector declaration wins over a text
      one of the same name, and undeclared names have none. */
  lemma PropertiesLookup(fields: Fields, k: string)
    ensures Lookup(Properties(fields), k) ==
      match LastOf(fields.vectorField, k)
      case Some(v) => Some(JDict(VectorMapping(v)))
      case None =>
        match LastOf(fields.textField, k)
        case Some(t) => Some(JDict(TextMapping(t)))
        case None => None
  {
    var text := SetEach([], TextEntries(fields.textField));
    SetEachLookup(text, VectorEntries(fields.vectorField), k);
    SetEachLookup([], TextEntries(fields.textField), k);
    LastOfMapValues(fields.textField, (f: TextField) => JDict(TextMapping(f)), k);
    LastOfMapValues(fields.vectorField, (f: VectorField) => JDict(VectorMapping(f)), k);
  }

  /** The template's settings carry refresh_interval "-1", so a freshly created
      index starts with refresh off. */
  lemma TemplateRefreshOff(config: Config, props: seq<(string, Json)>)
    requires TemplateSettings(config).Ok?
    ensures var st := TemplateSettings(config).value;
      Lookup(st, "index").Some? && Lookup(st, "index").value.JDict? &&
      Lookup(Lookup(st, "index").value.fields, "refresh_interval") == Some(JStr(InactiveRefreshInterval)) &&
      Template(st, props).fields[0] == ("settings", JDict(st))
  {
  }

  /** One `properties[key] = mapping` loop of `create_index_template`. */
  method AssignEach(acc: seq<(string, Json)>, es: seq<(string, Json)>) returns (props: seq<(string, Json)>)
    ensures props == SetEach(acc, es)
  {
    props := acc;
    var i := 0;
    while i < |es|
      invariant 0 <= i <= |es|
      invariant props == SetEach(acc, es[..i])
    {
      SetEachSnoc(acc, es[..i], es[i]);
      assert es[..i + 1] == es[..i] + [es[i]];
      props := DictSet(props, es[i].0, es[i].1);
      i := i + 1;
    }
    assert es[..i] == es;
  }

  /** The properties loops: text fields, then vector fields. */
  method BuildProperties(fields: Fields) returns (props: seq<(string, Json)>)
    ensures props == Properties(fields)
  {
    props := AssignEach([], TextEntries(fields.textField));
    props := AssignEach(props, VectorEntries(fields.vectorField));
  }

  /** `create_index_template`: builds the properties field by field, then the
      template around the updated settings. Returns the configuration with
      those settings, which the template shares. */
  method BuildTemplate(config: Config) returns (updated: Config, r: Result<Json, PyError>)
    ensures r.Err? <==> TemplateSettings(config).Err?
    ensures r.Err? ==> r.error == TemplateSettings(config).error && updated == config
    ensures r.Ok? ==> updated == config.(settings := TemplateSettings(config).value)
    ensures r.Ok? ==> r.value == Template(updated.settings, Properties(config.fields))
  {
    var ix := IndexSettings(config.settings);
    if ix.Err? {
      return config, Err(ix.error);
    }
    var props := BuildProperties(config.fields);
    var forced := ForcedIndexSettings(ix.value, |config.fields.vectorField| > 0);
    updated := config.(settings := DictSet(config.settings, "index", JDict(forced)));
    r := Ok(Template(updated.settings, props));
  }
}
