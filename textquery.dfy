/** The text query strategy of the OpenSearch searcher: request fields are
    turned into `match` clauses and placed in a `bool` query's should,
    filter and must_not lists, then wrapped according to the scoring mode. */
module TextQuery {
  import opened Common
  import opened GoValue

  /** `OpenSearchSearcher_Field`: the index field a request key searches,
      "should" or "filter", and whether a filter match is a secondary should. */
  datatype Field = Field(sourceField: string, queryType: string, secondaryShould: bool)

  /** `TextQueryInput`: a configured field with the request's value for it. */
  datatype Input = Input(field: Field, value: string)

  /** `{"match": {field: value}}`. */
  function Match(field: string, value: string): Val {
    Obj(map["match" := Obj(map[field := Str(value)])])
  }

  /** The list a non-empty input is appended to while scanning. */
  datatype Slot = ShouldSlot | FilterSlot | SecondarySlot | NoSlot

  function SlotOf(f: Field): Slot {
    if f.queryType == "should" then ShouldSlot
    else if f.queryType == "filter" then (if f.secondaryShould then SecondarySlot else FilterSlot)
    else NoSlot
  }

  /** The match clauses of the non-empty inputs that go to `slot`, in input order. */
  function MatchesIn(inputs: seq<Input>, slot: Slot): seq<Val>
  {
    if |inputs| == 0 then []
    else
      var last := inputs[|inputs| - 1];
      MatchesIn(inputs[..|inputs| - 1], slot) +
        (if last.value != "" && SlotOf(last.field) == slot
         then [Match(last.field.sourceField, last.value)] else [])
  }

  /** The query type of the first non-empty input whose type is neither
      "should" nor "filter". */
  function FirstInvalid(inputs: seq<Input>): Option<string>
  {
    if |inputs| == 0 then None
    else
      var last := inputs[|inputs| - 1];
      var earlier := FirstInvalid(inputs[..|inputs| - 1]);
      if earlier.Some? then earlier
      else if last.value != "" && SlotOf(last.field) == NoSlot then Some(last.field.queryType)
      else None
  }

  /** An input that takes part in the query: its value is non-empty. */
  predicate Used(x: Input) { x.value != "" }

  /** What `createShouldAndFilterQuery` returns: an invalid query type is an
      error; otherwise secondary-should matches join should when should is
      empty and join filter otherwise. */
  function ShouldAndFilter(inputs: seq<Input>): Result<(seq<Val>, seq<Val>), GoError>
  {
    match FirstInvalid(inputs)
    case Some(t) => Err(Error("invalid queryType: " + t))
    case None =>
      var should := MatchesIn(inputs, ShouldSlot);
      var filter := MatchesIn(inputs, FilterSlot);
      var secondary := MatchesIn(inputs, SecondarySlot);
      if |should| == 0 then Ok((secondary, filter)) else Ok((should, filter + secondary))
  }

  /** The number of inputs with a non-empty value. */
  function UsedCount(inputs: seq<Input>): nat
  {
    if |inputs| == 0 then 0
    else UsedCount(inputs[..|inputs| - 1]) + (if Used(inputs[|inputs| - 1]) then 1 else 0)
  }

  lemma {:induction false} FirstInvalidSpec(inputs: seq<Input>)
    ensures FirstInvalid(inputs).None? <==>
      forall i :: 0 <= i < |inputs| && Used(inputs[i]) ==> SlotOf(inputs[i].field) != NoSlot
    ensures FirstInvalid(inputs).Some? ==>
      exists i :: 0 <= i < |inputs| && Used(inputs[i]) && SlotOf(inputs[i].field) == NoSlot &&
        FirstInvalid(inputs).value == inputs[i].field.queryType &&
        FirstInvalid(inputs[..i]).None?
    decreases |inputs|
  {
    if |inputs| > 0 {
      var n := |inputs| - 1;
      var front := inputs[..n];
      FirstInvalidSpec(front);
      assert forall i :: 0 <= i < n ==> front[i] == inputs[i];
      if FirstInvalid(front).Some? {
        var i :| 0 <= i < n && Used(front[i]) && SlotOf(front[i].field) == NoSlot &&
          FirstInvalid(front).value == front[i].field.queryType && FirstInvalid(front[..i]).None?;
        assert front[..i] == inputs[..i];
      } else {
        assert inputs[..n] == front;
      }
    }
  }

  /** Every used input lands in exactly one of the two lists, and nothing else does. */
  lemma {:induction false} MatchesCount(inputs: seq<Input>)
    requires FirstInvalid(inputs).None?
    ensures |MatchesIn(inputs, ShouldSlot)| + |MatchesIn(inputs, FilterSlot)| +
      |MatchesIn(inputs, SecondarySlot)| == UsedCount(inputs)
    decreases |inputs|
  {
    if |inputs| > 0 {
      var n := |inputs| - 1;
      assert FirstInvalid(inputs[..n]).None?;
      MatchesCount(inputs[..n]);
    }
  }

  /** `createShouldAndFilterQuery` either fails on an invalid query type of
      a used input, or places every used input exactly once. */
  lemma ShouldAndFilterPlacesAll(inputs: seq<Input>)
    ensures ShouldAndFilter(inputs).Ok? <==>
      forall i :: 0 <= i < |inputs| && Used(inputs[i]) ==> inputs[i].field.queryType in {"should", "filter"}
    ensures ShouldAndFilter(inputs).Ok? ==>
      |ShouldAndFilter(inputs).value.0| + |ShouldAndFilter(inputs).value.1| == UsedCount(inputs)
    ensures ShouldAndFilter(inputs).Err? ==>
      exists i :: 0 <= i < |inputs| && Used(inputs[i]) &&
        ShouldAndFilter(inputs).error == Error("invalid queryType: " + inputs[i].field.queryType)
  {
    FirstInvalidSpec(inputs);
    if FirstInvalid(inputs).None? {
      MatchesCount(inputs);
    }
  }

  lemma {:induction false} FirstInvalidStays(inputs: seq<Input>, i: nat)
    requires i <= |inputs| && FirstInvalid(inputs[..i]).Some?
    ensures FirstInvalid(inputs) == FirstInvalid(inputs[..i])
    decreases |inputs| - i
  {
    if i < |inputs| {
      var pre, next := inputs[..i], inputs[..i + 1];
      assert next[..|next| - 1] == pre;
      assert FirstInvalid(next) == FirstInvalid(pre);
      FirstInvalidStays(inputs, i + 1);
    } else {
      assert inputs[..i] == inputs;
    }
  }

  /** `createShouldAndFilterQuery`, proved to compute `ShouldAndFilter`. */
  method CreateShouldAndFilterQuery(inputs: seq<Input>) returns (r: Result<(seq<Val>, seq<Val>), GoError>)
    ensures r == ShouldAndFilter(inputs)
  {
    var should: seq<Val> := [];
    var filter: seq<Val> := [];
    var secondary: seq<Val> := [];
    var i := 0;
    while i < |inputs|
      invariant 0 <= i <= |inputs|
      invariant FirstInvalid(inputs[..i]).None?
      invariant should == MatchesIn(inputs[..i], ShouldSlot)
      invariant filter == MatchesIn(inputs[..i], FilterSlot)
      invariant secondary == MatchesIn(inputs[..i], SecondarySlot)
    {
      var input := inputs[i];
      assert inputs[..i + 1][..i] == inputs[..i];
      assert inputs[..i + 1][i] == input;
      if input.value == "" {
        i := i + 1;
        continue;
      }
      var m := Match(input.field.sourceField, input.value);
      if input.field.queryType == "should" {
        should := should + [m];
      } else if input.field.queryType == "filter" {
        if input.field.secondaryShould {
          secondary := secondary + [m];
        } else {
          filter := filter + [m];
        }
      } else {
        FirstInvalidStays(inputs, i + 1);
        return Err(Error("invalid queryType: " + input.field.queryType));
      }
      i := i + 1;
    }
    assert inputs[..i] == inputs;
    assert FirstInvalid(inputs).None?;
    assert should == MatchesIn(inputs, ShouldSlot) && filter == MatchesIn(inputs, FilterSlot);
    assert secondary == MatchesIn(inputs, SecondarySlot);
    if |should| == 0 {
      assert should + secondary == secondary;
      should := should + secondary;
    } else {
      filter := filter + secondary;
    }
    return Ok((should, filter));
  }

  /** The must_not clauses: one match of the Exclude value per input, on the
      input's source field, when Exclude is non-empty. */
  function MustNot(exclude: string, inputs: seq<Input>): (r: seq<Val>)
    ensures exclude == "" ==> r == []
    ensures exclude != "" ==> (|r| == |inputs| &&
      forall i :: 0 <= i < |inputs| ==> r[i] == Match(inputs[i].field.sourceField, exclude))
  {
    if exclude == "" || |inputs| == 0 then []
    else
      var n := |inputs| - 1;
      MustNot(exclude, inputs[..n]) + [Match(inputs[n].field.sourceField, exclude)]
  }

  /** `createMustNotQuery`, proved to compute `MustNot`. */
  method CreateMustNotQuery(exclude: string, inputs: seq<Input>) returns (r: seq<Val>)
    ensures r == MustNot(exclude, inputs)
  {
    r := [];
    if exclude != "" {
      var i := 0;
      while i < |inputs|
        invariant 0 <= i <= |inputs|
        invariant r == MustNot(exclude, inputs[..i])
      {
        assert inputs[..i + 1][..i] == inputs[..i];
        r := r + [Match(inputs[i].field.sourceField, exclude)];
        i := i + 1;
      }
      assert inputs[..i] == inputs;
    }
  }

  /** The `bool` clause: should always, filter and must_not only when non-empty. */
  function BoolClause(should: seq<Val>, filter: seq<Val>, mustNot: seq<Val>): (r: map<string, Val>)
    ensures r.Keys == {"should"} + (if |filter| > 0 then {"filter"} else {}) +
      (if |mustNot| > 0 then {"must_not"} else {})
    ensures r["should"] == List(should)
    ensures "filter" in r ==> r["filter"] == List(filter)
    ensures "must_not" in r ==> r["must_not"] == List(mustNot)
  {
    var base := map["should" := List(should)];
    var withFilter := if |filter| > 0 then base["filter" := List(filter)] else base;
    if |mustNot| > 0 then withFilter["must_not" := List(mustNot)] else withFilter
  }

  /** `createRelevanceOrSoftmaxQuery`: `{query: {bool: ...}}`. */
  function RelevanceQuery(should: seq<Val>, filter: seq<Val>, mustNot: seq<Val>): Val
  {
    Obj(map["query" := Obj(map["bool" := Obj(BoolClause(should, filter, mustNot))])])
  }

  /** The relevance/softmax query is `{query: {bool: ...}}` with nothing beside it. */
  lemma RelevanceShape(should: seq<Val>, filter: seq<Val>, mustNot: seq<Val>)
    ensures var r := RelevanceQuery(should, filter, mustNot);
      r.Obj? && r.fields.Keys == {"query"} &&
      At(r, ["query", "bool"]) == Some(Obj(BoolClause(should, filter, mustNot)))
  {
    var r := RelevanceQuery(should, filter, mustNot);
    var q := r.fields["query"];
    AtStep(r, "query", ["bool"]);
    AtStep(q, "bool", []);
    assert ["query", "bool"] == ["query"] + ["bool"] && ["bool"] == ["bool"] + [];
  }

  const HarmonicScript := "2 * ((_score + 1) * doc['REVW_SCORE'].value) / ((_score + 1) + doc['REVW_SCORE'].value)"

  /** `{"range": {"REVW_CNT": {"gte": 10}}}`. */
  const ReviewCountAtLeast10 := Obj(map["range" := Obj(map["REVW_CNT" := Obj(map["gte" := Int(10)])])])

  /** `createHarmonicQuery`: the bool query, with the review-count filter
      always appended, inside a function_score with the fixed harmonic script. */
  function HarmonicQuery(should: seq<Val>, filter: seq<Val>, mustNot: seq<Val>): Val
  {
    var inner := Obj(map["bool" := Obj(BoolClause(should, filter + [ReviewCountAtLeast10], mustNot))]);
    var script := Obj(map["script" := Obj(map["source" := Str(HarmonicScript)])]);
    Obj(map["query" := Obj(map["function_score" := Obj(map["query" := inner, "script_score" := script])])])
  }

  /** The function_score object of the harmonic query. */
  function HarmonicScore(should: seq<Val>, filter: seq<Val>, mustNot: seq<Val>): Val
  {
    HarmonicQuery(should, filter, mustNot).fields["query"].fields["function_score"]
  }

  lemma HarmonicScoreParts(should: seq<Val>, filter: seq<Val>, mustNot: seq<Val>)
    ensures var fs := HarmonicScore(should, filter, mustNot);
      fs.Obj? && fs.fields.Keys == {"query", "script_score"} &&
      fs.fields["query"] == Obj(map["bool" := Obj(BoolClause(should, filter + [ReviewCountAtLeast10], mustNot))]) &&
      fs.fields["script_score"] == Obj(map["script" := Obj(map["source" := Str(HarmonicScript)])])
  {
  }

  lemma HarmonicBoolPath(should: seq<Val>, filter: seq<Val>, mustNot: seq<Val>)
    ensures At(HarmonicQuery(should, filter, mustNot), ["query", "function_score", "query", "bool"]) ==
      Some(Obj(BoolClause(should, filter + [ReviewCountAtLeast10], mustNot)))
  {
    var r := HarmonicQuery(should, filter, mustNot);
    var q := r.fields["query"];
    var fs := HarmonicScore(should, filter, mustNot);
    HarmonicScoreParts(should, filter, mustNot);
    var inner := fs.fields["query"];
    assert ["query", "function_score", "query", "bool"] == ["query"] + ["function_score", "query", "bool"];
    AtStep(r, "query", ["function_score", "query", "bool"]);
    assert ["function_score", "query", "bool"] == ["function_score"] + ["query", "bool"];
    AtStep(q, "function_score", ["query", "bool"]);
    assert ["query", "bool"] == ["query"] + ["bool"];
    AtStep(fs, "query", ["bool"]);
    assert ["bool"] == ["bool"] + [];
    AtStep(inner, "bool", []);
  }

  lemma HarmonicScriptPath(should: seq<Val>, filter: seq<Val>, mustNot: seq<Val>)
    ensures At(HarmonicQuery(should, filter, mustNot), ["query", "function_score", "script_score", "script", "source"]) ==
      Some(Str(HarmonicScript))
  {
    var r := HarmonicQuery(should, filter, mustNot);
    var q := r.fields["query"];
    var fs := HarmonicScore(should, filter, mustNot);
    HarmonicScoreParts(should, filter, mustNot);
    var ss := fs.fields["script_score"];
    var sc := ss.fields["script"];
    var p0: seq<string> := [];
    var p1 := ["source"] + p0;
    var p2 := ["script"] + p1;
    var p3 := ["script_score"] + p2;
    var p4 := ["function_score"] + p3;
    AtStep(sc, "source", p0);
    AtStep(ss, "script", p1);
    AtStep(fs, "script_score", p2);
    AtStep(q, "function_score", p3);
    AtStep(r, "query", p4);
    assert ["query"] + p4 == ["query", "function_score", "script_score", "script", "source"];
  }

  /** The harmonic query: the bool clause, with the review-count filter
      appended, under query.function_score.query, and the fixed script. */
  lemma HarmonicShape(should: seq<Val>, filter: seq<Val>, mustNot: seq<Val>)
    ensures var r := HarmonicQuery(should, filter, mustNot);
      r.Obj? && r.fields.Keys == {"query"} &&
      At(r, ["query", "function_score", "query", "bool"]) ==
        Some(Obj(BoolClause(should, filter + [ReviewCountAtLeast10], mustNot))) &&
      At(r, ["query", "function_score", "script_score", "script", "source"]) == Some(Str(HarmonicScript))
  {
    HarmonicBoolPath(should, filter, mustNot);
    HarmonicScriptPath(should, filter, mustNot);
  }

  /** The harmonic query carries a filter list whatever the request. */
  lemma HarmonicAlwaysFilters(should: seq<Val>, filter: seq<Val>, mustNot: seq<Val>)
    ensures var b := At(HarmonicQuery(should, filter, mustNot), ["query", "function_score", "query", "bool"]);
      b.Some? && b.value.Obj? && "filter" in b.value.fields &&
      b.value.fields["filter"] == List(filter + [ReviewCountAtLeast10])
  {
    HarmonicShape(should, filter, mustNot);
  }

  /** `CreateOpenSearchQuery` once the inputs are known: clause errors
      first, then the scoring-mode switch. */
  function TextQuery(inputs: seq<Input>, exclude: string, mode: string): Result<Val, GoError>
  {
    match ShouldAndFilter(inputs)
    case Err(e) => Err(e)
    case Ok((should, filter)) =>
      var mustNot := MustNot(exclude, inputs);
      if mode == "relevance" || mode == "softmax" then Ok(RelevanceQuery(should, filter, mustNot))
      else if mode == "harmonic" then Ok(HarmonicQuery(should, filter, mustNot))
      else Err(Error("Invalid scoring mode: " + mode))
  }

  /** The scoring mode picks the builder; an unknown mode is an error unless
      a clause error came first. */
  lemma TextQueryModes(inputs: seq<Input>, exclude: string, mode: string)
    ensures ShouldAndFilter(inputs).Err? ==> TextQuery(inputs, exclude, mode) == Err(ShouldAndFilter(inputs).error)
    ensures ShouldAndFilter(inputs).Ok? && mode != "relevance" && mode != "softmax" && mode != "harmonic" ==>
      TextQuery(inputs, exclude, mode) == Err(Error("Invalid scoring mode: " + mode))
    ensures TextQuery(inputs, exclude, mode).Ok? ==>
      var b := if mode == "harmonic" then At(TextQuery(inputs, exclude, mode).value, ["query", "function_score", "query", "bool"])
        else At(TextQuery(inputs, exclude, mode).value, ["query", "bool"]);
      b.Some? && b.value.Obj? && "should" in b.value.fields &&
      b.value.fields["should"] == List(ShouldAndFilter(inputs).value.0) &&
      ("must_not" in b.value.fields <==> exclude != "" && |inputs| > 0)
  {
    match ShouldAndFilter(inputs)
    case Err(_) =>
    case Ok((should, filter)) =>
      var mustNot := MustNot(exclude, inputs);
      RelevanceShape(should, filter, mustNot);
      HarmonicShape(should, filter, mustNot);
  }

  /** A configured field after `createTextQueryInputs` has filled an empty
      source field with the key. */
  function Normalized(f: Field, key: string): (r: Field)
    ensures r.sourceField != "" || key == ""
    ensures r.queryType == f.queryType && r.secondaryShould == f.secondaryShould
    ensures f.sourceField != "" ==> r == f
  {
    if f.sourceField == "" then f.(sourceField := key) else f
  }

  /** The combination refused by `createTextQueryInputs`. */
  predicate Rejected(f: Field) { f.queryType == "should" && f.secondaryShould }

  const SecondaryShouldError := Error("'secondary_should' cannot be true for query_type should")

  /** The inputs for one iteration order of the field map. */
  function InputsIn(query: map<string, string>, fields: map<string, Field>, order: seq<string>): (r: seq<Input>)
    requires forall i :: 0 <= i < |order| ==> order[i] in fields
    ensures |r| == |order|
    ensures forall i :: 0 <= i < |order| ==> r[i] == Input(fields[order[i]], Get(query, order[i]))
  {
    seq(|order|, i requires 0 <= i < |order| => Input(fields[order[i]], Get(query, order[i])))
  }

  /** The text query strategy's configuration, which the Go code reaches
      by reference and updates while building inputs. */
  class TextStrategyConfig {
    var fields: map<string, Field>
    var scoringMode: string

    constructor(fields: map<string, Field>, scoringMode: string)
      ensures this.fields == fields && this.scoringMode == scoringMode
    {
      this.fields := fields;
      this.scoringMode := scoringMode;
    }
  }

  /** One more key walked: the earlier inputs do not read the field it updates. */
  lemma InputsStep(query: map<string, string>, fields: map<string, Field>, order: seq<string>, key: string, f: Field)
    requires forall i :: 0 <= i < |order| ==> order[i] in fields && order[i] != key
    ensures InputsIn(query, fields[key := f], order + [key]) == InputsIn(query, fields, order) + [Input(f, Get(query, key))]
  {
  }

  /** The loop of `createTextQueryInputs` on the field map's contents:
      the map as the loop leaves it, and the inputs or the error. */
  method NormalizeInputs(query: map<string, string>, fields0: map<string, Field>)
    returns (r: Result<seq<Input>, GoError>, fields: map<string, Field>)
    ensures fields.Keys == fields0.Keys
    ensures r.Err? <==> exists k :: k in fields0 && Rejected(fields0[k])
    ensures r.Err? ==> (r.error == SecondaryShouldError &&
      forall k :: k in fields ==> fields[k] == fields0[k] || fields[k] == Normalized(fields0[k], k))
    ensures r.Ok? ==> forall k :: k in fields ==> fields[k] == Normalized(fields0[k], k)
    ensures r.Ok? ==> exists order :: (Enumerates(order, fields.Keys) && r.value == InputsIn(query, fields, order))
  {
    fields := fields0;
    ghost var order: seq<string> := [];
    var inputs: seq<Input> := [];
    var rest := fields.Keys;
    while rest != {}
      invariant rest <= fields0.Keys
      invariant Enumerates(order, fields0.Keys - rest)
      invariant forall i :: 0 <= i < |order| ==> order[i] in fields0 && order[i] !in rest
      invariant fields.Keys == fields0.Keys
      invariant forall k :: k in fields0 ==> fields[k] == (if k in rest then fields0[k] else Normalized(fields0[k], k))
      invariant forall k :: k in fields0.Keys - rest ==> !Rejected(fields0[k])
      invariant inputs == InputsIn(query, fields, order)
      decreases rest
    {
      var key :| key in rest;
      ghost var before := fields;
      var field := fields[key];
      if field.sourceField == "" {
        field := field.(sourceField := key);
        fields := fields[key := field];
      }
      if field.queryType == "should" && field.secondaryShould {
        assert Rejected(fields0[key]);
        return Err(SecondaryShouldError), fields;
      }
      assert fields == before[key := field];
      InputsStep(query, before, order, key, field);
      inputs := inputs + [Input(field, Get(query, key))];
      MembersSnoc(order, key);
      order := order + [key];
      rest := rest - {key};
    }
    assert Enumerates(order, fields.Keys);
    return Ok(inputs), fields;
  }

  /** `createTextQueryInputs`: walks the field map in Go's unspecified
      order, writing the key into an empty source field as it goes, and
      stops at a field that is "should" and secondary-should at once. */
  method CreateTextQueryInputs(query: map<string, string>, config: TextStrategyConfig) returns (r: Result<seq<Input>, GoError>)
    modifies config
    ensures config.scoringMode == old(config.scoringMode)
    ensures config.fields.Keys == old(config.fields).Keys
    ensures r.Err? <==> exists k :: k in old(config.fields) && Rejected(old(config.fields)[k])
    ensures r.Err? ==> (r.error == SecondaryShouldError &&
      forall k :: k in config.fields ==>
        config.fields[k] == old(config.fields)[k] || config.fields[k] == Normalized(old(config.fields)[k], k))
    ensures r.Ok? ==> forall k :: k in config.fields ==> config.fields[k] == Normalized(old(config.fields)[k], k)
    ensures r.Ok? ==> exists order :: (Enumerates(order, config.fields.Keys) &&
      r.value == InputsIn(query, config.fields, order))
  {
    var fields;
    r, fields := NormalizeInputs(query, config.fields);
    config.fields := fields;
  }

  /** The parts of `QueryIngredients` the text strategy reads. */
  datatype Ingredients = Ingredients(query: map<string, string>, exclude: string)

  /** `TextQueryStrategy.CreateOpenSearchQuery`: a refused field configuration
      is reported first; otherwise the query is `TextQuery` of the inputs in
      some iteration order of the field map. */
  method CreateOpenSearchQuery(req: Ingredients, config: TextStrategyConfig) returns (r: Result<Val, GoError>)
    modifies config
    ensures config.scoringMode == old(config.scoringMode)
    ensures config.fields.Keys == old(config.fields).Keys
    ensures (exists k :: k in old(config.fields) && Rejected(old(config.fields)[k])) ==> r == Err(SecondaryShouldError)
    ensures (forall k :: k in old(config.fields) ==> !Rejected(old(config.fields)[k])) ==>
      (forall k :: k in config.fields ==> config.fields[k] == Normalized(old(config.fields)[k], k)) &&
      exists order :: Enumerates(order, config.fields.Keys) &&
        r == TextQuery(InputsIn(req.query, config.fields, order), req.exclude, config.scoringMode)
  {
    var inputs := CreateTextQueryInputs(req.query, config);
    if inputs.Err? {
      return Err(inputs.error);
    }
    var sf := CreateShouldAndFilterQuery(inputs.value);
    if sf.Err? {
      return Err(sf.error);
    }
    var (should, filter) := sf.value;
    var mustNot := CreateMustNotQuery(req.exclude, inputs.value);
    var mode := config.scoringMode;
    if mode == "relevance" || mode == "softmax" {
      r := Ok(RelevanceQuery(should, filter, mustNot));
    } else if mode == "harmonic" {
      r := Ok(HarmonicQuery(should, filter, mustNot));
    } else {
      r := Err(Error("Invalid scoring mode: " + mode));
    }
  }
}
