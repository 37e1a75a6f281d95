/** The vector query strategy of the OpenSearch searcher: the request text
    of the query field is embedded and searched with a k-NN clause, with an
    optional filter placed inside the k-NN clause or beside it. */
module VectorQuery {
  import opened Common
  import opened GoValue

  /** `KNNStrategy`: the vector field, the request key holding the text
      (when it differs) and the number of neighbours. */
  datatype KnnStrategy = KnnStrategy(field: string, sourceField: string, k: int)

  /** `FilterStrategy`: a mode name and the filter (`Filter.AsMap()`, which
      is empty for a nil filter). */
  datatype FilterStrategy = FilterStrategy(mode: string, filter: map<string, Val>)

  /** The encoder configured for the query: only SentenceTransformer is served. */
  datatype EncoderKind = SentenceTransformer | OtherEncoder

  datatype VectorStrategy = VectorStrategy(knn: KnnStrategy, encoder: EncoderKind, filter: Option<FilterStrategy>)

  /** The SentenceTransformer encoder service, outside the model. */
  type Encode = string -> Result<seq<real>, GoError>

  /** `getQueryField`: the request key whose text is embedded, which is also
      the k-NN field name. */
  function QueryField(s: KnnStrategy): (r: string)
    ensures r == s.sourceField || r == s.field
    ensures r == "" ==> s.sourceField == "" && s.field == ""
    ensures s.sourceField != "" ==> r == s.sourceField
  {
    if s.sourceField == "" then s.field else s.sourceField
  }

  /** `createKNNQuery`: `{knn: {field: {vector, k}}}`. */
  function KnnQuery(field: string, k: int, embedding: seq<real>): Val
  {
    Obj(map["knn" := Obj(map[field := Obj(map["vector" := Vector(embedding), "k" := Int(k)])])])
  }

  /** The k-NN clause under its field, as `At` finds it. */
  lemma KnnQueryShape(field: string, k: int, embedding: seq<real>)
    ensures var q := KnnQuery(field, k, embedding);
      q.Obj? && q.fields.Keys == {"knn"} && q.fields["knn"].Obj? && q.fields["knn"].fields.Keys == {field} &&
      At(q, ["knn", field]) == Some(Obj(map["vector" := Vector(embedding), "k" := Int(k)]))
  {
    var q := KnnQuery(field, k, embedding);
    assert ["knn", field] == ["knn"] + [field] && [field] == [field] + [];
    assert ([field] + [])[1..] == [] && (["knn"] + [field])[1..] == [field];
  }

  /** `getQueryEmbedding`: only the SentenceTransformer encoder is called. */
  function QueryEmbedding(query: string, encoder: EncoderKind, encode: Encode): (r: Result<seq<real>, GoError>)
    ensures encoder == OtherEncoder ==> r == Err(Error("invalid encoder type"))
    ensures encoder == SentenceTransformer ==> r == encode(query)
  {
    match encoder
    case SentenceTransformer => encode(query)
    case OtherEncoder => Err(Error("invalid encoder type"))
  }

  /** The k-NN query with the filter written into its field's clause, as
      the efficient-knn branch does to the caller's (freshly built) map. */
  function WithInnerFilter(field: string, k: int, embedding: seq<real>, filter: map<string, Val>): Val
  {
    Obj(map["knn" := Obj(map[field := Obj(map["vector" := Vector(embedding), "k" := Int(k), "filter" := Obj(filter)])])])
  }

  /** `addFilterToKNNQuery` applied to `createKNNQuery`'s result: no filter
      strategy wraps the query; efficient-knn filters inside the k-NN clause;
      post-filter adds a sibling `post_filter`; any other mode is an error. */
  function AddFilterToKnnQuery(fs: Option<FilterStrategy>, field: string, k: int, embedding: seq<real>): Result<Val, GoError>
  {
    var knn := KnnQuery(field, k, embedding);
    match fs
    case None => Ok(Obj(map["query" := knn]))
    case Some(f) =>
      if f.mode == "efficient-knn" then Ok(Obj(map["query" := WithInnerFilter(field, k, embedding, f.filter)]))
      else if f.mode == "post-filter" then Ok(Obj(map["query" := knn, "post_filter" := Obj(f.filter)]))
      else Err(Error("invalid filter mode"))
  }

  /** `VectorQueryStrategy.CreateOpenSearchQuery`. */
  function CreateOpenSearchQuery(query: map<string, string>, vs: VectorStrategy, encode: Encode): Result<Val, GoError>
  {
    var field := QueryField(vs.knn);
    if field !in query then Err(Error("query field does not exist in request"))
    else
      match QueryEmbedding(query[field], vs.encoder, encode)
      case Err(e) => Err(e)
      case Ok(embedding) => AddFilterToKnnQuery(vs.filter, field, vs.knn.k, embedding)
  }

  predicate KnownMode(fs: Option<FilterStrategy>) {
    fs.None? || fs.value.mode in {"efficient-knn", "post-filter"}
  }

  /** The vector query succeeds exactly when the query field is present, the
      encoder is served and succeeds, and the filter mode is known; errors
      come in that order. */
  lemma VectorQueryOutcome(query: map<string, string>, vs: VectorStrategy, encode: Encode)
    ensures var field := QueryField(vs.knn);
      CreateOpenSearchQuery(query, vs, encode).Ok? <==>
        field in query && vs.encoder == SentenceTransformer && encode(query[field]).Ok? && KnownMode(vs.filter)
    ensures QueryField(vs.knn) !in query ==>
      CreateOpenSearchQuery(query, vs, encode) == Err(Error("query field does not exist in request"))
    ensures QueryField(vs.knn) in query && vs.encoder == OtherEncoder ==>
      CreateOpenSearchQuery(query, vs, encode) == Err(Error("invalid encoder type"))
    ensures var field := QueryField(vs.knn);
      field in query && vs.encoder == SentenceTransformer && encode(query[field]).Err? ==>
        CreateOpenSearchQuery(query, vs, encode) == Err(encode(query[field]).error)
  {
  }

  /** On success the k-NN clause searches the query field with the request
      text's embedding and k; the filter sits inside it for efficient-knn and
      beside it for post-filter. */
  lemma VectorQueryShape(query: map<string, string>, vs: VectorStrategy, encode: Encode)
    requires CreateOpenSearchQuery(query, vs, encode).Ok?
    ensures var field := QueryField(vs.knn);
      var embedding := encode(query[field]).value;
      var r := CreateOpenSearchQuery(query, vs, encode).value;
      var clause := At(r, ["query", "knn", field]);
      clause.Some? && clause.value.Obj? &&
      "vector" in clause.value.fields && "k" in clause.value.fields &&
      clause.value.fields["vector"] == Vector(embedding) && clause.value.fields["k"] == Int(vs.knn.k) &&
      ("filter" in clause.value.fields <==> vs.filter.Some? && vs.filter.value.mode == "efficient-knn") &&
      ("filter" in clause.value.fields ==> clause.value.fields["filter"] == Obj(vs.filter.value.filter)) &&
      ("post_filter" in r.fields <==> vs.filter.Some? && vs.filter.value.mode == "post-filter") &&
      ("post_filter" in r.fields ==> r.fields["post_filter"] == Obj(vs.filter.value.filter))
  {
    var field := QueryField(vs.knn);
    var embedding := encode(query[field]).value;
    var r := CreateOpenSearchQuery(query, vs, encode).value;
    var inner := if vs.filter.Some? && vs.filter.value.mode == "efficient-knn"
      then Obj(map["vector" := Vector(embedding), "k" := Int(vs.knn.k), "filter" := Obj(vs.filter.value.filter)])
      else Obj(map["vector" := Vector(embedding), "k" := Int(vs.knn.k)]);
    var knn := Obj(map[field := inner]);
    var q := Obj(map["knn" := knn]);
    assert r.fields["query"] == q;
    AtStep(r, "query", ["knn", field]);
    AtStep(q, "knn", [field]);
    AtStep(knn, field, []);
    assert ["query", "knn", field] == ["query"] + ["knn", field];
    assert ["knn", field] == ["knn"] + [field] && [field] == [field] + [];
  }
}
