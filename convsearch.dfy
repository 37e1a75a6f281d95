/** The conversation service's search function: turning the model's
    function-call arguments into a multi-search request body, and picking
    the references out of the search service's reply. */
module ConvSearch {
  import opened Common
  import opened GoValue
  import MC = MergeChunks

  /** `model.PublishedDateRange`: RFC 3339 date-times, "" when unset. */
  datatype PublishedDateRange = PublishedDateRange(startDate: string, endDate: string)

  /** An instant, as nanoseconds on one time line. */
  type Instant = int

  /** `time.Parse(time.RFC3339, s)` (section 5.6 of RFC 3339): the instant a
      date-time denotes, or None when it does not parse. */
  type TimeParser = string -> Option<Instant>

  /** The error `time.Parse` returns for a date-time it cannot parse. */
  function ParseError(s: string): GoError
  {
    Error("parsing time \"" + s + "\" as RFC 3339")
  }

  /** The error `json.Unmarshal` returns for a value of the wrong shape. */
  const UnmarshalError := Error("json: cannot unmarshal into model.PublishedDateRange")

  const TooManyResults := Error("too many results")

  /** `model.SearchRequest` as the conversation service sends it. */
  datatype SearchRequest = SearchRequest(query: map<string, string>, size: int, filters: seq<map<string, Val>>)

  datatype MSearchAggregate = MSearchAggregate(methodName: string, preserveSource: bool)

  /** `model.MSearchBody`; a nil aggregate is None. */
  datatype MSearchBody = MSearchBody(requests: seq<SearchRequest>, size: int, rawQuery: string,
                                     aggregate: Option<MSearchAggregate>)

  /** `model.ItemsWithId`: one result list of the search service's reply. */
  datatype ItemsWithId = ItemsWithId(id: string, items: seq<MC.Reference>)

  /** `ExtraArgs` as far as searching uses it. */
  datatype ExtraArgs = ExtraArgs(rawQuery: string, provider: string)

  const TopK := 15

  /** `getReference`: the reply must hold at most one result list. */
  function GetReference(lists: seq<ItemsWithId>): (r: Result<seq<MC.Reference>, GoError>)
    ensures |lists| == 0 ==> r == Ok([])
    ensures |lists| == 1 ==> r == Ok(lists[0].items)
    ensures r.Err? <==> |lists| >= 2
    ensures r.Err? ==> r.error == TooManyResults
  {
    if |lists| == 0 then Ok([])
    else if |lists| == 1 then Ok(lists[0].items)
    else Err(TooManyResults)
  }

  /** `hasFutureDate`: whether the range starts strictly after now; an
      unset start says no whatever the end, an unparsable one is an error. */
  function HasFutureDate(range: PublishedDateRange, now: Instant, parse: TimeParser): (r: Result<bool, GoError>)
    ensures range.startDate == "" ==> r == Ok(false)
    ensures r.Err? <==> range.startDate != "" && parse(range.startDate).None?
    ensures r.Err? ==> r.error == ParseError(range.startDate)
    ensures r == Ok(true) <==>
      (range.startDate != "" && parse(range.startDate).Some? && parse(range.startDate).value > now)
  {
    if range.startDate != "" then
      match parse(range.startDate)
      case None => Err(ParseError(range.startDate))
      case Some(t) => Ok(t > now)
    else Ok(false)
  }

  /** `{"range": {"published_at": bounds}}`. */
  function PublishedAtFilter(bounds: map<string, Val>): map<string, Val>
  {
    map["range" := Obj(map["published_at" := Obj(bounds)])]
  }

  /** `{"range": {"article_length": {"gt": 200}}}`. */
  const ArticleLengthFilter: map<string, Val> :=
    map["range" := Obj(map["article_length" := Obj(map["gt" := Int(200)])])]

  const Recent3M := PublishedAtFilter(map["gte" := Str("now-3M"), "lte" := Str("now")])
  const Before3M := PublishedAtFilter(map["lt" := Str("now-3M")])

  /** The article-length filter is neither date filter. */
  lemma ArticleLengthIsNoDateFilter(bounds: map<string, Val>)
    ensures ArticleLengthFilter != PublishedAtFilter(bounds)
  {
    var a := ArticleLengthFilter["range"].fields;
    var p := PublishedAtFilter(bounds)["range"].fields;
    assert "article_length" in a && "article_length" !in p;
  }

  /** `os.Getenv("FILTER_ARTICLE_LENGTH") == "true"`. */
  predicate FilterArticleLength(env: string)
  {
    env == "true"
  }

  /** Title and content both searched for the standalone query. */
  function BaseQuery(standaloneQuery: string): (r: map<string, string>)
    ensures r.Keys == {"title", "content"}
    ensures r["title"] == standaloneQuery && r["content"] == standaloneQuery
  {
    map["title" := standaloneQuery, "content" := standaloneQuery]
  }

  function WithArticleLength(filters: seq<map<string, Val>>, env: string): seq<map<string, Val>>
  {
    if FilterArticleLength(env) then filters + [ArticleLengthFilter] else filters
  }

  /** `handleDateRangeNotSpecified`: two searches, the last three months and
      everything before, fused by RRF; `env` is FILTER_ARTICLE_LENGTH. */
  function HandleDateRangeNotSpecified(rawQuery: string, standaloneQuery: string, topK: int, env: string): (r: MSearchBody)
    ensures |r.requests| == 2 && r.size == topK && r.rawQuery == rawQuery
    ensures r.aggregate == Some(MSearchAggregate("rrf", false))
    ensures forall i :: 0 <= i < 2 ==>
      r.requests[i].query == BaseQuery(standaloneQuery) && r.requests[i].size == topK &&
      |r.requests[i].filters| == (if FilterArticleLength(env) then 2 else 1) &&
      (ArticleLengthFilter in r.requests[i].filters <==> FilterArticleLength(env))
    ensures r.requests[0].filters[0] == Recent3M && r.requests[1].filters[0] == Before3M
  {
    ArticleLengthIsNoDateFilter(map["gte" := Str("now-3M"), "lte" := Str("now")]);
    ArticleLengthIsNoDateFilter(map["lt" := Str("now-3M")]);
    MSearchBody(
      [SearchRequest(BaseQuery(standaloneQuery), topK, WithArticleLength([Recent3M], env)),
       SearchRequest(BaseQuery(standaloneQuery), topK, WithArticleLength([Before3M], env))],
      topK, rawQuery, Some(MSearchAggregate("rrf", false)))
  }

  /** The published_at bounds of a range: gte the start and lte the end,
      each only when set. */
  function DateBounds(range: PublishedDateRange): (b: map<string, Val>)
    ensures b.Keys <= {"gte", "lte"}
    ensures "gte" in b <==> range.startDate != ""
    ensures "lte" in b <==> range.endDate != ""
    ensures "gte" in b ==> b["gte"] == Str(range.startDate)
    ensures "lte" in b ==> b["lte"] == Str(range.endDate)
  {
    var lower: map<string, Val> := if range.startDate != "" then map["gte" := Str(range.startDate)] else map[];
    if range.endDate != "" then lower["lte" := Str(range.endDate)] else lower
  }

  /** `handleDateRangeSpecified`: one search within the range, no fusion. */
  function HandleDateRangeSpecified(rawQuery: string, standaloneQuery: string, topK: int,
                                    range: PublishedDateRange, parse: TimeParser, env: string): (r: Result<MSearchBody, GoError>)
    ensures range.startDate != "" && parse(range.startDate).None? ==> r == Err(ParseError(range.startDate))
    ensures ((range.startDate == "" || parse(range.startDate).Some?) &&
             range.endDate != "" && parse(range.endDate).None?) ==> r == Err(ParseError(range.endDate))
    ensures r.Ok? <==> (range.startDate == "" || parse(range.startDate).Some?) &&
                       (range.endDate == "" || parse(range.endDate).Some?)
    ensures r.Ok? ==>
      var b := r.value;
      var dated := range.startDate != "" || range.endDate != "";
      |b.requests| == 1 && b.aggregate.None? && b.size == topK && b.rawQuery == rawQuery &&
      b.requests[0].query == BaseQuery(standaloneQuery) && b.requests[0].size == topK &&
      |b.requests[0].filters| == (if FilterArticleLength(env) then 1 else 0) + (if dated then 1 else 0) &&
      (FilterArticleLength(env) ==> b.requests[0].filters[0] == ArticleLengthFilter) &&
      (dated ==> b.requests[0].filters[|b.requests[0].filters| - 1] == PublishedAtFilter(DateBounds(range)))
    ensures r.Ok? ==> forall i :: 0 <= i < |r.value.requests| ==>
      r.value.requests[i].query == BaseQuery(standaloneQuery) && r.value.requests[i].size == topK
  {
    if range.startDate != "" && parse(range.startDate).None? then Err(ParseError(range.startDate))
    else if range.endDate != "" && parse(range.endDate).None? then Err(ParseError(range.endDate))
    else
      var bounds := DateBounds(range);
      var filters := WithArticleLength([], env);
      var filters := if |bounds| > 0 then filters + [PublishedAtFilter(bounds)] else filters;
      Ok(MSearchBody([SearchRequest(BaseQuery(standaloneQuery), topK, filters)], topK, rawQuery, None))
  }

  /** One string field of the range object as `json.Unmarshal` fills it:
      absent or null leaves it "", anything but a string is an error. */
  function DecodeDate(fields: map<string, Val>, key: string): Result<string, GoError>
  {
    if key !in fields then Ok("")
    else match fields[key]
      case Str(s) => Ok(s)
      case Null => Ok("")
      case _ => Err(UnmarshalError)
  }

  /** `json.Marshal` then `json.Unmarshal` of the argument into a
      `PublishedDateRange`. */
  function DecodeRange(v: Val): (r: Result<PublishedDateRange, GoError>)
    ensures v.Null? ==> r == Ok(PublishedDateRange("", ""))
    ensures v.Obj? && "start_date" in v.fields && "end_date" in v.fields &&
            v.fields["start_date"].Str? && v.fields["end_date"].Str? ==>
            r == Ok(PublishedDateRange(v.fields["start_date"].s, v.fields["end_date"].s))
    ensures !v.Null? && !v.Obj? ==> r.Err?
  {
    match v
    case Null => Ok(PublishedDateRange("", ""))
    case Obj(fields) =>
      (match (DecodeDate(fields, "start_date"), DecodeDate(fields, "end_date"))
       case (Ok(s), Ok(e)) => Ok(PublishedDateRange(s, e))
       case _ => Err(UnmarshalError))
    case _ => Err(UnmarshalError)
  }

  /** The standalone query argument, falling back to the raw query when it
      is missing or not a string. */
  function StandaloneQuery(arguments: map<string, Val>, rawQuery: string): string
  {
    if "standalone_query" in arguments && arguments["standalone_query"].Str? then arguments["standalone_query"].s
    else rawQuery
  }

  /** The request body before the provider is added. */
  function SearchBody(arguments: map<string, Val>, rawQuery: string, now: Instant, parse: TimeParser,
                      env: string): (r: Result<MSearchBody, GoError>)
    ensures r.Ok? ==> (r.value.size == TopK && r.value.rawQuery == rawQuery &&
      forall i :: 0 <= i < |r.value.requests| ==>
        r.value.requests[i].query == BaseQuery(StandaloneQuery(arguments, rawQuery)) &&
        r.value.requests[i].size == TopK)
  {
    var sq := StandaloneQuery(arguments, rawQuery);
    if "published_date_range" !in arguments then Ok(HandleDateRangeNotSpecified(rawQuery, sq, TopK, env))
    else match DecodeRange(arguments["published_date_range"])
      case Err(e) => Err(e)
      case Ok(range) =>
        var future := HasFutureDate(range, now, parse);
        if future.Err? || future.value then Ok(HandleDateRangeNotSpecified(rawQuery, sq, TopK, env))
        else HandleDateRangeSpecified(rawQuery, sq, TopK, range, parse, env)
  }

  /** Every request also filtered by the provider, when one is given. */
  function WithProvider(body: MSearchBody, provider: string): (r: MSearchBody)
    ensures provider == "" ==> r == body
    ensures r.size == body.size && r.rawQuery == body.rawQuery && r.aggregate == body.aggregate
    ensures |r.requests| == |body.requests|
    ensures provider != "" ==> forall i :: 0 <= i < |r.requests| ==>
      r.requests[i].query == body.requests[i].query["provider" := provider] &&
      r.requests[i].size == body.requests[i].size && r.requests[i].filters == body.requests[i].filters
  {
    if provider == "" then body
    else body.(requests := seq(|body.requests|, i requires 0 <= i < |body.requests| =>
      body.requests[i].(query := body.requests[i].query["provider" := provider])))
  }

  /** What `createSearchRequests` returns. */
  function CreateSearchBody(arguments: map<string, Val>, extra: ExtraArgs, now: Instant, parse: TimeParser,
                            env: string): (r: Result<MSearchBody, GoError>)
    ensures r.Ok? ==> (r.value.size == TopK && r.value.rawQuery == extra.rawQuery &&
      forall i :: 0 <= i < |r.value.requests| ==>
        var q := r.value.requests[i].query;
        r.value.requests[i].size == TopK &&
        q.Keys == {"title", "content"} + (if extra.provider != "" then {"provider"} else {}) &&
        q["title"] == StandaloneQuery(arguments, extra.rawQuery) &&
        q["content"] == StandaloneQuery(arguments, extra.rawQuery) &&
        (extra.provider != "" ==> q["provider"] == extra.provider))
  {
    var built := SearchBody(arguments, extra.rawQuery, now, parse, env);
    if built.Err? then Err(built.error)
    else
      var r := WithProvider(built.value, extra.provider);
      assert forall i :: 0 <= i < |r.requests| ==>
        r.requests[i].query == (if extra.provider != "" then built.value.requests[i].query["provider" := extra.provider]
                                else built.value.requests[i].query);
      Ok(r)
  }

  /** The standalone query is used when it is a string, the raw query
      otherwise. */
  lemma StandaloneQueryFallback(arguments: map<string, Val>, rawQuery: string)
    ensures "standalone_query" in arguments && arguments["standalone_query"].Str? ==>
      StandaloneQuery(arguments, rawQuery) == arguments["standalone_query"].s
    ensures !("standalone_query" in arguments && arguments["standalone_query"].Str?) ==>
      StandaloneQuery(arguments, rawQuery) == rawQuery
  {
  }

  /** No range, a range starting in the future, or one whose start does not
      parse: the two fused searches over the recent and the older news. */
  lemma UnspecifiedRangeFallback(arguments: map<string, Val>, extra: ExtraArgs, now: Instant,
                                 parse: TimeParser, env: string)
    requires "published_date_range" !in arguments ||
      (DecodeRange(arguments["published_date_range"]).Ok? &&
       var range := DecodeRange(arguments["published_date_range"]).value;
       range.startDate != "" && (parse(range.startDate).None? || parse(range.startDate).value > now))
    ensures CreateSearchBody(arguments, extra, now, parse, env) ==
      Ok(WithProvider(HandleDateRangeNotSpecified(extra.rawQuery, StandaloneQuery(arguments, extra.rawQuery), TopK, env),
                      extra.provider))
    ensures var r := CreateSearchBody(arguments, extra, now, parse, env).value;
      |r.requests| == 2 && r.aggregate == Some(MSearchAggregate("rrf", false))
  {
  }

  /** A range that does not start in the future: one search within it,
      failing exactly when one of its dates does not parse. */
  lemma SpecifiedRange(arguments: map<string, Val>, extra: ExtraArgs, now: Instant,
                       parse: TimeParser, env: string)
    requires "published_date_range" in arguments
    requires DecodeRange(arguments["published_date_range"]).Ok?
    requires var range := DecodeRange(arguments["published_date_range"]).value;
      range.startDate == "" || (parse(range.startDate).Some? && parse(range.startDate).value <= now)
    ensures var range := DecodeRange(arguments["published_date_range"]).value;
      var r := CreateSearchBody(arguments, extra, now, parse, env);
      (r.Ok? <==> range.endDate == "" || parse(range.endDate).Some?) &&
      (r.Ok? ==> |r.value.requests| == 1 && r.value.aggregate.None?)
  {
  }

  /** `createSearchRequests`: the body is built, then the provider is
      written into each request's query in turn. */
  method CreateSearchRequests(arguments: map<string, Val>, extra: ExtraArgs, now: Instant, parse: TimeParser,
                              env: string) returns (r: Result<MSearchBody, GoError>)
    ensures r == CreateSearchBody(arguments, extra, now, parse, env)
  {
    var built := SearchBody(arguments, extra.rawQuery, now, parse, env);
    if built.Err? {
      return Err(built.error);
    }
    var body := built.value;
    var provider := extra.provider;
    if |provider| > 0 {
      var requests := body.requests;
      var i := 0;
      while i < |requests|
        invariant 0 <= i <= |requests| && |requests| == |body.requests|
        invariant forall j :: 0 <= j < i ==>
          requests[j] == body.requests[j].(query := body.requests[j].query["provider" := provider])
        invariant forall j :: i <= j < |requests| ==> requests[j] == body.requests[j]
      {
        requests := requests[i := requests[i].(query := requests[i].query["provider" := provider])];
        i := i + 1;
      }
      assert requests == WithProvider(body, provider).requests;
      body := body.(requests := requests);
    }
    r := Ok(body);
  }

  /** `ErrSearchFunctionFailed`: the search service answered with a status
      other than 200. */
  const SearchFunctionFailed := Error("search function failed")

  const EndpointNotSet := Error("search service endpoint not set")

  /** The search service's HTTP reply. */
  datatype HttpReply = HttpReply(status: int, body: string)

  /** What the search plugin reaches outside itself: the msearch endpoint
      from the environment, the clock it was created with, the RFC 3339
      parser, the FILTER_ARTICLE_LENGTH setting, the POST of a request body
      to the endpoint, and JSON decoding and encoding of the reply. Decoding
      and encoding failures carry the JSON library's message. */
  datatype SearchEnv = SearchEnv(
    endpoint: string,
    now: Instant,
    parse: TimeParser,
    filterArticleLength: string,
    post: (string, MSearchBody) -> Result<HttpReply, GoError>,
    unmarshal: string -> Result<seq<ItemsWithId>, string>,
    marshal: seq<MC.Reference> -> Result<string, string>)

  /** The wrapping `unmarshalItemsWithIds` puts on a decoding failure; `Call`
      wraps it once more with the same words. */
  function UnmarshalReferencesError(jsonError: string): GoError
  {
    Error("error unmarshalling references: " + "error unmarshalling references: " + jsonError)
  }

  function MarshalReferencesError(jsonError: string): GoError
  {
    Error("error marshalling references: " + jsonError)
  }

  /** What the search plugin's `Call` answers: the merged references of the
      single result list, encoded, or the first error on the way. */
  function SearchCall(env: SearchEnv, arguments: map<string, Val>, extra: ExtraArgs): Result<string, GoError>
  {
    if env.endpoint == "" then Err(EndpointNotSet)
    else match CreateSearchBody(arguments, extra, env.now, env.parse, env.filterArticleLength)
      case Err(e) => Err(e)
      case Ok(body) =>
        match env.post(env.endpoint, body)
        case Err(e) => Err(e)
        case Ok(reply) =>
          if reply.status != 200 then Err(SearchFunctionFailed)
          else match env.unmarshal(reply.body)
            case Err(m) => Err(UnmarshalReferencesError(m))
            case Ok(lists) =>
              match GetReference(lists)
              case Err(e) => Err(e)
              case Ok(references) =>
                match env.marshal(MC.Merged(references))
                case Err(m) => Err(MarshalReferencesError(m))
                case Ok(b) => Ok(b)
  }

  /** Nothing is sent without an endpoint, and a reply holding several
      result lists is refused; otherwise the answer is the encoding of the
      merged chunks of the one list, at most five articles. */
  lemma SearchCallOutcomes(env: SearchEnv, arguments: map<string, Val>, extra: ExtraArgs)
    ensures env.endpoint == "" ==> SearchCall(env, arguments, extra) == Err(EndpointNotSet)
    ensures SearchCall(env, arguments, extra).Ok? ==>
      exists references: seq<MC.Reference> ::
        |MC.Merged(references)| <= MC.MaxChunkNumber &&
        env.marshal(MC.Merged(references)) == Ok(SearchCall(env, arguments, extra).value)
    ensures env.endpoint != "" && CreateSearchBody(arguments, extra, env.now, env.parse, env.filterArticleLength).Ok? ==>
      var body := CreateSearchBody(arguments, extra, env.now, env.parse, env.filterArticleLength).value;
      env.post(env.endpoint, body).Ok? && env.post(env.endpoint, body).value.status != 200 ==>
        SearchCall(env, arguments, extra) == Err(SearchFunctionFailed)
    ensures env.endpoint != "" && CreateSearchBody(arguments, extra, env.now, env.parse, env.filterArticleLength).Ok? ==>
      var body := CreateSearchBody(arguments, extra, env.now, env.parse, env.filterArticleLength).value;
      env.post(env.endpoint, body).Ok? && env.post(env.endpoint, body).value.status == 200 &&
      env.unmarshal(env.post(env.endpoint, body).value.body).Ok? &&
      |env.unmarshal(env.post(env.endpoint, body).value.body).value| >= 2 ==>
        SearchCall(env, arguments, extra) == Err(TooManyResults)
  {
    var r := SearchCall(env, arguments, extra);
    if r.Ok? {
      var body := CreateSearchBody(arguments, extra, env.now, env.parse, env.filterArticleLength).value;
      var reply := env.post(env.endpoint, body).value;
      var references := GetReference(env.unmarshal(reply.body).value).value;
      MC.MergedIds(references);
      assert env.marshal(MC.Merged(references)) == Ok(r.value);
    }
  }

  /** `SearchPlugin.Call`. */
  method Call(env: SearchEnv, arguments: map<string, Val>, extra: ExtraArgs) returns (r: Result<string, GoError>)
    ensures r == SearchCall(env, arguments, extra)
  {
    if env.endpoint == "" {
      return Err(EndpointNotSet);
    }
    var query := CreateSearchRequests(arguments, extra, env.now, env.parse, env.filterArticleLength);
    if query.Err? {
      return Err(query.error);
    }
    var resp := env.post(env.endpoint, query.value);
    if resp.Err? {
      return Err(resp.error);
    }
    if resp.value.status != 200 {
      return Err(SearchFunctionFailed);
    }
    var itemsWithIds := env.unmarshal(resp.value.body);
    if itemsWithIds.Err? {
      return Err(UnmarshalReferencesError(itemsWithIds.error));
    }
    var references := GetReference(itemsWithIds.value);
    if references.Err? {
      return Err(references.error);
    }
    var merged := MC.MergeChunks(references.value);
    var body := env.marshal(merged);
    if body.Err? {
      return Err(MarshalReferencesError(body.error));
    }
    r := Ok(body.value);
  }
}
