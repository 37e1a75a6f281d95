/** The searcher front of the search service: a search request's filter
    fields are normalised and the configuration is checked before the
    OpenSearch searcher is called. */
module Searcher {
  import opened Common
  import opened GoValue

  /** `proto.SearchRequest`. `filter` and `filters` may be nil (None). */
  datatype SearchRequest = SearchRequest(
    id: string,
    query: map<string, string>,
    rawQuery: string,
    exclude: string,
    size: int,
    filter: Option<map<string, Val>>,
    filters: Option<seq<map<string, Val>>>)

  /** `OSSearcherSearchRequest`: what reaches the OpenSearch searcher. */
  datatype OsRequest = OsRequest(query: map<string, string>, exclude: string, size: int,
                                 filters: Option<seq<map<string, Val>>>)

  /** `SearcherConfig` as far as it is checked: whether it has an
      opensearch sub-configuration (the configuration itself is opaque here). */
  datatype SearcherConfig = SearcherConfig(hasOpensearch: bool)

  /** The OpenSearch client and searcher call, outside the model (it
      includes obtaining the client, which may fail). */
  type OsSearch = OsRequest -> Result<seq<Item>, GoError>

  /** The filter normalisation: both set is an error; a single Filter
      becomes a one-element list; otherwise Filters is passed as is
      (possibly nil). */
  function NormalizedFilters(req: SearchRequest): (r: Result<Option<seq<map<string, Val>>>, GoError>)
    ensures r.Err? <==> req.filter.Some? && req.filters.Some?
    ensures r.Err? ==> r.error == Error("cannot use `filter` and `filters` at the same time")
    ensures req.filter.Some? && req.filters.None? ==> r == Ok(Some([req.filter.value]))
    ensures req.filter.None? ==> r == Ok(req.filters)
  {
    if req.filter.Some? && req.filters.Some? then Err(Error("cannot use `filter` and `filters` at the same time"))
    else if req.filter.Some? then Ok(Some([req.filter.value]))
    else Ok(req.filters)
  }

  /** `OpenSearchSearcher.Search`: filter conflict, then a missing searcher
      config, then a missing opensearch config; only then the search. */
  function Search(req: SearchRequest, config: Option<SearcherConfig>, search: OsSearch): Result<seq<Item>, GoError>
  {
    match NormalizedFilters(req)
    case Err(e) => Err(e)
    case Ok(filters) =>
      if config.None? then Err(Error("no opensearch searcher config. Please check searcher config"))
      else if !config.value.hasOpensearch then Err(Error("no opensearch config. Please check searcher config"))
      else search(OsRequest(req.query, req.exclude, req.size, filters))
  }

  /** The checks happen before any search: when one fails the outcome is
      the same whatever the search would do. When they pass, the search
      sees the request's query, exclude and size unchanged. */
  lemma SearchChecksFirst(req: SearchRequest, config: Option<SearcherConfig>, s1: OsSearch, s2: OsSearch)
    ensures !(req.filter.Some? && req.filters.Some?) && config.Some? && config.value.hasOpensearch ==>
      NormalizedFilters(req).Ok? &&
      Search(req, config, s1) == s1(OsRequest(req.query, req.exclude, req.size, NormalizedFilters(req).value))
    ensures !(!(req.filter.Some? && req.filters.Some?) && config.Some? && config.value.hasOpensearch) ==>
      Search(req, config, s1) == Search(req, config, s2) && Search(req, config, s1).Err?
  {
    if !(req.filter.Some? && req.filters.Some?) && config.Some? && config.value.hasOpensearch {
      var filters := NormalizedFilters(req).value;
      assert Search(req, config, s1) == s1(OsRequest(req.query, req.exclude, req.size, filters));
    }
  }
}
