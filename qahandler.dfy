/** The backend's QA handlers: the query parameters of the paginated QA
    list, and the HTTP status each handler answers with. */
module QAHandler {
  import opened Common
  import opened GoValue
  import opened Calendar

  /** `r.URL.Query().Get(key)`: the key's first value, "" when it is absent. */
  function Param(query: map<string, string>, key: string): string {
    if key in query then query[key] else ""
  }

  const FromFormat := Error("`from` is not a expected datetime format ('yyyy-MM-dd')")
  const ToFormat := Error("`to` is not a expected datetime format ('yyyy-MM-dd')")
  const FromAfterTo := Error("`from` should be before `to`")
  const OffsetNotNumber := Error("`offset` is not a number")
  const OffsetNegative := Error("`offset` should be positive")
  const LimitNotNumber := Error("`limit` is not a number")
  const LimitNegative := Error("`limit` should be positive")

  /** The first day of year 1, whose midnight is Go's zero `time.Time`. */
  const FirstDay := Date(1, 1, 1)

  /** `ListQAsWithPaginationParam`: the window, offset and limit, and the
      search text. Times are instants in nanoseconds. */
  datatype ListParam = ListParam(from: int, to: int, offset: int, limit: int, searchQuery: string)

  /** An optional date parameter: absent it is the zero time, present it
      must be a date and is its midnight; `None` is a format error. */
  function OptionalDate(param: string): (r: Option<int>)
    ensures param == "" ==> r == Some(ZeroTime)
    ensures param != "" ==> (r.Some? <==> ParseDate(param).Some?)
    ensures param != "" && r.Some? ==> r.value == Midnight(ParseDate(param).value)
  {
    if param == "" then Some(ZeroTime)
    else match ParseDate(param)
      case None => None
      case Some(d) => Some(Midnight(d))
  }

  /** A count parameter: its default when absent, then `strconv.Atoi`. */
  function Count(param: string, default: string): Option<int> {
    Atoi(if param == "" then default else param)
  }

  /** `parseListQAswithPaginationRequestParam`. */
  function ParseListParams(query: map<string, string>): (r: Result<ListParam, GoError>)
  {
    var from := OptionalDate(Param(query, "from"));
    if from.None? then Err(FromFormat)
    else
      var to := OptionalDate(Param(query, "to"));
      if to.None? then Err(ToFormat)
      else if from.value != ZeroTime && to.value != ZeroTime && from.value > to.value then Err(FromAfterTo)
      else
        var end := if to.value != ZeroTime then to.value + DayNs - 1 else to.value;
        var offset := Count(Param(query, "offset"), "0");
        if offset.None? then Err(OffsetNotNumber)
        else if offset.value < 0 then Err(OffsetNegative)
        else
          var limit := Count(Param(query, "limit"), "10");
          if limit.None? then Err(LimitNotNumber)
          else if limit.value < 0 then Err(LimitNegative)
          else Ok(ListParam(from.value, end, offset.value, limit.value, Param(query, "search_query")))
  }

  /** A date parameter that is present and names a real day. */
  predicate DateGiven(query: map<string, string>, key: string) {
    Param(query, key) != "" && ParseDate(Param(query, key)).Some?
  }

  /** A present date parameter that is not the first day of year 1, which
      the source cannot tell from an absent one. */
  predicate DateSet(query: map<string, string>, key: string) {
    DateGiven(query, key) && ParseDate(Param(query, key)).value != FirstDay
  }

  /** The dates: a present parameter that is not a date is refused, `from`
      first; two set dates out of order are refused; otherwise `from` is
      its day's midnight (or the zero time when absent) and a set `to` is
      its day's last nanosecond. */
  lemma ListParamsDates(query: map<string, string>)
    ensures var r := ParseListParams(query);
      (r == Err(FromFormat) <==> Param(query, "from") != "" && !DateGiven(query, "from")) &&
      ((Param(query, "from") == "" || DateGiven(query, "from")) ==>
         (r == Err(ToFormat) <==> Param(query, "to") != "" && !DateGiven(query, "to"))) &&
      (DateSet(query, "from") && DateSet(query, "to") ==>
         (r == Err(FromAfterTo) <==> Before(ParseDate(Param(query, "to")).value, ParseDate(Param(query, "from")).value))) &&
      (r.Ok? && Param(query, "from") == "" ==> r.value.from == ZeroTime) &&
      (r.Ok? && Param(query, "from") != "" ==> r.value.from == Midnight(ParseDate(Param(query, "from")).value)) &&
      (r.Ok? && DateSet(query, "to") ==> r.value.to == EndOfDay(ParseDate(Param(query, "to")).value)) &&
      (r.Ok? && DateSet(query, "from") && DateSet(query, "to") ==> r.value.from <= r.value.to)
  {
    var r := ParseListParams(query);
    var fp, tp := Param(query, "from"), Param(query, "to");
    if DateSet(query, "from") {
      MidnightZero(ParseDate(fp).value);
    }
    if DateSet(query, "to") {
      MidnightZero(ParseDate(tp).value);
    }
    if DateSet(query, "from") && DateSet(query, "to") {
      MidnightOrder(ParseDate(fp).value, ParseDate(tp).value);
    }
  }

  /** The counts: offset defaults to 0 and limit to 10, a value that is
      not a number or is negative is refused, and zero is accepted; the
      search text is taken as given. */
  lemma ListParamsCounts(query: map<string, string>)
    requires Param(query, "from") == "" || DateGiven(query, "from")
    requires Param(query, "to") == "" || DateGiven(query, "to")
    requires !(DateSet(query, "from") && DateSet(query, "to") &&
               Before(ParseDate(Param(query, "to")).value, ParseDate(Param(query, "from")).value))
    ensures var r := ParseListParams(query);
      var offset, limit := Count(Param(query, "offset"), "0"), Count(Param(query, "limit"), "10");
      (r == Err(OffsetNotNumber) <==> offset.None?) &&
      (r == Err(OffsetNegative) <==> offset.Some? && offset.value < 0) &&
      (offset.Some? && offset.value >= 0 ==>
         (r == Err(LimitNotNumber) <==> limit.None?) &&
         (r == Err(LimitNegative) <==> limit.Some? && limit.value < 0)) &&
      (r.Ok? <==> offset.Some? && offset.value >= 0 && limit.Some? && limit.value >= 0) &&
      (r.Ok? ==> r.value.offset == offset.value && r.value.limit == limit.value &&
                 r.value.searchQuery == Param(query, "search_query"))
  {
    ListParamsDates(query);
  }

  /** Round trip: two dates in order written as `yyyy-MM-dd` and two
      counts that fit Go's 64-bit int written in decimal are read back as the window from the first
      day's midnight to the second day's last nanosecond, with those
      counts and the search text. */
  lemma ListParamsRoundTrip(query: map<string, string>, a: Date, b: Date, offset: nat, limit: nat)
    requires Valid(a) && Valid(b) && 0 <= a.year <= 9999 && 0 <= b.year <= 9999
    requires a != FirstDay && b != FirstDay && !Before(b, a)
    requires Param(query, "from") == FormatDate(a) && Param(query, "to") == FormatDate(b)
    requires Param(query, "offset") == IntToString(offset) && Param(query, "limit") == IntToString(limit)
    requires offset <= MaxInt64 && limit <= MaxInt64
    ensures ParseListParams(query) == Ok(ListParam(Midnight(a), EndOfDay(b), offset, limit, Param(query, "search_query")))
  {
    ParseFormatDate(a);
    ParseFormatDate(b);
    assert |FormatDate(a)| > 0 && |FormatDate(b)| > 0;
    assert DateSet(query, "from") && DateSet(query, "to");
    AtoiIntToString(offset);
    AtoiIntToString(limit);
    assert |IntToString(offset)| > 0 && |IntToString(limit)| > 0;
    assert Count(Param(query, "offset"), "0") == Some(offset as int);
    assert Count(Param(query, "limit"), "10") == Some(limit as int);
    ListParamsDates(query);
    ListParamsCounts(query);
  }

  /** `gorm.ErrRecordNotFound`. */
  const ErrRecordNotFound := Error("record not found")

  /** The QA handlers. */
  datatype Handler = GetQA | DeleteQA | DeleteQAs | ListQAs | GetVote | UpvoteQA | DownvoteQA | DeleteVote

  /** The handlers that read the request before calling the service: the
      list parses its parameters, the bulk delete decodes its body. */
  predicate ReadsRequest(h: Handler) {
    h == DeleteQAs || h == ListQAs
  }

  /** The handlers that answer with a body. */
  predicate AnswersWithBody(h: Handler) {
    h == GetQA || h == ListQAs || h == GetVote
  }

  /** The status a handler writes, from the error reading the request (for
      the two handlers that read one) and the service's error. */
  function Status(h: Handler, requestErr: Option<GoError>, serviceErr: Option<GoError>): (status: int)
    requires !ReadsRequest(h) ==> requestErr.None?
  {
    if requestErr.Some? then 400
    else if serviceErr.Some? then (if serviceErr.value == ErrRecordNotFound && h != ListQAs then 404 else 500)
    else if AnswersWithBody(h) then 200
    else 204
  }

  /** A request that cannot be read is a bad request; a missing record is
      404, except in the list, which answers every service error with 500;
      success is 200 with a body or 204 without. */
  lemma StatusMapping(h: Handler, requestErr: Option<GoError>, serviceErr: Option<GoError>)
    requires !ReadsRequest(h) ==> requestErr.None?
    ensures var s := Status(h, requestErr, serviceErr);
      (s == 400 <==> requestErr.Some?) &&
      (s == 404 <==> requestErr.None? && h != ListQAs && serviceErr == Some(ErrRecordNotFound)) &&
      (s == 500 <==> requestErr.None? && serviceErr.Some? && (h == ListQAs || serviceErr.value != ErrRecordNotFound)) &&
      (s == 200 <==> requestErr.None? && serviceErr.None? && AnswersWithBody(h)) &&
      (s == 204 <==> requestErr.None? && serviceErr.None? && !AnswersWithBody(h)) &&
      (s >= 400 <==> requestErr.Some? || serviceErr.Some?)
  {
  }

  /** `ListQAsWithPagination`: the status from the query and, when the
      parameters are read, the service's answer to them. */
  function ListStatus(query: map<string, string>, service: ListParam -> Option<GoError>): (status: int)
  {
    match ParseListParams(query)
    case Err(e) => Status(ListQAs, Some(e), None)
    case Ok(p) => Status(ListQAs, None, service(p))
  }

  /** The list answers 400 exactly for parameters it cannot read, and
      never 404. */
  lemma ListStatusCases(query: map<string, string>, service: ListParam -> Option<GoError>)
    ensures var s := ListStatus(query, service);
      (s == 400 <==> ParseListParams(query).Err?) &&
      (s == 500 <==> ParseListParams(query).Ok? && service(ParseListParams(query).value).Some?) &&
      (s == 200 <==> ParseListParams(query).Ok? && service(ParseListParams(query).value).None?) &&
      s != 404
  {
  }
}
