/** data_ingestion/refinery/data_fetcher.py: the request arguments of the
    KINDS news API (`KindsAPIClient.build_args`) and the paging loop of
    `get_daily_data`. The HTTP call is a parameter. */
module Fetcher {
  import opened Common
  import opened PyJson

  // ------------------------------------------------------------- datetimes

  /** A Python datetime: a calendar date and the microseconds into that day.
      Both ends of every comparison here carry the same time zone. */
  datatype DateTime = DateTime(year: int, month: int, day: int, micros: int)

  predicate IsLeap(y: int) {
    y % 4 == 0 && (y % 100 != 0 || y % 400 == 0)
  }

  function DaysInMonth(y: int, m: int): int
    requires 1 <= m <= 12
  {
    if m == 2 then (if IsLeap(y) then 29 else 28)
    else if m == 4 || m == 6 || m == 9 || m == 11 then 30
    else 31
  }

  const MicrosPerDay: int := 86400000000

  /** The datetimes Python can represent (years 1 to 9999). */
  predicate Valid(d: DateTime) {
    1 <= d.year <= 9999 && 1 <= d.month <= 12 && 1 <= d.day <= DaysInMonth(d.year, d.month) &&
    0 <= d.micros < MicrosPerDay
  }

  /** `a < b` on datetimes. */
  predicate Before(a: DateTime, b: DateTime) {
    a.year < b.year ||
    (a.year == b.year && (a.month < b.month ||
      (a.month == b.month && (a.day < b.day || (a.day == b.day && a.micros < b.micros)))))
  }

  /** `d + timedelta(days=1)`: the same time on the next calendar day; past
      9999-12-31 Python raises OverflowError. */
  function NextDay(d: DateTime): (r: Result<DateTime, PyError>)
    requires Valid(d)
    ensures r.Err? <==> d.year == 9999 && d.month == 12 && d.day == 31
    ensures r.Ok? ==> Valid(r.value) && Before(d, r.value) && r.value.micros == d.micros
    ensures r.Ok? && d.day < DaysInMonth(d.year, d.month) ==> r.value == d.(day := d.day + 1)
    ensures r.Ok? && d.day == DaysInMonth(d.year, d.month) ==> r.value.day == 1
  {
    if d.day < DaysInMonth(d.year, d.month) then Ok(d.(day := d.day + 1))
    else if d.month < 12 then Ok(d.(month := d.month + 1, day := 1))
    else if d.year < 9999 then Ok(d.(year := d.year + 1, month := 1, day := 1))
    else Err(OverflowError("date value out of range"))
  }

  function Pad2(n: nat): string {
    if n < 10 then "0" + NatToString(n) else NatToString(n)
  }

  /** `d.strftime("%Y-%m-%d")`. The year is not zero-padded, as glibc
      prints years below 1000. */
  function Strftime(d: DateTime): string
    requires Valid(d)
  {
    NatToString(d.year) + "-" + Pad2(d.month) + "-" + Pad2(d.day)
  }

  // ------------------------------------------------------------ build_args

  /** The optional filters of `build_args`, each a JSON value (None is JNull). */
  datatype Filters = Filters(
    query: Json, provider: Json, category: Json, categoryIncident: Json,
    byline: Json, providerSubject: Json, subjectInfo: Json, subjectInfo1: Json,
    subjectInfo2: Json, subjectInfo3: Json, subjectInfo4: Json, sort: Json)

  const NoFilters: Filters :=
    Filters(JNull, JNull, JNull, JNull, JNull, JNull, JNull, JNull, JNull, JNull, JNull, JNull)

  /** The argument names of the optional filters, in the order they are added. */
  const FilterNames: seq<string> :=
    ["query", "provider", "category", "category_incident", "byline", "provider_subject",
     "subject_info", "subject_info1", "subject_info2", "subject_info3", "subject_info4", "sort"]

  function FilterValues(f: Filters): seq<Json> {
    [f.query, f.provider, f.category, f.categoryIncident, f.byline, f.providerSubject,
     f.subjectInfo, f.subjectInfo1, f.subjectInfo2, f.subjectInfo3, f.subjectInfo4, f.sort]
  }

  /** The optional filters with their argument names. */
  function FilterPairs(f: Filters): (r: seq<(string, Json)>)
    ensures |r| == |FilterNames|
    ensures forall i :: 0 <= i < |r| ==> r[i] == (FilterNames[i], FilterValues(f)[i])
  {
    seq(|FilterNames|, i requires 0 <= i < |FilterNames| => (FilterNames[i], FilterValues(f)[i]))
  }

  const FixedKeys: set<string> := {"published_at", "hilight", "return_from", "return_size", "fields"}

  /** The filter names are distinct and none is one of the fixed keys. */
  lemma FilterNamesApart()
    ensures forall a, b :: 0 <= a < b < |FilterNames| ==> FilterNames[a] != FilterNames[b]
    ensures forall a :: 0 <= a < |FilterNames| ==> FilterNames[a] !in FixedKeys
  {
    var n := FilterNames;
    forall a | 0 <= a < |n| ensures n[a] !in FixedKeys {
      assert a == 0 || a == 1 || a == 2 || a == 3 || a == 4 || a == 5 || a == 6 || a == 7 ||
             a == 8 || a == 9 || a == 10 || a == 11;
    }
    forall a, b | 0 <= a < b < |n| ensures n[a] != n[b] {
      assert a == 0 || a == 1 || a == 2 || a == 3 || a == 4 || a == 5 || a == 6 || a == 7 ||
             a == 8 || a == 9 || a == 10;
      assert b == 1 || b == 2 || b == 3 || b == 4 || b == 5 || b == 6 || b == 7 ||
             b == 8 || b == 9 || b == 10 || b == 11;
    }
  }

  /** The `if x: obj[name] = x` steps. */
  function KeepTruthy(ps: seq<(string, Json)>): seq<(string, Json)>
    decreases |ps|
  {
    if |ps| == 0 then []
    else if Truthy(ps[0].1) then [ps[0]] + KeepTruthy(ps[1..])
    else KeepTruthy(ps[1..])
  }

  function StrList(xs: seq<string>): seq<Json> {
    seq(|xs|, i requires 0 <= i < |xs| => JStr(xs[i]))
  }

  /** `KindsAPIClient.build_args`: the argument object of one API request. */
  function BuildArgs(start: DateTime, end: DateTime, hilight: int, offset: int, size: int,
                     fields: seq<string>, f: Filters): Result<Json, PyError>
    requires Valid(start) && Valid(end)
  {
    if !Before(start, end) then Err(AssertionError("start date should be earlier than end date"))
    else Ok(JDict(
      [("published_at", JDict([("from", JStr(Strftime(start))), ("until", JStr(Strftime(end)))]))]
      + KeepTruthy(FilterPairs(f))
      + [("hilight", JInt(hilight)), ("return_from", JInt(offset)), ("return_size", JInt(size)),
         ("fields", JList(StrList(fields)))]))
  }

  lemma {:induction false} LookupAppend(a: seq<(string, Json)>, b: seq<(string, Json)>, k: string)
    ensures Lookup(a + b, k) == if Lookup(a, k).Some? then Lookup(a, k) else Lookup(b, k)
    decreases |a|
  {
    if |a| > 0 {
      assert (a + b)[0] == a[0] && (a + b)[1..] == a[1..] + b;
      LookupAppend(a[1..], b, k);
    } else {
      assert a + b == b;
    }
  }

  /** A filter survives exactly when its value is truthy, and only filter
      names appear. */
  lemma {:induction false} KeepTruthyLookup(ps: seq<(string, Json)>, k: string)
    requires forall a, b :: 0 <= a < b < |ps| ==> ps[a].0 != ps[b].0
    ensures forall i :: 0 <= i < |ps| && ps[i].0 == k ==>
      Lookup(KeepTruthy(ps), k) == (if Truthy(ps[i].1) then Some(ps[i].1) else None)
    ensures (forall i :: 0 <= i < |ps| ==> ps[i].0 != k) ==> Lookup(KeepTruthy(ps), k) == None
    decreases |ps|
  {
    if |ps| > 0 {
      assert forall i :: 1 <= i < |ps| ==> ps[1..][i - 1] == ps[i];
      KeepTruthyLookup(ps[1..], k);
      if Truthy(ps[0].1) {
        assert KeepTruthy(ps) == [ps[0]] + KeepTruthy(ps[1..]);
        assert Lookup(KeepTruthy(ps), k) == if ps[0].0 == k then Some(ps[0].1) else Lookup(KeepTruthy(ps[1..]), k);
      }
    }
  }

  lemma Lookup4(a: (string, Json), b: (string, Json), c: (string, Json), d: (string, Json), k: string)
    ensures Lookup([a, b, c, d], k) ==
      if a.0 == k then Some(a.1) else if b.0 == k then Some(b.1)
      else if c.0 == k then Some(c.1) else if d.0 == k then Some(d.1) else None
  {
    assert [a, b, c, d][1..] == [b, c, d] && [b, c, d][1..] == [c, d] && [c, d][1..] == [d];
    assert [d][1..] == [];
    assert Lookup([d], k) == if d.0 == k then Some(d.1) else None;
    assert Lookup([c, d], k) == if c.0 == k then Some(c.1) else Lookup([d], k);
    assert Lookup([b, c, d], k) == if b.0 == k then Some(b.1) else Lookup([c, d], k);
  }

  /** `build_args` asserts start < end. The request then carries the window
      as %Y-%m-%d strings, each optional filter exactly when it is truthy,
      and hilight, return_from, return_size and fields always. */
  lemma BuildArgsSpec(start: DateTime, end: DateTime, hilight: int, offset: int, size: int,
                      fields: seq<string>, f: Filters)
    requires Valid(start) && Valid(end)
    ensures var r := BuildArgs(start, end, hilight, offset, size, fields, f);
      (r.Err? <==> !Before(start, end)) &&
      (r.Err? ==> r.error.AssertionError?) &&
      (r.Ok? ==> (r.value.JDict? &&
        Lookup(r.value.fields, "published_at") ==
          Some(JDict([("from", JStr(Strftime(start))), ("until", JStr(Strftime(end)))])) &&
        Lookup(r.value.fields, "hilight") == Some(JInt(hilight)) &&
        Lookup(r.value.fields, "return_from") == Some(JInt(offset)) &&
        Lookup(r.value.fields, "return_size") == Some(JInt(size)) &&
        Lookup(r.value.fields, "fields") == Some(JList(StrList(fields))) &&
        forall i :: 0 <= i < |FilterPairs(f)| ==>
          Lookup(r.value.fields, FilterPairs(f)[i].0) ==
            (if Truthy(FilterPairs(f)[i].1) then Some(FilterPairs(f)[i].1) else None)))
  {
    if Before(start, end) {
      var ps := FilterPairs(f);
      var head := [("published_at", JDict([("from", JStr(Strftime(start))), ("until", JStr(Strftime(end)))]))];
      var tail := [("hilight", JInt(hilight)), ("return_from", JInt(offset)), ("return_size", JInt(size)),
                   ("fields", JList(StrList(fields)))];
      var mid := KeepTruthy(ps);
      var all := head + mid + tail;
      forall k ensures Lookup(tail, k) == if k == "hilight" then Some(JInt(hilight))
        else if k == "return_from" then Some(JInt(offset)) else if k == "return_size" then Some(JInt(size))
        else if k == "fields" then Some(JList(StrList(fields))) else None
      {
        Lookup4(tail[0], tail[1], tail[2], tail[3], k);
        assert tail == [tail[0], tail[1], tail[2], tail[3]];
      }
      FilterNamesApart();
      assert forall a, b :: 0 <= a < b < |ps| ==> ps[a].0 != ps[b].0;
      forall k | k in FixedKeys
        ensures Lookup(all, k) == if k == "published_at" then Some(head[0].1) else Lookup(tail, k)
      {
        KeepTruthyLookup(ps, k);
        LookupAppend(head + mid, tail, k);
        LookupAppend(head, mid, k);
      }
      forall i | 0 <= i < |ps|
        ensures Lookup(all, ps[i].0) == (if Truthy(ps[i].1) then Some(ps[i].1) else None)
      {
        var k := ps[i].0;
        assert k !in FixedKeys;
        assert Lookup(tail, k) == None;
        assert Lookup(head, k) == None;
        KeepTruthyLookup(ps, k);
        LookupAppend(head + mid, tail, k);
        LookupAppend(head, mid, k);
      }
    }
  }

  // ---------------------------------------------------------------- paging

  const DefaultPageSize: int := 10000

  /** The HTTP call: it POSTs a body to a URL and returns the decoded reply. */
  type Api = (string, Json) -> Json

  /** The request body of `call_api`. */
  function CallBody(key: string, args: Json): Json {
    JDict([("access_key", JStr(key)), ("argument", args)])
  }

  /** One page as `get_daily_data_by_page` reports it. */
  datatype Page = Page(number: int, totalHits: Json, docs: seq<Json>)

  /** Python `x != 0` is false for 0, 0.0, -0.0 and False. */
  predicate EqualsZero(x: Json) {
    x == JInt(0) || x == JBool(false) || x == JFloat("0.0") || x == JFloat("-0.0")
  }

  /** The arguments of page n: the day [date, date + 1 day), offset n * size. */
  function PageArgs(date: DateTime, n: int, size: int, fields: seq<string>): Result<Json, PyError>
    requires Valid(date)
  {
    match NextDay(date)
    case Err(e) => Err(e)
    case Ok(end) => BuildArgs(date, end, 0, n * size, size, fields, NoFilters)
  }

  /** The reply to page n: a non-zero result code raises RuntimeError with
      the reason; otherwise the page reports page_number n + 1, total_hits and
      the documents. A `documents` value that is not a list is refused. */
  function PageFromReply(result: Json, n: int): (r: Result<Page, PyError>)
    ensures r.Ok? ==> r.value.number == n + 1
    ensures Subscript(result, "result").Ok? && !EqualsZero(Subscript(result, "result").value) ==>
      r.Err? && (Subscript(result, "reason").Ok? ==> r.error.RuntimeError?)
    ensures r.Ok? ==> (Subscript(result, "result").Ok? && EqualsZero(Subscript(result, "result").value) &&
      Subscript(result, "return_object").Ok? &&
      Subscript(Subscript(result, "return_object").value, "total_hits") == Ok(r.value.totalHits) &&
      Subscript(Subscript(result, "return_object").value, "documents") == Ok(JList(r.value.docs)))
    ensures (Subscript(result, "result").Ok? && EqualsZero(Subscript(result, "result").value) &&
      Subscript(result, "return_object").Ok? &&
      Subscript(Subscript(result, "return_object").value, "total_hits").Ok? &&
      Subscript(Subscript(result, "return_object").value, "documents").Ok? &&
      Subscript(Subscript(result, "return_object").value, "documents").value.JList?) ==> r.Ok?
  {
    match Subscript(result, "result")
    case Err(e) => Err(e)
    case Ok(code) =>
      if !EqualsZero(code) then
        match Subscript(result, "reason")
        case Err(e) => Err(e)
        case Ok(reason) => Err(RuntimeError("API call failed: " + Str(reason)))
      else
        match Subscript(result, "return_object")
        case Err(e) => Err(e)
        case Ok(obj) =>
          match Subscript(obj, "total_hits")
          case Err(e) => Err(e)
          case Ok(hits) =>
            match Subscript(obj, "documents")
            case Err(e) => Err(e)
            case Ok(docs) =>
              if !docs.JList? then Err(TypeError("documents is not a list"))
              else Ok(Page(n + 1, hits, docs.items))
  }

  /** `get_daily_data_by_page`: request page n and read the reply. */
  function FetchPage(api: Api, url: string, key: string, date: DateTime, n: int, fields: seq<string>): (r: Result<Page, PyError>)
    requires Valid(date)
    ensures r.Ok? ==> r.value.number == n + 1
  {
    match PageArgs(date, n, DefaultPageSize, fields)
    case Err(e) => Err(e)
    case Ok(args) => PageFromReply(api(url, CallBody(key, args)), n)
  }

  /** The pages of one day, by page number. */
  type PageFetch = int -> Result<Page, PyError>

  function DayPages(api: Api, url: string, key: string, date: DateTime, fields: seq<string>): PageFetch
    requires Valid(date)
  {
    n => FetchPage(api, url, key, date, n, fields)
  }

  /** Every page reports the number after its own. */
  ghost predicate Numbered(fetch: PageFetch) {
    forall n :: fetch(n).Ok? ==> fetch(n).value.number == n + 1
  }

  /** How the paging loop ends: the documents, an exception, or the fuel ran
      out while documents were still missing. */
  datatype Fetched = Fetched(docs: seq<Json>) | FetchFailed(err: PyError) | OutOfFuel

  /** The `while remain_count > 0` loop, with at most `fuel` more pages. */
  function PagesFrom(fetch: PageFetch, n: int, remain: int, buf: seq<Json>, fuel: nat): Fetched
    decreases fuel
  {
    if remain <= 0 then Fetched(buf)
    else if fuel == 0 then OutOfFuel
    else match fetch(n)
      case Err(e) => FetchFailed(e)
      case Ok(p) => PagesFrom(fetch, p.number, remain - |p.docs|, buf + p.docs, fuel - 1)
  }

  /** `get_daily_data`: page 0 gives total_hits; the loop asks for further pages
      until the received sizes reach it. */
  function DailyData(fetch: PageFetch, fuel: nat): Fetched {
    match fetch(0)
    case Err(e) => FailedFirst(e)
    case Ok(p) =>
      if !p.totalHits.JInt? then FailedFirst(TypeError("unsupported operand type(s) for -"))
      else PagesFrom(fetch, p.number, p.totalHits.i - |p.docs|, p.docs, fuel)
  }

  function FailedFirst(e: PyError): Fetched {
    FetchFailed(e)
  }

  /** The documents of pages 0 .. k-1, in page order. */
  function Collected(fetch: PageFetch, k: nat): Result<seq<Json>, PyError> {
    if k == 0 then Ok([])
    else match Collected(fetch, k - 1)
      case Err(e) => Err(e)
      case Ok(prev) =>
        match fetch(k - 1)
        case Err(e) => Err(e)
        case Ok(p) => Ok(prev + p.docs)
  }

  /** Pages 0 .. k-1 were fetched, their sizes reach `total`, and those of
      every shorter prefix did not. */
  ghost predicate StopsAt(fetch: PageFetch, total: int, k: nat) {
    Collected(fetch, k).Ok? && |Collected(fetch, k).value| >= total &&
    forall j: nat :: 1 <= j < k ==> Collected(fetch, j).Ok? && |Collected(fetch, j).value| < total
  }

  lemma {:induction false} PagesFromStops(fetch: PageFetch, total: int, n: nat, buf: seq<Json>, fuel: nat)
    requires Numbered(fetch) && n >= 1
    requires Collected(fetch, n) == Ok(buf)
    requires forall j: nat :: 1 <= j < n ==> Collected(fetch, j).Ok? && |Collected(fetch, j).value| < total
    ensures var r := PagesFrom(fetch, n, total - |buf|, buf, fuel);
      r.Fetched? ==> exists k: nat :: (k >= n && StopsAt(fetch, total, k) && Collected(fetch, k).value == r.docs)
    decreases fuel
  {
    if total - |buf| <= 0 {
      assert StopsAt(fetch, total, n);
    } else if fuel > 0 {
      match fetch(n)
      case Err(_) =>
      case Ok(p) =>
        assert Collected(fetch, n + 1) == Ok(buf + p.docs);
        assert total - |buf| - |p.docs| == total - |buf + p.docs|;
        assert PagesFrom(fetch, n, total - |buf|, buf, fuel) == PagesFrom(fetch, n + 1, total - |buf + p.docs|, buf + p.docs, fuel - 1);
        PagesFromStops(fetch, total, n + 1, buf + p.docs, fuel - 1);
    }
  }

  /** Paging starts at page 0, concatenates the documents in page order, and
      stops at the first page count whose sizes reach total_hits. */
  lemma DailyDataStops(fetch: PageFetch, fuel: nat)
    requires Numbered(fetch)
    ensures var r := DailyData(fetch, fuel);
      r.Fetched? ==> (
        fetch(0).Ok? && fetch(0).value.totalHits.JInt? &&
        exists k: nat :: (k >= 1 && StopsAt(fetch, fetch(0).value.totalHits.i, k) && Collected(fetch, k).value == r.docs))
  {
    match fetch(0)
    case Err(_) =>
    case Ok(p) =>
      if p.totalHits.JInt? {
        assert [] + p.docs == p.docs;
        assert Collected(fetch, 1) == Ok(p.docs);
        PagesFromStops(fetch, p.totalHits.i, 1, p.docs, fuel);
      }
  }

  /** The loop ends when every page it may ask for is non-empty: with at least
      total_hits pages of fuel it never runs out. */
  lemma {:induction false} PagesFromEnds(fetch: PageFetch, total: int, n: nat, remain: int, buf: seq<Json>, fuel: nat)
    requires Numbered(fetch)
    requires forall j: nat :: n <= j < total ==> fetch(j).Ok? && |fetch(j).value.docs| > 0
    requires remain <= total - n && remain <= fuel
    ensures !PagesFrom(fetch, n, remain, buf, fuel).OutOfFuel?
    decreases fuel
  {
    if remain > 0 {
      var p := fetch(n).value;
      PagesFromEnds(fetch, total, n + 1, remain - |p.docs|, buf + p.docs, fuel - 1);
    }
  }

  lemma DailyDataEnds(fetch: PageFetch, fuel: nat)
    requires Numbered(fetch)
    requires fetch(0).Ok? && fetch(0).value.totalHits.JInt?
    requires fuel >= fetch(0).value.totalHits.i
    requires forall j: nat :: j < fetch(0).value.totalHits.i ==> fetch(j).Ok? && |fetch(j).value.docs| > 0
    ensures !DailyData(fetch, fuel).OutOfFuel?
  {
    var p := fetch(0).value;
    if p.totalHits.i > 0 {
      PagesFromEnds(fetch, p.totalHits.i, 1, p.totalHits.i - |p.docs|, p.docs, fuel);
    }
  }

  /** The pages of a day are numbered one after the other. */
  lemma DayPagesNumbered(api: Api, url: string, key: string, date: DateTime, fields: seq<string>)
    requires Valid(date)
    ensures Numbered(DayPages(api, url, key, date, fields))
  {
  }

  /** Page n asks for offset n * page_size and page_size documents over one
      calendar day starting at `date`. */
  lemma PageRequest(date: DateTime, n: int, fields: seq<string>)
    requires Valid(date) && NextDay(date).Ok?
    ensures var args := PageArgs(date, n, DefaultPageSize, fields);
      args.Ok? && args.value.JDict? &&
      Lookup(args.value.fields, "published_at") ==
        Some(JDict([("from", JStr(Strftime(date))), ("until", JStr(Strftime(NextDay(date).value)))])) &&
      Lookup(args.value.fields, "return_from") == Some(JInt(n * DefaultPageSize)) &&
      Lookup(args.value.fields, "return_size") == Some(JInt(DefaultPageSize))
  {
    BuildArgsSpec(date, NextDay(date).value, 0, n * DefaultPageSize, DefaultPageSize, fields, NoFilters);
  }

  /** `KindsAPIClient`: the endpoint and the access key. */
  class KindsApiClient {
    const host: string
    const path: string
    const key: string

    constructor (host: string, path: string, key: string)
      ensures this.host == host && this.path == path && this.key == key
    {
      this.host := host;
      this.path := path;
      this.key := key;
    }

    /** `get_daily_data`, asking for at most `fuel` pages after the first. */
    method GetDailyData(api: Api, date: DateTime, fields: seq<string>, fuel: nat) returns (r: Fetched)
      requires Valid(date)
      ensures r == DailyData(DayPages(api, host + path, key, date, fields), fuel)
    {
      var url := host + path;
      r := FetchAllPages(DayPages(api, url, key, date, fields), fuel);
    }
  }

  /** The body of `get_daily_data` over the page requests: page 0, then
      the `while remain_count > 0` loop. */
  method FetchAllPages(fetch: PageFetch, fuel: nat) returns (r: Fetched)
    ensures r == DailyData(fetch, fuel)
  {
    var first := fetch(0);
    if first.Err? {
      return FailedFirst(first.error);
    }
    var page := first.value;
    if !page.totalHits.JInt? {
      return FailedFirst(TypeError("unsupported operand type(s) for -"));
    }
    var totalHits := page.totalHits.i;
    var pageNumber := page.number;
    var buf := page.docs;
    var remainCount := totalHits - |page.docs|;
    var left := fuel;
    while remainCount > 0
      invariant PagesFrom(fetch, pageNumber, remainCount, buf, left) == DailyData(fetch, fuel)
      decreases left
    {
      if left == 0 {
        return OutOfFuel;
      }
      var next := fetch(pageNumber);
      if next.Err? {
        return FetchFailed(next.error);
      }
      pageNumber := next.value.number;
      buf := buf + next.value.docs;
      remainCount := remainCount - |next.value.docs|;
      left := left - 1;
    }
    return Fetched(buf);
  }
}
