/** The backend's statistics handler: the required date window and the
    period unit, checked before the statistics are computed. */
module StatHandler {
  import opened Common
  import opened GoValue
  import opened Calendar
  import opened QAHandler

  const FromRequired := Error("`from` is required")
  const ToRequired := Error("`to` is required")
  const UnitInvalid := Error("`unit` should be one of ['MONTH', 'DAY']")

  const PeriodUnitDay := "DAY"
  const PeriodUnitMonth := "MONTH"

  /** The window of the statistics, as instants in nanoseconds. */
  datatype Window = Window(from: int, to: int)

  /** `prepareStatisticsRequestParameter`: both dates are required and
      must be dates, `from` before `to`; the window runs from `from`'s
      midnight to the last nanosecond of `to`'s day. */
  function PrepareParams(query: map<string, string>): (r: Result<Window, GoError>)
    ensures r.Ok? <==>
      (DateGiven(query, "from") && DateGiven(query, "to") &&
       !Before(ParseDate(Param(query, "to")).value, ParseDate(Param(query, "from")).value))
    ensures r.Ok? ==> r.value == Window(Midnight(ParseDate(Param(query, "from")).value),
                                        EndOfDay(ParseDate(Param(query, "to")).value))
    ensures r.Ok? ==> r.value.from <= r.value.to
    ensures r == Err(FromRequired) <==> Param(query, "from") == ""
    ensures r == Err(FromFormat) <==> Param(query, "from") != "" && !DateGiven(query, "from")
    ensures DateGiven(query, "from") ==>
      (r == Err(ToRequired) <==> Param(query, "to") == "") &&
      (r == Err(ToFormat) <==> Param(query, "to") != "" && !DateGiven(query, "to"))
  {
    var fromParam := Param(query, "from");
    if fromParam == "" then Err(FromRequired)
    else match ParseDate(fromParam)
      case None => Err(FromFormat)
      case Some(from) =>
        var toParam := Param(query, "to");
        if toParam == "" then Err(ToRequired)
        else match ParseDate(toParam)
          case None => Err(ToFormat)
          case Some(to) =>
            MidnightOrder(from, to);
            if Midnight(from) > Midnight(to) then Err(FromAfterTo)
            else Ok(Window(Midnight(from), EndOfDay(to)))
  }

  /** The unit: "DAY" when absent, and only "MONTH" or "DAY" accepted. */
  function UnitOf(query: map<string, string>): (r: Result<string, GoError>)
    ensures r.Ok? <==> Param(query, "unit") in {"", PeriodUnitDay, PeriodUnitMonth}
    ensures r.Ok? ==> r.value == (if Param(query, "unit") == PeriodUnitMonth then PeriodUnitMonth else PeriodUnitDay)
    ensures r.Err? ==> r.error == UnitInvalid
  {
    var unit := if Param(query, "unit") == "" then PeriodUnitDay else Param(query, "unit");
    if unit != PeriodUnitMonth && unit != PeriodUnitDay then Err(UnitInvalid) else Ok(unit)
  }

  /** `GetStatistics`: the status written, given the service's answer for
      a window and a unit. The window is checked before the unit. */
  function StatisticsStatus(query: map<string, string>, service: (Window, string) -> Option<GoError>): (status: int)
    ensures status == 400 <==> PrepareParams(query).Err? || UnitOf(query).Err?
    ensures status == 500 <==>
      (PrepareParams(query).Ok? && UnitOf(query).Ok? &&
       service(PrepareParams(query).value, UnitOf(query).value).Some?)
    ensures status == 200 <==>
      (PrepareParams(query).Ok? && UnitOf(query).Ok? &&
       service(PrepareParams(query).value, UnitOf(query).value).None?)
  {
    match PrepareParams(query)
    case Err(_) => 400
    case Ok(window) =>
      match UnitOf(query)
      case Err(_) => 400
      case Ok(unit) => if service(window, unit).Some? then 500 else 200
  }

  /** Round trip: two dates in order written as `yyyy-MM-dd` are read
      back as the window from the first day's midnight to the second
      day's last nanosecond, and two dates out of order are refused. */
  lemma PrepareRoundTrip(query: map<string, string>, a: Date, b: Date)
    requires Valid(a) && Valid(b) && 0 <= a.year <= 9999 && 0 <= b.year <= 9999
    requires Param(query, "from") == FormatDate(a) && Param(query, "to") == FormatDate(b)
    ensures !Before(b, a) ==> PrepareParams(query) == Ok(Window(Midnight(a), EndOfDay(b)))
    ensures Before(b, a) ==> PrepareParams(query) == Err(FromAfterTo)
  {
    ParseFormatDate(a);
    ParseFormatDate(b);
    assert |FormatDate(a)| > 0 && |FormatDate(b)| > 0;
  }
}
