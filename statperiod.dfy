/** The statistics period: the unit a report is bucketed by, the bucket
    label of an instant, and the walk that labels the buckets from `from`
    to `to`. */
module StatPeriod {
  import opened Common
  import opened Calendar
  import opened BackendModel

  /** `PeriodUnitDay` and `PeriodUnitMonth`. */
  datatype PeriodUnit = Day | Month

  /** The unit choice in `GetStatistics`: "MONTH" buckets by month and
      anything else by day. */
  function UnitOf(unit: string): (u: PeriodUnit)
    ensures u == Month <==> unit == "MONTH"
  {
    if unit == "MONTH" then Month else Day
  }

  /** `Format(datetimeFormat)`: "2006-01" for months, "2006-01-02" for days. */
  function Bucket(unit: PeriodUnit, t: int): string {
    if unit == Month then FormatYearMonth(DateOf(t)) else FormatDate(DateOf(t))
  }

  /** The bucket a QA falls in, by its creation time. */
  function BucketOf(unit: PeriodUnit): QA -> string {
    (qa: QA) => Bucket(unit, qa.createdAt)
  }

  /** `nextFunc`: `AddDate(0, 1, 0)` for months, `Add(24h)` for days. */
  function Step(unit: PeriodUnit, t: int): (r: int)
    ensures r > t
  {
    if unit == Month then
      NextMonthLater(t);
      NextMonth(t)
    else NextDay(t)
  }

  /** The labels of the walk from `t` while it is not after `to`. */
  function Walk(unit: PeriodUnit, t: int, to: int): seq<string>
    decreases to - t
  {
    if t > to then [] else [Bucket(unit, t)] + Walk(unit, Step(unit, t), to)
  }

  /** The midnight of the first day of the instant's month. */
  function MonthStart(t: int): int {
    var d := DateOf(t);
    Midnight(Date(d.year, d.month, 1))
  }

  /** Where the walk starts: the first of `from`'s month for months,
      `from` itself for days. */
  function WalkStart(unit: PeriodUnit, from: int): int {
    if unit == Month then MonthStart(from) else from
  }

  /** The labels of a report: one per bucket from `from`'s to `to`'s. */
  function Labels(unit: PeriodUnit, from: int, to: int): seq<string> {
    Walk(unit, WalkStart(unit, from), to)
  }

  /** The labels as the source walks them: from `from` itself, also for
      months. */
  function LabelsAsWritten(unit: PeriodUnit, from: int, to: int): seq<string> {
    Walk(unit, from, to)
  }

  /** One step of the walk: a label not after `to` is followed by the
      walk from the next instant. */
  lemma WalkStep(unit: PeriodUnit, t: int, to: int, labels: seq<string>, whole: seq<string>)
    requires t <= to && labels + Walk(unit, t, to) == whole
    ensures (labels + [Bucket(unit, t)]) + Walk(unit, Step(unit, t), to) == whole
    ensures Members(labels + [Bucket(unit, t)]) == Members(labels) + {Bucket(unit, t)}
  {
    assert Walk(unit, t, to) == [Bucket(unit, t)] + Walk(unit, Step(unit, t), to);
    assert (labels + [Bucket(unit, t)]) + Walk(unit, Step(unit, t), to) ==
      labels + ([Bucket(unit, t)] + Walk(unit, Step(unit, t), to));
  }

  /** The walk loop, shared by every report: the labels, and a map giving
      each label the report's empty value. */
  method WalkLabels<V>(unit: PeriodUnit, from: int, to: int, empty: V) returns (labels: seq<string>, init: map<string, V>)
    ensures labels == Labels(unit, from, to)
    ensures init.Keys == Members(labels) && (forall k :: k in init ==> init[k] == empty)
  {
    var t := WalkStart(unit, from);
    labels := [];
    init := map[];
    assert labels + Walk(unit, t, to) == Labels(unit, from, to);
    while t <= to
      invariant labels + Walk(unit, t, to) == Labels(unit, from, to)
      invariant init.Keys == Members(labels) && (forall k :: k in init ==> init[k] == empty)
    {
      var name := Bucket(unit, t);
      WalkStep(unit, t, to, labels, Labels(unit, from, to));
      labels := labels + [name];
      init := init[name := empty];
      t := Step(unit, t);
    }
    assert labels + [] == labels;
  }

  /** The midnight of an instant's day is not after it. */
  lemma MidnightOfDateOf(t: int)
    ensures Midnight(DateOf(t)) == (t / DayNs) * DayNs <= t
    ensures DayNumber(DateOf(t)) == t / DayNs
  {
    DayNumberOfCivil(t / DayNs);
  }

  /** An instant not before a day's midnight falls on that day or later. */
  lemma NotBeforeDay(a: Date, t: int)
    requires Valid(a) && Midnight(a) <= t
    ensures !Before(DateOf(t), a)
  {
    MidnightOfDateOf(t);
    QuotientAtLeast(DayNumber(a), t, DayNs);
    BeforeIffDayNumber(DateOf(t), a);
  }

  /** A multiple of `n` not above `t` is at most `n` times `t / n`. */
  lemma QuotientAtLeast(k: int, t: int, n: int)
    requires n > 0 && k * n <= t
    ensures k <= t / n
  {
    if k > t / n {
      MulLe(t / n + 1, k, n);
    }
  }

  /** Two instants less than a day apart, the first a midnight, fall on
      the same day. */
  lemma SameDay(s: int, t: int)
    requires s % DayNs == 0 && s <= t < s + DayNs
    ensures DateOf(t) == DateOf(s)
  {
    DivMod(s, DayNs, s / DayNs, 0);
    DivMod(t, DayNs, s / DayNs, t - s);
  }

  /** A day walk from a midnight labels the day of every instant up to
      `to`. */
  lemma {:induction false} DayWalkCovers(s: int, to: int, t: int)
    requires s % DayNs == 0 && s <= t <= to
    ensures Bucket(Day, t) in Members(Walk(Day, s, to))
    decreases t - s
  {
    var w := Walk(Day, s, to);
    WalkStep(Day, s, to, [], w);
    if t < s + DayNs {
      SameDay(s, t);
      assert Bucket(Day, t) == w[0];
    } else {
      DivShift(s, DayNs, 1);
      DayWalkCovers(s + DayNs, to, t);
    }
  }

  /** From the first of a month, an instant in a later month is at least
      one month step away. */
  lemma MonthStepWithin(a: Date, t: int)
    requires Valid(a) && a.day == 1 && Midnight(a) <= t
    requires DateOf(t).year != a.year || DateOf(t).month != a.month
    ensures Step(Month, Midnight(a)) == Midnight(NextMonthStart(a)) <= t
  {
    var d, b := DateOf(t), NextMonthStart(a);
    assert Step(Month, Midnight(a)) == Midnight(b) by {
      NextMonthOfMidnight(a);
    }
    assert Midnight(b) <= Midnight(d) by {
      NotBeforeDay(a, t);
      LaterMonthNotBefore(a, d);
      MidnightOrder(b, d);
    }
    assert Midnight(d) <= t by {
      MidnightOfDateOf(t);
    }
  }

  /** A day not before the first of a month and in another month is not
      before the first of the next month. */
  lemma LaterMonthNotBefore(a: Date, d: Date)
    requires Valid(a) && Valid(d) && a.day == 1 && !Before(d, a)
    requires d.year != a.year || d.month != a.month
    ensures !Before(d, NextMonthStart(a))
  {
  }

  /** A month walk from the first of a month labels the month of every
      instant up to `to`. */
  lemma {:induction false} MonthWalkCovers(a: Date, to: int, t: int)
    requires Valid(a) && a.day == 1 && Midnight(a) <= t <= to
    ensures Bucket(Month, t) in Members(Walk(Month, Midnight(a), to))
    decreases t - Midnight(a)
  {
    var d := DateOf(t);
    MidnightDate(a);
    var w := Walk(Month, Midnight(a), to);
    WalkStep(Month, Midnight(a), to, [], w);
    if d.year == a.year && d.month == a.month {
      assert Bucket(Month, t) == Bucket(Month, Midnight(a)) == w[0];
    } else {
      var b := NextMonthStart(a);
      MonthStepWithin(a, t);
      MonthWalkCovers(b, to, t);
    }
  }

  /** The labels cover the window: every instant from `from` (a midnight,
      as the handler passes it) to `to` has its bucket among them. */
  lemma LabelsCoverWindow(unit: PeriodUnit, from: int, to: int, t: int)
    requires from % DayNs == 0 && from <= t <= to
    ensures Bucket(unit, t) in Members(Labels(unit, from, to))
  {
    if unit == Month {
      var d := DateOf(from);
      var a := Date(d.year, d.month, 1);
      MidnightOfDateOf(from);
      MidnightOrder(a, d);
      MonthWalkCovers(a, to, t);
    } else {
      DayWalkCovers(from, to, t);
    }
  }

  /** As written, a month walk from the middle of a month steps to the
      middle of the next one and can overshoot `to`: from 2024-01-15 to
      2024-02-10 the only label is "2024-01", while a QA of 2024-02-05,
      inside the window, is counted under "2024-02". */
  lemma AsWrittenMonthLabelsMissBucket()
    ensures var from, to, t := Midnight(Date(2024, 1, 15)), EndOfDay(Date(2024, 2, 10)), Midnight(Date(2024, 2, 5));
      from <= t <= to && from % DayNs == 0 &&
      LabelsAsWritten(Month, from, to) == ["2024-01"] &&
      Bucket(Month, t) == "2024-02" && Bucket(Month, t) !in Members(LabelsAsWritten(Month, from, to))
  {
    var a, b, c := Date(2024, 1, 15), Date(2024, 2, 10), Date(2024, 2, 5);
    var from, to, t := Midnight(a), EndOfDay(b), Midnight(c);
    MidnightDate(a);
    MidnightDate(c);
    MidnightWithinDay(a, b);
    MidnightWithinDay(c, b);
    MidnightOrder(a, c);
    NextMonthOfMidnight(a);
    var next := Date(2024, 2, 15);
    assert Step(Month, from) == Midnight(next);
    MidnightWithinDay(next, b);
    assert Walk(Month, Midnight(next), to) == [];
    assert Bucket(Month, from) == "2024-01";
    assert Bucket(Month, t) == "2024-02";
  }

  /** The buckets the QAs fall in. */
  function KeysOf<K>(qas: seq<QA>, keyOf: QA -> K): set<K>
    decreases |qas|
  {
    if |qas| == 0 then {} else KeysOf(qas[..|qas| - 1], keyOf) + {keyOf(qas[|qas| - 1])}
  }

  lemma KeysOfSnoc<K>(qas: seq<QA>, i: int, keyOf: QA -> K)
    requires 0 <= i < |qas|
    ensures KeysOf(qas[..i + 1], keyOf) == KeysOf(qas[..i], keyOf) + {keyOf(qas[i])}
  {
    assert qas[..i + 1][..i] == qas[..i];
  }

  /** The buckets of a report: the walk's labels and the QAs' buckets. */
  function ReportKeys(qas: seq<QA>, unit: PeriodUnit, from: int, to: int): set<string> {
    Members(Labels(unit, from, to)) + KeysOf(qas, BucketOf(unit))
  }
}
