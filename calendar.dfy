/** Go's `time.Time` as the backend uses it: an instant in UTC, counted in
    nanoseconds from 1970-01-01T00:00:00Z, with its proleptic Gregorian
    calendar date, the `time.DateOnly` parser, the "2006-01-02" and
    "2006-01" layouts, and the one-day and one-month steps. */
module Calendar {
  import opened Common

  datatype Date = Date(year: int, month: int, day: int)

  predicate IsLeap(y: int) {
    y % 4 == 0 && (y % 100 != 0 || y % 400 == 0)
  }

  function YearLength(y: int): int {
    if IsLeap(y) then 366 else 365
  }

  function DaysIn(y: int, m: int): (r: int)
    requires 1 <= m <= 12
    ensures 28 <= r <= 31
  {
    if m == 2 then (if IsLeap(y) then 29 else 28)
    else if m == 4 || m == 6 || m == 9 || m == 11 then 30
    else 31
  }

  /** A date that names a real day. */
  predicate Valid(d: Date) {
    1 <= d.month <= 12 && 1 <= d.day <= DaysIn(d.year, d.month)
  }

  /** Days in the months of the year before month `m` (13 stands for the
      end of the year). */
  function DaysBeforeMonth(y: int, m: int): int
    requires 1 <= m <= 13
  {
    [0, 31, 59, 90, 120, 151, 181, 212, 243, 273, 304, 334, 365][m - 1] + (if IsLeap(y) && m > 2 then 1 else 0)
  }

  /** The leap years in [0, y). */
  function Leaps(y: int): int {
    (y + 3) / 4 - (y + 99) / 100 + (y + 399) / 400
  }

  /** Days from 0000-01-01 to the first day of year `y`. */
  function YearStart(y: int): int {
    365 * y + Leaps(y)
  }

  /** Days from 0000-01-01 to 1970-01-01. */
  const EpochOffset := 719528

  /** Days from 1970-01-01 to the date. */
  function DayNumber(d: Date): int
    requires 1 <= d.month <= 12
  {
    YearStart(d.year) + DaysBeforeMonth(d.year, d.month) + d.day - 1 - EpochOffset
  }

  /** Strictly earlier in calendar order. */
  predicate Before(a: Date, b: Date) {
    a.year < b.year || (a.year == b.year && (a.month < b.month || (a.month == b.month && a.day < b.day)))
  }

  lemma DivMod(x: int, n: int, q: int, r: int)
    requires n > 0 && 0 <= r < n && x == q * n + r
    ensures x / n == q && x % n == r
  {
    DivUnique(x, n, q, r);
  }

  /** Adding a multiple of the divisor. */
  lemma DivShift(x: int, n: int, k: int)
    requires n > 0
    ensures (x + k * n) / n == x / n + k && (x + k * n) % n == x % n
  {
    DivMod(x + k * n, n, x / n + k, x % n);
  }

  /** The quotient grows by one exactly when the next number is a
      multiple. */
  lemma DivStep(a: int, n: int)
    requires n > 0
    ensures (a + 1) / n == a / n + (if (a + 1) % n == 0 then 1 else 0)
  {
    var q, r := a / n, a % n;
    if r == n - 1 {
      DivMod(a + 1, n, q + 1, 0);
    } else {
      DivMod(a + 1, n, q, r + 1);
    }
  }

  /** Counting the multiples of `n` below `y + 1` instead of `y`. */
  lemma CeilStep(y: int, n: int)
    requires n > 0
    ensures (y + n) / n == (y + n - 1) / n + (if y % n == 0 then 1 else 0)
  {
    DivStep(y + n - 1, n);
    DivShift(y, n, 1);
  }

  lemma LeapsStep(y: int)
    ensures Leaps(y + 1) == Leaps(y) + (if IsLeap(y) then 1 else 0)
  {
    assert (y + 4) / 4 == (y + 3) / 4 + (if y % 4 == 0 then 1 else 0) by {
      CeilStep(y, 4);
    }
    assert (y + 100) / 100 == (y + 99) / 100 + (if y % 100 == 0 then 1 else 0) by {
      CeilStep(y, 100);
    }
    assert (y + 400) / 400 == (y + 399) / 400 + (if y % 400 == 0 then 1 else 0) by {
      CeilStep(y, 400);
    }
    assert y % 100 == 0 ==> y % 4 == 0 by {
      if y % 100 == 0 {
        DivMod(y, 100, y / 100, 0);
        DivMod(y, 4, 25 * (y / 100), 0);
      }
    }
    assert y % 400 == 0 ==> y % 100 == 0 by {
      if y % 400 == 0 {
        DivMod(y, 400, y / 400, 0);
        DivMod(y, 100, 4 * (y / 400), 0);
      }
    }
  }

  /** A year starts where the one before it ends. */
  lemma YearStartStep(y: int)
    ensures YearStart(y + 1) == YearStart(y) + YearLength(y)
  {
    LeapsStep(y);
  }

  /** Four hundred years are 146097 days. */
  lemma YearStartEra(e: int)
    ensures YearStart(400 * e) == 146097 * e
  {
    DivMod(400 * e + 3, 4, 100 * e, 3);
    DivMod(400 * e + 99, 100, 4 * e, 99);
    DivMod(400 * e + 399, 400, e, 399);
  }

  lemma {:induction false} YearStartMonotone(a: int, b: int)
    requires a < b
    ensures YearStart(a) + YearLength(a) <= YearStart(b)
    decreases b - a
  {
    YearStartStep(a);
    if a + 1 < b {
      YearStartMonotone(a + 1, b);
    }
  }

  lemma DaysBeforeMonthStep(y: int, m: int)
    requires 1 <= m <= 12
    ensures DaysBeforeMonth(y, m + 1) == DaysBeforeMonth(y, m) + DaysIn(y, m)
  {
  }

  lemma {:induction false} DaysBeforeMonthMonotone(y: int, m: int, k: int)
    requires 1 <= m < k <= 13
    ensures DaysBeforeMonth(y, m) + DaysIn(y, m) <= DaysBeforeMonth(y, k)
    decreases k - m
  {
    DaysBeforeMonthStep(y, m);
    if m + 1 < k {
      DaysBeforeMonthMonotone(y, m + 1, k);
    }
  }

  /** A valid date's day of the year is within the year. */
  lemma DayOfYearBound(d: Date)
    requires Valid(d)
    ensures 0 <= DaysBeforeMonth(d.year, d.month) + d.day - 1 < YearLength(d.year)
  {
    if d.month < 12 {
      DaysBeforeMonthMonotone(d.year, d.month, 13);
    }
  }

  /** Calendar order and day order agree. */
  lemma DayNumberMonotone(a: Date, b: Date)
    requires Valid(a) && Valid(b) && Before(a, b)
    ensures DayNumber(a) < DayNumber(b)
  {
    if a.year < b.year {
      DayOfYearBound(a);
      DayOfYearBound(b);
      YearStartMonotone(a.year, b.year);
    } else if a.month < b.month {
      DaysBeforeMonthMonotone(a.year, a.month, b.month);
    }
  }

  lemma DayNumberInjective(a: Date, b: Date)
    requires Valid(a) && Valid(b) && DayNumber(a) == DayNumber(b)
    ensures a == b
  {
    if Before(a, b) {
      DayNumberMonotone(a, b);
    } else if Before(b, a) {
      DayNumberMonotone(b, a);
    }
  }

  /** Earlier in calendar order exactly when earlier in days. */
  lemma BeforeIffDayNumber(a: Date, b: Date)
    requires Valid(a) && Valid(b)
    ensures Before(a, b) <==> DayNumber(a) < DayNumber(b)
  {
    if Before(a, b) {
      DayNumberMonotone(a, b);
    } else if Before(b, a) {
      DayNumberMonotone(b, a);
    } else {
      assert a == b;
    }
  }

  /** The year holding day `rest` counted from the start of year `y`, and
      the day within it. */
  function FindYear(rest: int, y: int): (r: (int, int))
    requires rest >= 0
    ensures 0 <= r.1 < YearLength(r.0)
    decreases rest
  {
    if rest < YearLength(y) then (y, rest) else FindYear(rest - YearLength(y), y + 1)
  }

  lemma {:induction false} FindYearStart(rest: int, y: int)
    requires rest >= 0
    ensures YearStart(FindYear(rest, y).0) + FindYear(rest, y).1 == YearStart(y) + rest
    decreases rest
  {
    if rest >= YearLength(y) {
      YearStartStep(y);
      FindYearStart(rest - YearLength(y), y + 1);
    }
  }

  /** The month holding day `rest` of the year counted from the start of
      month `m`, and the day within it. */
  function FindMonth(rest: int, y: int, m: int): (r: (int, int))
    requires 1 <= m <= 12 && 0 <= rest && DaysBeforeMonth(y, m) + rest < YearLength(y)
    ensures 1 <= r.0 <= 12 && 0 <= r.1 < DaysIn(y, r.0)
    ensures DaysBeforeMonth(y, r.0) + r.1 == DaysBeforeMonth(y, m) + rest
    decreases 12 - m
  {
    DaysBeforeMonthStep(y, m);
    if rest < DaysIn(y, m) then (m, rest)
    else FindMonth(rest - DaysIn(y, m), y, m + 1)
  }

  /** The date of a day number. */
  function CivilOf(n: int): (r: Date)
    ensures Valid(r)
  {
    var z := n + EpochOffset;
    var (y, doy) := FindYear(z % 146097, 400 * (z / 146097));
    var (m, dd) := FindMonth(doy, y, 1);
    Date(y, m, dd + 1)
  }

  /** A day number names the day it came from. */
  lemma DayNumberOfCivil(n: int)
    ensures DayNumber(CivilOf(n)) == n
  {
    var z := n + EpochOffset;
    var e := z / 146097;
    YearStartEra(e);
    FindYearStart(z % 146097, 400 * e);
  }

  /** A valid date comes back from its day number. */
  lemma CivilOfDayNumber(d: Date)
    requires Valid(d)
    ensures CivilOf(DayNumber(d)) == d
  {
    DayNumberOfCivil(DayNumber(d));
    DayNumberInjective(CivilOf(DayNumber(d)), d);
  }

  const SecondNs := 1_000_000_000
  const HourNs := 3600 * SecondNs
  const DayNs := 24 * HourNs

  /** The first nanosecond of a day. */
  function Midnight(d: Date): int
    requires 1 <= d.month <= 12
  {
    DayNumber(d) * DayNs
  }

  /** The date an instant falls on. */
  function DateOf(t: int): (r: Date)
    ensures Valid(r)
  {
    CivilOf(t / DayNs)
  }

  /** `Time.Hour`. */
  function HourOf(t: int): (r: int)
    ensures 0 <= r < 24
  {
    (t % DayNs) / HourNs
  }

  /** The zero `time.Time`: 0001-01-01T00:00:00Z. */
  const ZeroTime := -719162 * DayNs

  lemma ZeroTimeIsYearOne()
    ensures ZeroTime == Midnight(Date(1, 1, 1))
  {
    assert YearStart(1) == 366;
  }

  /** `Add(24 * time.Hour)`. */
  function NextDay(t: int): (r: int)
    ensures r > t
  {
    t + DayNs
  }

  /** The first day of the month after the date's. */
  function NextMonthStart(d: Date): (r: Date)
    requires 1 <= d.month <= 12
    ensures Valid(r)
  {
    if d.month == 12 then Date(d.year + 1, 1, 1) else Date(d.year, d.month + 1, 1)
  }

  /** `AddDate(0, 1, 0)`: the same day number and clock in the next month,
      a day past that month's end running on into the month after. */
  function NextMonth(t: int): int
  {
    var d := DateOf(t);
    (DayNumber(NextMonthStart(d)) + d.day - 1) * DayNs + t % DayNs
  }

  /** The one-month step always moves forward. */
  lemma NextMonthLater(t: int)
    ensures NextMonth(t) > t
  {
    var d := DateOf(t);
    var k := DayNumber(NextMonthStart(d)) + d.day - 1;
    assert NextMonth(t) == k * DayNs + t % DayNs;
    DayNumberOfCivil(t / DayNs);
    DayNumberMonotone(d, NextMonthStart(d));
    LaterDay(t, k);
  }

  /** An instant on a later day is later. */
  lemma LaterDay(t: int, k: int)
    requires k > t / DayNs
    ensures k * DayNs + t % DayNs > t
  {
    var n := t / DayNs;
    MulLe(n + 1, k, DayNs);
    assert t == n * DayNs + t % DayNs;
    assert (n + 1) * DayNs == n * DayNs + DayNs;
  }

  lemma MulLe(a: int, b: int, c: nat)
    requires a <= b
    ensures a * c <= b * c
  {
    assert b * c - a * c == (b - a) * c;
  }

  /** A midnight's date and clock. */
  lemma MidnightDate(d: Date)
    requires Valid(d)
    ensures DateOf(Midnight(d)) == d && Midnight(d) % DayNs == 0 && HourOf(Midnight(d)) == 0
  {
    DivMod(Midnight(d), DayNs, DayNumber(d), 0);
    CivilOfDayNumber(d);
  }

  /** The one-month step from a midnight lands on the next month's same
      day, or past the next month's end. */
  lemma NextMonthOfMidnight(d: Date)
    requires Valid(d)
    ensures NextMonth(Midnight(d)) == Midnight(NextMonthStart(d)) + (d.day - 1) * DayNs
  {
    MidnightDate(d);
    var n := DayNumber(NextMonthStart(d));
    assert NextMonth(Midnight(d)) == (n + d.day - 1) * DayNs + 0;
    assert (n + d.day - 1) * DayNs == n * DayNs + (d.day - 1) * DayNs;
  }

  /** The last nanosecond of a day. */
  function EndOfDay(d: Date): int
    requires 1 <= d.month <= 12
  {
    Midnight(d) + DayNs - 1
  }

  /** A midnight is no later than the end of a day exactly when its date
      is not after that day. */
  lemma MidnightWithinDay(a: Date, b: Date)
    requires Valid(a) && Valid(b)
    ensures Midnight(a) <= EndOfDay(b) <==> !Before(b, a)
  {
    BeforeIffDayNumber(b, a);
  }

  /** Midnights are ordered like their dates. */
  lemma MidnightOrder(a: Date, b: Date)
    requires Valid(a) && Valid(b)
    ensures Midnight(a) > Midnight(b) <==> Before(b, a)
  {
    BeforeIffDayNumber(b, a);
    if DayNumber(b) < DayNumber(a) {
      MulLe(DayNumber(b) + 1, DayNumber(a), DayNs);
    } else {
      MulLe(DayNumber(a), DayNumber(b), DayNs);
    }
  }

  /** Only the first day of year 1 starts at the zero time. */
  lemma MidnightZero(d: Date)
    requires Valid(d)
    ensures Midnight(d) == ZeroTime <==> d == Date(1, 1, 1)
  {
    ZeroTimeIsYearOne();
    if Midnight(d) == ZeroTime {
      assert DayNumber(d) * DayNs == DayNumber(Date(1, 1, 1)) * DayNs;
      DayNumberInjective(d, Date(1, 1, 1));
    }
  }

  /** `n` in decimal, zero-padded to `w` digits. */
  function PadTo(n: nat, w: nat): (r: string)
    ensures |r| >= w && AllDigits(r)
    decreases w
  {
    if |NatToString(n)| >= w then NatToString(n)
    else "0" + PadTo(n, w - 1)
  }

  /** The "2006" layout: a sign and four or more digits. */
  function YearString(y: int): string {
    if y < 0 then "-" + PadTo(-y, 4) else PadTo(y, 4)
  }

  /** `Format("2006-01-02")`. */
  function FormatDate(d: Date): string
    requires d.month >= 1 && d.day >= 1
  {
    YearString(d.year) + "-" + PadTo(d.month, 2) + "-" + PadTo(d.day, 2)
  }

  /** `Format("2006-01")`. */
  function FormatYearMonth(d: Date): string
    requires d.month >= 1
  {
    YearString(d.year) + "-" + PadTo(d.month, 2)
  }

  /** `time.Parse(time.DateOnly, s)`: four digits, '-', two digits, '-',
      two digits, naming a real day; anything else is an error. */
  function ParseDate(s: string): (r: Option<Date>)
    ensures r.Some? ==> Valid(r.value) && 0 <= r.value.year <= 9999
  {
    if |s| == 10 && AllDigits(s[..4]) && s[4] == '-' && AllDigits(s[5..7]) && s[7] == '-' && AllDigits(s[8..]) then
      var d := Date(DigitsValue(s[..4]), DigitsValue(s[5..7]), DigitsValue(s[8..]));
      assert DigitsValue(s[..4]) <= 9999 by { DigitsBound(s[..4]); }
      if 1 <= d.month <= 12 && 1 <= d.day <= DaysIn(d.year, d.month) then Some(d) else None
    else None
  }

  lemma {:induction false} DigitsBound(s: string)
    requires AllDigits(s)
    ensures DigitsValue(s) < Pow10(|s|)
    decreases |s|
  {
    if |s| > 0 {
      DigitsBound(s[..|s| - 1]);
    }
  }

  lemma {:induction false} LeadingZero(s: string)
    requires AllDigits(s)
    ensures AllDigits("0" + s) && DigitsValue("0" + s) == DigitsValue(s)
    decreases |s|
  {
    if |s| > 0 {
      var t := "0" + s;
      assert t[..|t| - 1] == "0" + s[..|s| - 1];
      LeadingZero(s[..|s| - 1]);
    } else {
      assert DigitsValue("0") == 10 * DigitsValue("") + 0;
    }
  }

  lemma {:induction false} PadToValue(n: nat, w: nat)
    ensures DigitsValue(PadTo(n, w)) == n
    decreases w
  {
    if |NatToString(n)| >= w {
      DigitsOfNatToString(n);
    } else {
      PadToValue(n, w - 1);
      LeadingZero(PadTo(n, w - 1));
    }
  }

  /** The decimal form of `n` is short enough exactly when `n` is small
      enough. */
  lemma NatToStringBound(n: nat, w: nat)
    requires w >= 1
    ensures |NatToString(n)| <= w <==> n < Pow10(w)
  {
    var s := NatToString(n);
    DigitsOfNatToString(n);
    DigitsBound(s);
    if |s| <= w {
      Pow10Monotone(|s|, w);
    } else {
      NatToStringAtLeast(n);
      Pow10Monotone(w, |s| - 1);
    }
  }

  lemma {:induction false} NatToStringAtLeast(n: nat)
    ensures Pow10(|NatToString(n)| - 1) <= n || n == 0
    decreases n
  {
    if n >= 10 {
      NatToStringAtLeast(n / 10);
    }
  }

  lemma {:induction false} PadToLength(n: nat, w: nat)
    requires w >= 1 && n < Pow10(w)
    ensures |PadTo(n, w)| == w
    decreases w
  {
    NatToStringBound(n, w);
    if |NatToString(n)| < w {
      NatToStringBound(n, w - 1);
      PadToLength(n, w - 1);
    }
  }

  /** Four digits, '-', two digits, '-', two digits are read as the date
      they name, when it is a real day. */
  lemma ParseLayout(ys: string, ms: string, ds: string)
    requires |ys| == 4 && |ms| == 2 && |ds| == 2 && AllDigits(ys) && AllDigits(ms) && AllDigits(ds)
    ensures var d := Date(DigitsValue(ys), DigitsValue(ms), DigitsValue(ds));
      ParseDate(ys + "-" + ms + "-" + ds) ==
        if 1 <= d.month <= 12 && 1 <= d.day <= DaysIn(d.year, d.month) then Some(d) else None
  {
    var s := ys + "-" + ms + "-" + ds;
    assert s[..4] == ys && s[4] == '-' && s[5..7] == ms && s[7] == '-' && s[8..] == ds;
  }

  /** A date of years 0 to 9999 written out is read back by the parser. */
  lemma ParseFormatDate(d: Date)
    requires Valid(d) && 0 <= d.year <= 9999
    ensures ParseDate(FormatDate(d)) == Some(d)
  {
    assert Pow10(4) == 10000 && Pow10(2) == 100 by {
      assert Pow10(1) == 10 && Pow10(3) == 1000;
    }
    PadToLength(d.year, 4);
    PadToLength(d.month, 2);
    PadToLength(d.day, 2);
    PadToValue(d.year, 4);
    PadToValue(d.month, 2);
    PadToValue(d.day, 2);
    ParseLayout(PadTo(d.year, 4), PadTo(d.month, 2), PadTo(d.day, 2));
  }
}
