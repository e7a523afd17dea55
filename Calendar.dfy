/**
 * The part of PHP's `\DateTime` the SDK touches, in UTC: civil fields,
 * the absolute instant used by `<` and `>` on date-times, the calendar
 * arithmetic of `modify("+1 month")`, and `format` for the two layouts
 * the SDK sends.
 */
module Calendar {
  import opened Text

  datatype CivilTime = CivilTime(year: int, month: int, day: int, hour: int, minute: int, second: int)

  predicate IsLeapYear(y: int) {
    y % 4 == 0 && (y % 100 != 0 || y % 400 == 0)
  }

  function DaysInMonth(y: int, m: int): (n: int)
    requires 1 <= m <= 12
    ensures 28 <= n <= 31
    ensures n == 29 <==> m == 2 && IsLeapYear(y)
  {
    if m == 2 then (if IsLeapYear(y) then 29 else 28)
    else if m == 4 || m == 6 || m == 9 || m == 11 then 30
    else 31
  }

  /** A normalised proleptic-Gregorian date and time of day. */
  predicate IsValid(t: CivilTime) {
    && 1 <= t.month <= 12
    && 1 <= t.day <= DaysInMonth(t.year, t.month)
    && 0 <= t.hour < 24
    && 0 <= t.minute < 60
    && 0 <= t.second < 60
  }

  /** A PHP `\DateTime` object, modelled to whole seconds in time zone UTC (its microseconds are not modelled). */
  type DateTime = t: CivilTime | IsValid(t) witness CivilTime(1970, 1, 1, 0, 0, 0)

  /** Days from 0001-01-01 to 1 January of year `y` (floor division keeps it right for all years). */
  function DaysBeforeYear(y: int): int
  {
    var p := y - 1;
    365 * p + p / 4 - p / 100 + p / 400
  }

  function DaysBeforeMonth(y: int, m: int): int
    requires 1 <= m <= 12
  {
    var common :=
      match m
      case 1 => 0 case 2 => 31 case 3 => 59 case 4 => 90 case 5 => 120 case 6 => 151
      case 7 => 181 case 8 => 212 case 9 => 243 case 10 => 273 case 11 => 304 case _ => 334;
    common + (if m > 2 && IsLeapYear(y) then 1 else 0)
  }

  /**
   * The absolute instant, in seconds, that PHP compares date-times by.
   * A day beyond the end of the month carries into the next month, as
   * PHP's normalisation does.
   */
  function Instant(t: CivilTime): (s: int)
    requires 1 <= t.month <= 12
    ensures IsValid(t) ==> s % 60 == t.second && (s / 60) % 60 == t.minute && (s / 3600) % 24 == t.hour
    ensures IsValid(t) ==> s % 86400 == t.hour * 3600 + t.minute * 60 + t.second
  {
    var day := DaysBeforeYear(t.year) + DaysBeforeMonth(t.year, t.month) + t.day - 1;
    if IsValid(t) then
      ClockFields(day, t.hour, t.minute, t.second);
      day * 86400 + t.hour * 3600 + t.minute * 60 + t.second
    else day * 86400 + t.hour * 3600 + t.minute * 60 + t.second
  }

  /** Seconds since a day boundary split back into day, hour, minute and second. */
  lemma ClockFields(day: int, h: int, m: int, sec: int)
    requires 0 <= h < 24 && 0 <= m < 60 && 0 <= sec < 60
    ensures var s := day * 86400 + h * 3600 + m * 60 + sec;
      s % 60 == sec && (s / 60) % 60 == m && (s / 3600) % 24 == h && s % 86400 == h * 3600 + m * 60 + sec
  {
    var s := day * 86400 + h * 3600 + m * 60 + sec;
    var minutes := day * 1440 + h * 60 + m;
    var hours := day * 24 + h;
    assert s == 60 * minutes + sec;
    assert s / 60 == minutes && s % 60 == sec;
    assert minutes == 60 * hours + m;
    assert minutes % 60 == m;
    assert s == 3600 * hours + (m * 60 + sec);
    assert s / 3600 == hours;
    assert hours % 24 == h;
    assert s == 86400 * day + (h * 3600 + m * 60 + sec);
    assert s % 86400 == h * 3600 + m * 60 + sec;
  }


  /** How many multiples of `k` (4, 100 or 400) the step from `y - 1` to `y` passes. */
  lemma StepCount(y: int, k: int)
    requires k == 4 || k == 100 || k == 400
    ensures y / k - (y - 1) / k == if y % k == 0 then 1 else 0
  {
    var q, r := (y - 1) / k, (y - 1) % k;
    assert y - 1 == k * q + r && 0 <= r < k;
    if r == k - 1 {
      assert y == k * (q + 1);
    } else {
      assert y == k * q + (r + 1) && 0 <= r + 1 < k;
    }
  }

  lemma MultipleOf(y: int, k: int, m: int)
    requires (k == 4 && m == 100) || (k == 100 && m == 400)
    requires y % m == 0
    ensures y % k == 0
  {
    var q := y / m;
    var d, r := y / k, y % k;
    assert y == m * q;
    assert y == k * d + r && 0 <= r < k;
    var x := (m / k) * q - d;
    assert r == k * x;
  }

  lemma Multiples(y: int)
    ensures y % 400 == 0 ==> y % 100 == 0
    ensures y % 100 == 0 ==> y % 4 == 0
  {
    if y % 400 == 0 {
      MultipleOf(y, 100, 400);
    }
    if y % 100 == 0 {
      MultipleOf(y, 4, 100);
    }
  }

  lemma YearLength(y: int)
    ensures DaysBeforeYear(y + 1) - DaysBeforeYear(y) == if IsLeapYear(y) then 366 else 365
  {
    StepCount(y, 4);
    StepCount(y, 100);
    StepCount(y, 400);
    Multiples(y);
  }

  /** The first of the following month lies exactly one month length later. */
  lemma MonthLength(y: int, m: int)
    requires 1 <= m <= 12
    ensures m < 12 ==> DaysBeforeMonth(y, m + 1) - DaysBeforeMonth(y, m) == DaysInMonth(y, m)
    ensures m == 12 ==> DaysBeforeYear(y + 1) - DaysBeforeYear(y) - DaysBeforeMonth(y, 12) == DaysInMonth(y, 12)
  {
    if m == 12 {
      YearLength(y);
    }
  }

  /** The instant `modify("+1 month")` produces: month + 1, the day carried over if the month is shorter. */
  function OneMonthLater(t: DateTime): (e: int)
    ensures e == Instant(t) + DaysInMonth(t.year, t.month) * 86400
  {
    MonthLength(t.year, t.month);
    if t.month == 12 then Instant(CivilTime(t.year + 1, 1, t.day, t.hour, t.minute, t.second))
    else Instant(CivilTime(t.year, t.month + 1, t.day, t.hour, t.minute, t.second))
  }

  /** Calendar order: field by field, most significant first. */
  predicate CivilBefore(a: CivilTime, b: CivilTime) {
    || a.year < b.year
    || (a.year == b.year && a.month < b.month)
    || (a.year == b.year && a.month == b.month && a.day < b.day)
    || (a.year == b.year && a.month == b.month && a.day == b.day && a.hour < b.hour)
    || (a.year == b.year && a.month == b.month && a.day == b.day && a.hour == b.hour && a.minute < b.minute)
    || (a.year == b.year && a.month == b.month && a.day == b.day && a.hour == b.hour && a.minute == b.minute
        && a.second < b.second)
  }

  function DayNumber(t: DateTime): int
  {
    DaysBeforeYear(t.year) + DaysBeforeMonth(t.year, t.month) + t.day - 1
  }

  lemma {:induction false} YearsIncrease(y1: int, y2: int)
    requires y1 < y2
    ensures DaysBeforeYear(y1) + 365 <= DaysBeforeYear(y2)
    decreases y2 - y1
  {
    YearLength(y1);
    if y1 + 1 < y2 {
      YearsIncrease(y1 + 1, y2);
    }
  }

  lemma DayWithinYear(t: DateTime)
    ensures DaysBeforeYear(t.year) <= DayNumber(t) < DaysBeforeYear(t.year + 1)
  {
    YearLength(t.year);
  }

  lemma DayOrder(a: DateTime, b: DateTime)
    requires a.year < b.year || (a.year == b.year && (a.month < b.month || (a.month == b.month && a.day < b.day)))
    ensures DayNumber(a) < DayNumber(b)
  {
    DayWithinYear(a);
    DayWithinYear(b);
    if a.year < b.year {
      if a.year + 1 < b.year {
        YearsIncrease(a.year + 1, b.year);
      }
    }
  }

  /** Comparing instants, as PHP compares date-times, is comparing in calendar order. */
  lemma InstantOrder(a: DateTime, b: DateTime)
    ensures Instant(a) < Instant(b) <==> CivilBefore(a, b)
    ensures Instant(a) == Instant(b) <==> a == b
  {
    if a.year < b.year || (a.year == b.year && (a.month < b.month || (a.month == b.month && a.day < b.day))) {
      DayOrder(a, b);
    } else if b.year < a.year || (a.year == b.year && (b.month < a.month || (a.month == b.month && b.day < a.day))) {
      DayOrder(b, a);
    }
  }

  /** `format('Y')`: at least four digits, a leading '-' before the common era. */
  function YearText(y: int): string
  {
    if y < 0 then "-" + Decimal(-y, 4) else Decimal(y, 4)
  }

  /**
   * `format('Y-m-d')`: the year, then the month and the day as two digits
   * each, separated by dashes; for a year of the common era every other
   * character is a digit.
   */
  function FormatYmd(t: DateTime): (s: string)
    ensures |s| >= 10 && s[|s| - 6] == '-' && s[|s| - 3] == '-'
    ensures t.year >= 0 ==> forall i :: 0 <= i < |s| && i != |s| - 6 && i != |s| - 3 ==> IsDigit(s[i])
  {
    assert Pow10(2) == 100;
    DecimalLength(t.month, 2);
    DecimalLength(t.day, 2);
    YearText(t.year) + "-" + Decimal(t.month, 2) + "-" + Decimal(t.day, 2)
  }

  /**
   * `format('Y-m-d\TH:i\Z')`, the start-time layout of the OHLC endpoint:
   * the date, `T`, two-digit hour, `:`, two-digit minute and `Z`.
   */
  function FormatStartTime(t: DateTime): (s: string)
    ensures |s| >= 16 && s[|s| - 7] == 'T' && s[|s| - 4] == ':' && s[|s| - 1] == 'Z'
    ensures s[..|s| - 7] == FormatYmd(t)
    ensures IsDigit(s[|s| - 6]) && IsDigit(s[|s| - 5]) && IsDigit(s[|s| - 3]) && IsDigit(s[|s| - 2])
  {
    assert Pow10(2) == 100;
    DecimalLength(t.hour, 2);
    DecimalLength(t.minute, 2);
    FormatYmd(t) + "T" + Decimal(t.hour, 2) + ":" + Decimal(t.minute, 2) + "Z"
  }

  /** For years 0000-9999 the Y-m-d text has fixed positions holding exactly the date's fields. */
  lemma {:induction false} FormatYmdFields(t: DateTime)
    requires 0 <= t.year < 10000
    ensures |FormatYmd(t)| == 10
    ensures FormatYmd(t)[4] == '-' && FormatYmd(t)[7] == '-'
    ensures DecimalValue(FormatYmd(t)[..4]) == t.year
    ensures DecimalValue(FormatYmd(t)[5..7]) == t.month
    ensures DecimalValue(FormatYmd(t)[8..10]) == t.day
  {
    var y, m, d := Decimal(t.year, 4), Decimal(t.month, 2), Decimal(t.day, 2);
    assert Pow10(2) == 100 && Pow10(4) == 10000;
    DecimalLength(t.year, 4);
    DecimalLength(t.month, 2);
    DecimalLength(t.day, 2);
    DecimalRoundTrip(t.year, 4);
    DecimalRoundTrip(t.month, 2);
    DecimalRoundTrip(t.day, 2);
    var s := FormatYmd(t);
    assert s == y + "-" + m + "-" + d;
    assert s[..4] == y;
    assert s[5..7] == m;
    assert s[8..10] == d;
  }

  /** The OHLC start-time text identifies the start minute exactly. */
  lemma {:induction false} FormatStartTimeFields(t: DateTime)
    requires 0 <= t.year < 10000
    ensures |FormatStartTime(t)| == 17
    ensures FormatStartTime(t)[..10] == FormatYmd(t)
    ensures FormatStartTime(t)[10] == 'T' && FormatStartTime(t)[13] == ':' && FormatStartTime(t)[16] == 'Z'
    ensures DecimalValue(FormatStartTime(t)[11..13]) == t.hour
    ensures DecimalValue(FormatStartTime(t)[14..16]) == t.minute
  {
    FormatYmdFields(t);
    var h, i := Decimal(t.hour, 2), Decimal(t.minute, 2);
    assert Pow10(2) == 100;
    DecimalLength(t.hour, 2);
    DecimalLength(t.minute, 2);
    DecimalRoundTrip(t.hour, 2);
    DecimalRoundTrip(t.minute, 2);
    var s := FormatStartTime(t);
    assert s == FormatYmd(t) + "T" + h + ":" + i + "Z";
    assert s[..10] == FormatYmd(t);
    assert s[11..13] == h;
    assert s[14..16] == i;
  }
}
