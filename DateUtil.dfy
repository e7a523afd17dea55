/**
 * `OXR\Utils\Date`: the start-time and period rules of the OHLC endpoint.
 *
 * Every `new \DateTime(...)` the PHP method reads from the clock is the one
 * instant `now`, passed in. Time zone is UTC throughout.
 *
 * As shipped, Date.php does not parse (the `;` after the message at line 114
 * is missing) and line 47 calls `\DateTime("December 19th 2016")` without
 * `new`; this module models the evident intent: a parsable file that
 * compares the start with the date-time 2016-12-19 00:00.
 */
module DateUtil {
  import opened Wrappers
  import opened Calendar

  /** A PHP date argument: a string, a `\DateTime` object, or any other value. */
  datatype Arg = TextArg(text: string) | DateTimeArg(t: DateTime) | OtherArg

  /** `isDateTime($date)`: `$date instanceof \DateTime`. */
  predicate IsDateTime(a: Arg) {
    a.DateTimeArg?
  }

  /** The nine period codes the `switch` accepts. */
  datatype Period =
    | OneMinute | FiveMinutes | FifteenMinutes | ThirtyMinutes | OneHour
    | TwelveHours | OneDay | OneWeek | OneMonth

  function Code(p: Period): string
  {
    match p
    case OneMinute => "1m"
    case FiveMinutes => "5m"
    case FifteenMinutes => "15m"
    case ThirtyMinutes => "30m"
    case OneHour => "1h"
    case TwelveHours => "12h"
    case OneDay => "1d"
    case OneWeek => "1w"
    case OneMonth => "1mo"
  }

  const PeriodCodes: set<string> := {"1m", "5m", "15m", "30m", "1h", "12h", "1d", "1w", "1mo"}

  /**
   * The `switch ($period)` dispatch. PHP's loose `==` between two strings
   * that are not both numeric is plain equality, and no case label is numeric.
   */
  function ParsePeriod(code: string): (r: Option<Period>)
    ensures r.Some? <==> code in PeriodCodes
    ensures r.Some? ==> Code(r.value) == code
  {
    if code == "1m" then Some(OneMinute)
    else if code == "5m" then Some(FiveMinutes)
    else if code == "15m" then Some(FifteenMinutes)
    else if code == "30m" then Some(ThirtyMinutes)
    else if code == "1h" then Some(OneHour)
    else if code == "12h" then Some(TwelveHours)
    else if code == "1d" then Some(OneDay)
    else if code == "1w" then Some(OneWeek)
    else if code == "1mo" then Some(OneMonth)
    else None
  }

  lemma ParseCode(p: Period)
    ensures ParsePeriod(Code(p)) == Some(p)
  {
  }

  /** One constructor per exception message of `validateOHLC`. */
  datatype OhlcError =
    | NonZeroSeconds               // Date.php:45
    | BeforeDataEpoch              // Date.php:48
    | TooOld(period: Period)       // Date.php:54, :60, :69, :78, :87
    | Misaligned(period: Period)   // Date.php:63, :72, :81, :90, :96, :102
    | NotStartOfDay                // Date.php:108 (period 1w)
    | NotStartOfMonth              // Date.php:114 (period 1mo)
    | UnknownPeriod(code: string)  // Date.php:118
    | IncompletePeriod             // Date.php:124

  const Minute := 60
  const Hour := 3600
  const Day := 86400

  /** The earliest data the provider serves: 19 December 2016, 00:00. */
  const DataEpoch: DateTime := CivilTime(2016, 12, 19, 0, 0, 0)

  /** `$start_time < new \DateTime("-N ...")`, the look-back comparison (strict). */
  predicate OlderThan(start: DateTime, now: DateTime, seconds: int) {
    Instant(start) < Instant(now) - seconds
  }

  /** The body of one `case` of the switch: its checks in source order, the first that fails. */
  function PeriodRule(p: Period, start: DateTime, now: DateTime): (r: Option<OhlcError>)
    ensures r.None? <==> MeetsPeriodRules(start, p, now)
    ensures r == Some(TooOld(p)) ==> LookBack(p).Some?
    ensures r == Some(Misaligned(p)) ==> Alignment(p).Some?
    ensures r.Some? ==> r.value in {TooOld(p), Misaligned(p), NotStartOfDay, NotStartOfMonth}
    ensures r == Some(NotStartOfDay) ==> p == OneWeek
    ensures r == Some(NotStartOfMonth) ==> p == OneMonth
  {
    match p
    case OneMinute =>
      if OlderThan(start, now, Hour) then Some(TooOld(p)) else None
    case FiveMinutes =>
      if OlderThan(start, now, Day) then Some(TooOld(p))
      else if start.minute % 5 != 0 then Some(Misaligned(p))
      else None
    case FifteenMinutes =>
      if OlderThan(start, now, Day) then Some(TooOld(p))
      else if start.minute % 15 != 0 then Some(Misaligned(p))
      else None
    case ThirtyMinutes =>
      if OlderThan(start, now, 32 * Day) then Some(TooOld(p))
      else if start.minute % 30 != 0 then Some(Misaligned(p))
      else None
    case OneHour =>
      if OlderThan(start, now, 32 * Day) then Some(TooOld(p))
      else if start.minute % 30 != 0 then Some(Misaligned(p))
      else None
    case TwelveHours =>
      if start.minute % 30 != 0 then Some(Misaligned(p)) else None
    case OneDay =>
      if start.minute % 30 != 0 then Some(Misaligned(p)) else None
    case OneWeek =>
      // format('Hi') > 0: the four-digit string "hhmm" read as a number
      if start.hour * 100 + start.minute > 0 then Some(NotStartOfDay) else None
    case OneMonth =>
      if start.day > 1 then Some(NotStartOfMonth) else None
  }

  /** The look-back window per period, in seconds, if it has one (the "older than" messages). */
  function LookBack(p: Period): Option<nat>
  {
    match p
    case OneMinute => Some(Hour)
    case FiveMinutes => Some(Day)
    case FifteenMinutes => Some(Day)
    case ThirtyMinutes => Some(32 * Day)
    case OneHour => Some(32 * Day)
    case _ => None
  }

  /** The minute alignment per period, if it has one. */
  function Alignment(p: Period): Option<nat>
  {
    match p
    case FiveMinutes => Some(5)
    case FifteenMinutes => Some(15)
    case ThirtyMinutes => Some(30)
    case OneHour => Some(30)
    case TwelveHours => Some(30)
    case OneDay => Some(30)
    case _ => None
  }

  predicate WithinLookBack(start: DateTime, p: Period, now: DateTime) {
    LookBack(p).Some? ==> Instant(start) >= Instant(now) - LookBack(p).value
  }

  predicate Aligned(start: DateTime, p: Period) {
    Alignment(p).Some? ==> start.minute % Alignment(p).value == 0
  }

  /** The per-period rules: look-back, alignment and the `1w`/`1mo` conditions, as the exception messages state them. */
  predicate MeetsPeriodRules(start: DateTime, p: Period, now: DateTime) {
    && WithinLookBack(start, p, now)
    && Aligned(start, p)
    && (p == OneWeek ==> start.hour == 0 && start.minute == 0)
    && (p == OneMonth ==> start.day == 1)
  }

  /** The switch and the per-period rules agree, and the switch names the rule that fails first. */
  lemma PeriodRuleMatchesTable(p: Period, start: DateTime, now: DateTime)
    ensures PeriodRule(p, start, now).None? <==> MeetsPeriodRules(start, p, now)
    ensures PeriodRule(p, start, now) == Some(TooOld(p)) <==> !WithinLookBack(start, p, now)
    ensures PeriodRule(p, start, now) == Some(Misaligned(p)) <==>
              WithinLookBack(start, p, now) && !Aligned(start, p)
    ensures PeriodRule(p, start, now) == Some(NotStartOfDay) <==>
              p == OneWeek && (start.hour != 0 || start.minute != 0)
    ensures PeriodRule(p, start, now) == Some(NotStartOfMonth) <==> p == OneMonth && start.day != 1
  {
  }

  /** The step each period adds to the start, in seconds, when it is a fixed length. */
  function FixedStep(p: Period): Option<nat>
  {
    match p
    case OneMinute => Some(Minute)
    case FiveMinutes => Some(5 * Minute)
    case FifteenMinutes => Some(15 * Minute)
    case ThirtyMinutes => Some(30 * Minute)
    case OneHour => Some(Hour)
    case TwelveHours => Some(12 * Hour)
    case OneDay => Some(Day)
    case OneWeek => Some(7 * Day)
    case OneMonth => None
  }

  /** `$end_time = clone $start_time; $end_time->modify($modifier)`, as an instant. */
  function End(start: DateTime, p: Period): (e: int)
    ensures FixedStep(p).Some? ==> e == Instant(start) + FixedStep(p).value
    ensures p == OneMonth ==> e == Instant(start) + DaysInMonth(start.year, start.month) * Day
    ensures e > Instant(start)
  {
    match p
    case OneMinute => Instant(start) + Minute
    case FiveMinutes => Instant(start) + 5 * Minute
    case FifteenMinutes => Instant(start) + 15 * Minute
    case ThirtyMinutes => Instant(start) + 30 * Minute
    case OneHour => Instant(start) + Hour
    case TwelveHours => Instant(start) + 12 * Hour
    case OneDay => Instant(start) + Day
    case OneWeek => Instant(start) + 7 * Day
    case OneMonth => OneMonthLater(start)
  }

  /** Start and end are fine before the per-period rules: whole minute, not before the data epoch. */
  predicate PassesCommonChecks(start: DateTime) {
    start.second == 0 && Instant(start) >= Instant(DataEpoch)
  }

  /**
   * `validateOHLC($start_time, $period)`: `Pass`, or the first rule that
   * fails, in the order (1) seconds, (2) data epoch, (3) the period's own
   * rules, (4) unknown period, (5) the window must be complete by `now`.
   */
  function ValidateOHLC(start: DateTime, period: string, now: DateTime): (r: Outcome<OhlcError>)
    ensures r.Pass? ==> PassesCommonChecks(start) && period in PeriodCodes
    ensures r.Pass? ==> End(start, ParsePeriod(period).value) <= Instant(now)
    ensures r.Pass? ==> Instant(start) < Instant(now)
  {
    // format('s') > 0
    if start.second > 0 then Fail(NonZeroSeconds)
    else if Instant(start) < Instant(DataEpoch) then Fail(BeforeDataEpoch)
    else
      match ParsePeriod(period)
      case None => Fail(UnknownPeriod(period))
      case Some(p) =>
        match PeriodRule(p, start, now)
        case Some(e) => Fail(e)
        case None => if End(start, p) > Instant(now) then Fail(IncompletePeriod) else Pass
  }

  /** A start with non-zero seconds is rejected for that reason, whatever the period and the clock. */
  lemma SecondsCheckedFirst(start: DateTime, period: string, now: DateTime)
    ensures ValidateOHLC(start, period, now) == Fail(NonZeroSeconds) <==> start.second != 0
  {
    PeriodRulesNeverBlameCommonChecks(start, now);
  }

  lemma PeriodRulesNeverBlameCommonChecks(start: DateTime, now: DateTime)
    ensures forall p :: PeriodRule(p, start, now) != Some(NonZeroSeconds)
    ensures forall p :: PeriodRule(p, start, now) != Some(BeforeDataEpoch)
    ensures forall p, c :: PeriodRule(p, start, now) != Some(UnknownPeriod(c))
    ensures forall p :: PeriodRule(p, start, now) != Some(IncompletePeriod)
  {
  }

  /** The epoch rule: rejected exactly when the start is a whole minute strictly before 2016-12-19. */
  lemma EpochChecked(start: DateTime, period: string, now: DateTime)
    ensures ValidateOHLC(start, period, now) == Fail(BeforeDataEpoch) <==>
              start.second == 0 && CivilBefore(start, DataEpoch)
  {
    PeriodRulesNeverBlameCommonChecks(start, now);
    InstantOrder(start, DataEpoch);
  }

  /** The data epoch itself passes the epoch rule. */
  lemma EpochIsInclusive(period: string, now: DateTime)
    ensures ValidateOHLC(DataEpoch, period, now) != Fail(BeforeDataEpoch)
  {
    PeriodRulesNeverBlameCommonChecks(DataEpoch, now);
  }

  /** Any code outside the nine is rejected as unknown, once the common checks pass. */
  lemma UnknownPeriodChecked(start: DateTime, period: string, now: DateTime)
    ensures ValidateOHLC(start, period, now) == Fail(UnknownPeriod(period)) <==>
              PassesCommonChecks(start) && period !in PeriodCodes
  {
    PeriodRulesNeverBlameCommonChecks(start, now);
  }

  /** The look-back rule: a start exactly at the limit is accepted (strict `<`). */
  lemma LookBackChecked(start: DateTime, p: Period, now: DateTime)
    ensures ValidateOHLC(start, Code(p), now) == Fail(TooOld(p)) <==>
              PassesCommonChecks(start) && LookBack(p).Some? && Instant(start) < Instant(now) - LookBack(p).value
  {
    ParseCode(p);
    PeriodRuleMatchesTable(p, start, now);
  }

  /** The alignment rule, checked only once the look-back rule passed. */
  lemma AlignmentChecked(start: DateTime, p: Period, now: DateTime)
    ensures ValidateOHLC(start, Code(p), now) == Fail(Misaligned(p)) <==>
              && PassesCommonChecks(start)
              && WithinLookBack(start, p, now)
              && Alignment(p).Some?
              && start.minute % Alignment(p).value != 0
  {
    ParseCode(p);
    PeriodRuleMatchesTable(p, start, now);
  }

  /** A start both too old and misaligned is reported as too old. */
  lemma LookBackBeforeAlignment(start: DateTime, p: Period, now: DateTime)
    requires PassesCommonChecks(start)
    requires LookBack(p).Some? && Instant(start) < Instant(now) - LookBack(p).value
    requires Alignment(p).Some? && start.minute % Alignment(p).value != 0
    ensures ValidateOHLC(start, Code(p), now) == Fail(TooOld(p))
  {
    LookBackChecked(start, p, now);
  }

  /** Weekly windows start at 00:00. */
  lemma StartOfDayChecked(start: DateTime, now: DateTime)
    ensures ValidateOHLC(start, "1w", now) == Fail(NotStartOfDay) <==>
              PassesCommonChecks(start) && (start.hour != 0 || start.minute != 0)
  {
    PeriodRuleMatchesTable(OneWeek, start, now);
  }

  /** Monthly windows start on the first of the month. */
  lemma StartOfMonthChecked(start: DateTime, now: DateTime)
    ensures ValidateOHLC(start, "1mo", now) == Fail(NotStartOfMonth) <==>
              PassesCommonChecks(start) && start.day != 1
  {
    PeriodRuleMatchesTable(OneMonth, start, now);
  }

  /** Once every other rule passed, the window is rejected exactly when it ends after `now`. */
  lemma IncompleteChecked(start: DateTime, p: Period, now: DateTime)
    ensures ValidateOHLC(start, Code(p), now) == Fail(IncompletePeriod) <==>
              PassesCommonChecks(start) && MeetsPeriodRules(start, p, now) && End(start, p) > Instant(now)
  {
    ParseCode(p);
    PeriodRuleMatchesTable(p, start, now);
  }

  /** The whole decision against the per-period rules: accepted exactly when every rule holds. */
  lemma AcceptedExactly(start: DateTime, period: string, now: DateTime)
    ensures ValidateOHLC(start, period, now) == Pass <==>
              && PassesCommonChecks(start)
              && ParsePeriod(period).Some?
              && MeetsPeriodRules(start, ParsePeriod(period).value, now)
              && End(start, ParsePeriod(period).value) <= Instant(now)
  {
    if ParsePeriod(period).Some? {
      PeriodRuleMatchesTable(ParsePeriod(period).value, start, now);
    }
  }

  /** 10:30 with a five-minute period, asked for at 11:00 the same day, is accepted. */
  lemma ExampleAligned()
    ensures ValidateOHLC(CivilTime(2023, 6, 1, 10, 30, 0), "5m", CivilTime(2023, 6, 1, 11, 0, 0)) == Pass
  {
  }

  /** 10:31 is not a multiple of five minutes. */
  lemma ExampleMisaligned()
    ensures ValidateOHLC(CivilTime(2023, 6, 1, 10, 31, 0), "5m", CivilTime(2023, 6, 1, 11, 0, 0))
              == Fail(Misaligned(FiveMinutes))
  {
  }

  /** 1 January 2016 lies before the data epoch. */
  lemma ExampleBeforeEpoch(now: DateTime)
    ensures ValidateOHLC(CivilTime(2016, 1, 1, 0, 0, 0), "1d", now) == Fail(BeforeDataEpoch)
  {
  }
}
