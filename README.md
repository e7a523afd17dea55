# OXR PHP SDK — a Dafny model of request shaping and OHLC validation

The repository is a PHP client for the Open Exchange Rates web API. This
project models its two core files:

- `src/Utils/Date.php` (module `DateUtil`, pure): `validateOHLC`, the rules a
  start time and a period code must meet before the OHLC endpoint is asked
  for a window. The checks run in this order: whole minute, not before the
  data epoch (2016-12-19 00:00), the period's own look-back and alignment
  rules, unknown period, and the window `[start, start + step)` must be
  over by "now". `isDateTime` is the type-tag predicate `DateUtil.IsDateTime`.
- `src/OXR.php` (module `OXR`, mixed): class `OXR` with its two mutable
  fields `baseCurrency` and `showAlternative`, the constructor that copies
  only those two keys from the configuration map, the fluent setters,
  `formatCurrencyParam`, and one method per endpoint. Each endpoint method
  returns the request it would send (a path and an ordered parameter
  array) instead of sending it.

Supporting modules model the parts of PHP the core relies on:

- `Calendar`: the `\DateTime` value in UTC, its absolute instant (what `<`
  and `>` compare on), `modify("+1 month")`, and `format` for `Y-m-d` and
  the start-time layout.
- `Params`: a PHP array with string keys, which keeps insertion order and
  holds each key once.
- `Text`: `implode`, the matching split, and zero-padded decimals.
- `Wrappers`: `Option`, `Result` and `Outcome`.

A thrown `SdkException` is an `Err`/`Fail` value with one constructor per
message (`DateUtil.OhlcError`, `OXR.SdkError`). "Now" is a parameter.
Parsing with `\DateTime::createFromFormat` is a parameter too:
`parse: string -> Option<DateTime>` for the OHLC start time and
`isDate: string -> bool` for `Y-m-d` dates.

Three PHP built-ins are plain definitions with no contract of their own:
`isset` is `OXR.IsSet`, `instanceof \DateTime` is `DateUtil.IsDateTime`, and
string interpolation is `OXR.Interpolate`. The constructor row relies on the
first, the `ResolveStart`, `NormalizeDate` and endpoint rows on the second,
and the `Convert` and `ResolveStart` rows on the third.

PHP values that the SDK does not type (`show_alternative`, configuration
entries, `$from` in `convert`) are `Params.Value`.

## Source defects modelled by their evident intent

The code cannot run as written at these places. The model follows the
evident intent:

- `src/Utils/Date.php:114` lacks the `;` after the `throw`, so the file does
  not parse. The model treats the statement as complete.
- `src/Utils/Date.php:47` calls `\DateTime("December 19th 2016")` without
  `new`. The model compares with the date-time 2016-12-19 00:00 UTC.
- `src/Utils/Date.php:9` has a stray `H` in `"Y-m-dH\TH:i\Z"`. The model
  renders the start time as `Y-m-d\TH:i\Z` (`Calendar.FormatStartTime`, e.g.
  `2023-06-01T10:30Z`). The error message at `src/OXR.php:191` promises
  `YYYY-MM-DDThh:mm:00Z`, but the format has no seconds field. The model
  follows the format.
- `src/OXR.php:200` passes the formatted start-time string to `validateOHLC`,
  which calls `->format` on it. The model validates the `\DateTime` itself.

Other modelling choices:

- Each validation error is its own constructor, one per exception message
  of `src/Utils/Date.php` and `src/OXR.php`.
- `getHistoricalRates` and `getTimeSeries` are modelled twice: as written,
  where a `\DateTime` argument is rejected, and as evidently intended,
  where it is reformatted; see Findings.

## Model

| member | source | states |
|---|---|---|
| `DateUtil.ValidateOHLC` | src/Utils/Date.php:43-126 | an accepted start is a whole minute, on or after the data epoch, uses one of the nine codes, and its window ends no later than now, so the start is strictly before now |
| `DateUtil.AcceptedExactly` | src/Utils/Date.php:43-126 | accepted if and only if the common checks, a known code, the per-period rules (`LookBack`, `Alignment` and the `1w`/`1mo` conditions, as the exception messages at src/Utils/Date.php:54-114 state them) and end ≤ now all hold |
| `DateUtil.SecondsCheckedFirst` | src/Utils/Date.php:44-46 | the result is the seconds error exactly when seconds ≠ 0, whatever the period and the clock, so this check comes first |
| `DateUtil.EpochChecked` | src/Utils/Date.php:47-49 | the epoch error happens exactly when the start is a whole minute that is before 2016-12-19 00:00 in calendar order |
| `DateUtil.EpochIsInclusive` | src/Utils/Date.php:47-49 | a start exactly at 2016-12-19 00:00 passes the epoch check |
| `DateUtil.ParsePeriod` | src/Utils/Date.php:50-118 | a code is recognised exactly when it is one of `1m 5m 15m 30m 1h 12h 1d 1w 1mo`, and the period it yields has that code |
| `DateUtil.UnknownPeriodChecked` | src/Utils/Date.php:117-118 | the unknown-period error happens exactly when the common checks pass and the code is not one of the nine |
| `DateUtil.PeriodRuleMatchesTable` | src/Utils/Date.php:51-116 | the switch's cases agree with the per-period rules (`LookBack`, `Alignment` and the `1w`/`1mo` conditions, as the exception messages at src/Utils/Date.php:54-114 state them): look-back 1 h / 1 day / 32 days, alignment 5 / 15 / 30 minutes, 00:00 for `1w`, day 1 for `1mo`, and name the rule that fails first |
| `DateUtil.LookBackChecked` | src/Utils/Date.php:51-92 | the too-old error happens exactly when the period has a look-back window and the start is strictly older than now minus it, so a start exactly at the limit passes |
| `DateUtil.AlignmentChecked` | src/Utils/Date.php:57-104 | the misalignment error happens exactly when the look-back check passed, the period has an alignment and the start's minute is not a multiple of it |
| `DateUtil.LookBackBeforeAlignment` | src/Utils/Date.php:57-92 | a start both too old and misaligned is reported as too old |
| `DateUtil.StartOfDayChecked` | src/Utils/Date.php:105-110 | for `1w` the start-of-day error happens exactly when hour or minute is non-zero |
| `DateUtil.StartOfMonthChecked` | src/Utils/Date.php:111-116 | for `1mo` the start-of-month error happens exactly when the day of month is not 1 |
| `DateUtil.End` | src/Utils/Date.php:121-122 | the end is the start plus the period's fixed step (1 min to 1 week), or plus the length of the start's month for `1mo`, and is always after the start |
| `DateUtil.IncompleteChecked` | src/Utils/Date.php:121-125 | once every other rule passed, the incomplete-period error happens exactly when the end is strictly after now |
| `DateUtil.ParseCode` | src/Utils/Date.php:50-116 | every period's code is recognised as that period |
| `DateUtil.ExampleAligned` | src/Utils/Date.php:57-65 | 2023-06-01 10:30 with `5m`, asked at 11:00, is accepted |
| `DateUtil.ExampleMisaligned` | src/Utils/Date.php:62-64 | 10:31 with `5m` is rejected as misaligned |
| `DateUtil.ExampleBeforeEpoch` | src/Utils/Date.php:47-49 | 2016-01-01 with `1d` is rejected as before the data epoch, at any now |
| `Calendar.InstantOrder` | src/Utils/Date.php:47 | comparing date-times by instant is comparing them in calendar order, and equal instants mean equal date-times |
| `Calendar.OneMonthLater` | src/Utils/Date.php:121-122 | `modify("+1 month")` moves the instant forward by exactly the length of the start's month |
| `Calendar.FormatYmdFields` | src/OXR.php:90 | for years 0-9999 the `Y-m-d` text is ten characters whose digit fields read back as the year, month and day |
| `Calendar.FormatStartTimeFields` | src/OXR.php:197 | for years 0-9999 the start-time text is 17 characters whose fields read back as the date, hour and minute |
| `DateUtil.PeriodRule` | src/Utils/Date.php:50-116 | the switch's case for a period finds no fault exactly when the per-period rules (`LookBack`, `Alignment` and the `1w`/`1mo` conditions, as the exception messages at src/Utils/Date.php:54-114 state them) hold; it only ever reports that period's own look-back, alignment, start-of-day or start-of-month error, and only for a period that has that rule |
| `Calendar.Instant` | src/Utils/Date.php:44-53 | the instant PHP compares by; for a valid date-time its seconds, minutes and hours read back as the `s`, `i` and `H` fields, and its remainder within the day is the time of day |
| `Calendar.FormatYmd` | src/OXR.php:90 | the `Y-m-d` text ends with dash, two digits, dash, two digits, and is all digits besides those dashes for a year of the common era |
| `Calendar.FormatStartTime` | src/OXR.php:197 | the start-time text is the `Y-m-d` text followed by `T`, two digits, `:`, two digits and `Z` |
| `Text.Join` | src/OXR.php:253 | `implode` adds exactly one separator between neighbouring parts and nothing else: the length is the parts' total plus one less than their number, and separator-free parts give that many separators |
| `OXR.NormalizeDate` | src/OXR.php:82-91 | as intended, a date is usable exactly when the as-written check accepts it or it is a date-time object; an accepted string is kept as it is and a date-time becomes its `Y-m-d` text |
| `OXR.ResolveStart` | src/OXR.php:186-196 | the start is resolved exactly for a date-time object (kept as it is) or a string the parser accepts (its parse); a failed parse gives the invalid-start-time error with an empty shown value, any other value the wrong-type error |
| `OXR.RateQuery` | src/OXR.php:95-102 | the rate query has keys `base, show_alternative` and then `symbols` if any currencies were given, with those values |
| `Params.Put` | src/OXR.php:253 | assigning a key overwrites it in place or appends it, gives it the new value, changes no other key and keeps keys unique |
| `Text.Split` | src/OXR.php:253 | the split that undoes `implode`: joining its pieces gives back the string and no piece holds the separator |
| `Text.SplitJoin` | src/OXR.php:253 | splitting the joined list at the separator gives back the list, in order and with repeats, when no item holds the separator |
| `OXR.FormatCurrencyParam` | src/OXR.php:246-256 | an empty list returns the parameters unchanged; a non-empty one sets `symbols` to the comma-joined codes, appended or overwritten in place, with every other key unchanged |
| `OXR.SingleIsOneElementList` | src/OXR.php:248-250 | a single code gives the same parameters as the one-element list |
| `OXR.SymbolsReadBack` | src/OXR.php:252-254 | splitting `symbols` at commas gives back exactly the currency list when no code holds a comma |
| `OXR.TimeSeriesQuery` | src/OXR.php:136-144 | the time-series query has keys `start, end, base, show_alternative` and then `symbols` if any, with those values |
| `OXR.OXR.constructor` | src/OXR.php:19-37 | `baseCurrency` is the configured `base_currency` when set and not null, else `"USD"`; `showAlternative` likewise with default `false`; nothing else is read |
| `OXR.OXR.BaseCurrency` | src/OXR.php:223-226 | sets only the base currency and returns the same object |
| `OXR.OXR.ShowAlternative` | src/OXR.php:234-237 | sets only the flag and returns the same object |
| `OXR.OXR.GetCurrencies` | src/OXR.php:44-50 | path `/currencies.json`, with `show_alternative` as its only parameter |
| `OXR.OXR.GetLatestRates` | src/OXR.php:58-70 | path `latest.json`, with keys `base, show_alternative` from the fields, then `symbols` exactly when currencies were given |
| `OXR.OXR.GetHistoricalRates` | src/OXR.php:78-105 | as written: succeeds exactly for a string the date check accepts, with path `historical/{date}.json` and the rate query; a bad string gives the invalid-date error, every non-string (a `\DateTime` too) the historical-date error |
| `OXR.OXR.GetHistoricalRatesIntended` | src/OXR.php:78-105 | as intended: a `\DateTime` is also accepted and its `Y-m-d` text goes into the path |
| `OXR.OXR.GetTimeSeries` | src/OXR.php:115-147 | as written: checks `start` then `end` and reports the first failure with its name; succeeds exactly when both are accepted strings, and sends them as given |
| `OXR.OXR.GetTimeSeriesIntended` | src/OXR.php:115-147 | as intended: a `\DateTime` is accepted and the query carries each date's `Y-m-d` text |
| `OXR.OXR.Convert` | src/OXR.php:157-167 | path `convert/{amount}/{from}/{to}` with the base currency as `from` when `from` is not a string, no parameters; the path splits back into those four segments |
| `OXR.OXR.GetOHLCRates` | src/OXR.php:182-210 | a start time that cannot be resolved, or that validation rejects, yields that error and no request; otherwise path `ohlc.json` with `start_time, period, base, show_alternative` in order, and the start is before now |
| `OXR.OXR.GetUsage` | src/OXR.php:212-215 | path `usage.json`, no parameters |

## Findings

| source | as written | input that shows it | evidently intended | confidence | as-written member | corrected member |
|---|---|---|---|---|---|---|
| src/OXR.php:89 | the `\DateTime` branch tests the undefined `$start_time` (null), so it is never taken | `getHistoricalRates(new DateTime('2020-01-01'))` throws "Historical date is invalid." | test `$date` and request `historical/2020-01-01.json` | not executed | `OXR.OXR.GetHistoricalRates` | `OXR.OXR.GetHistoricalRatesIntended` |
| src/OXR.php:129-130 | the same undefined variable; also, the reformatted date is written only to the loop's local `$date`, so `start`/`end` would still hold the objects | `getTimeSeries(new DateTime('2020-01-01'), '2020-01-31')` throws "Value for start date is invalid." | accept a `\DateTime` and send its `Y-m-d` text as `start`/`end` | not executed | `OXR.OXR.GetTimeSeries` | `OXR.OXR.GetTimeSeriesIntended` |

## Left out

- `src/Client.php` is not part of this model. That covers the HTTP GET, URL composition, the `app_id` merge, JSON decoding and the error path. Endpoint methods return the request instead of sending it. `RequestUtil::prepareParameters` (src/Client.php:41-43), which builds the query string, is not modelled, so the wire form of a boolean is not modelled.
- The process-wide static `$client`: every new `OXR` replaces the one client that all instances share. The model keeps the application id as a constant field of each object and does not model that sharing.
- `\DateTime::createFromFormat`: PHP's lenient parser (overflowing fields roll over). It is the abstract `parse` / `isDate` parameter.
- The wall clock: `validateOHLC` reads the clock anew at each `new \DateTime(...)`. The model uses one instant, `now`, for all of them, in whole seconds. Time zones other than UTC are not modelled either, and neither are daylight-saving days, where `-1 day` and `+1 day` are not 86400 seconds.
- Microseconds: a PHP `\DateTime` also carries a fraction of a second, which `format('s')` does not show. The model keeps whole seconds for the start time as for `now`, so a start with a non-zero fraction is not representable.
- DateUtil.ValidateOHLC: "an accepted start is a whole minute" holds of the model's whole-second start times only; in PHP a start at `hh:mm:00` plus a fraction passes the seconds check, and at the boundary the strict look-back comparison and the end check can decide differently by that fraction.
- Configuration and flag values other than null, a boolean or a string (for example `['show_alternative' => 1]`): `Params.Value` has only those three kinds, so an integer, float or array configuration value is not representable.
- The `float $amount` of `convert`: its rendering as text is float formatting, so the amount is taken as its rendered string.
- The response handling (`$rates['rates'] ?? []`, `['meta']['timestamp']`, …): field access on the decoded JSON that the HTTP call returns.
- A `$currencies` argument that is neither a string nor an array (PHP's `count` would throw): only a string or a list of strings is modelled.
