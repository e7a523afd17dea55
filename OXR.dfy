/**
 * `OXR\OXR`, the public facade: configuration held in two fields, and one
 * method per endpoint. Each endpoint method returns the request it would
 * hand to the HTTP client (path and ordered query parameters) instead of
 * sending it; sending and decoding the response are not part of this model.
 */
module OXR {
  import opened Wrappers
  import opened Text
  import opened Params
  import opened Calendar
  import opened DateUtil

  /** The `$currencies` argument: one currency code, or a list of them. */
  datatype Currencies = Single(code: string) | List(codes: seq<string>)

  function CurrencyList(c: Currencies): seq<string>
  {
    match c
    case Single(code) => [code]
    case List(codes) => codes
  }

  /** The `symbols` value a request carries for these currencies, if any. */
  function SymbolsValue(c: Currencies): Option<Value>
  {
    if CurrencyList(c) == [] then None else Some(Str(Join(CurrencyList(c), ',')))
  }

  function SymbolsKey(c: Currencies): seq<string>
  {
    if CurrencyList(c) == [] then [] else ["symbols"]
  }

  /**
   * `formatCurrencyParam($currencies, $params)`: a lone string counts as a
   * one-element list; a non-empty list sets `symbols` to the comma-joined
   * codes, an empty one leaves the parameters alone.
   */
  function FormatCurrencyParam(currencies: Currencies, params: Params): (r: Params)
    ensures CurrencyList(currencies) == [] ==> r == params
    ensures CurrencyList(currencies) != [] ==>
              && Lookup(r, "symbols") == Some(Str(Join(CurrencyList(currencies), ',')))
              && (forall k :: k != "symbols" ==> Lookup(r, k) == Lookup(params, k))
              && Keys(r) == if "symbols" in Keys(params) then Keys(params) else Keys(params) + ["symbols"]
  {
    var list := CurrencyList(currencies);
    if |list| > 0 then Put(params, "symbols", Str(Join(list, ','))) else params
  }

  /** A currency code given as a string is the same as the list holding only that code. */
  lemma SingleIsOneElementList(code: string, params: Params)
    ensures FormatCurrencyParam(Single(code), params) == FormatCurrencyParam(List([code]), params)
  {
  }

  /** Whoever splits `symbols` at the commas reads back the list: same order, repeats kept. */
  lemma SymbolsReadBack(currencies: Currencies, params: Params)
    requires CurrencyList(currencies) != []
    requires forall i :: 0 <= i < |CurrencyList(currencies)| ==> ',' !in CurrencyList(currencies)[i]
    ensures Lookup(FormatCurrencyParam(currencies, params), "symbols").Some?
    ensures Split(Lookup(FormatCurrencyParam(currencies, params), "symbols").value.s, ',') == CurrencyList(currencies)
  {
    SplitJoin(CurrencyList(currencies), ',');
  }

  /** The parameters of the rate endpoints: base and flag from the configuration, then the currencies. */
  ghost predicate IsRateQuery(p: Params, lead: seq<string>, base: Value, show: Value, c: Currencies) {
    && Keys(p) == lead + ["base", "show_alternative"] + SymbolsKey(c)
    && Lookup(p, "base") == Some(base)
    && Lookup(p, "show_alternative") == Some(show)
    && Lookup(p, "symbols") == SymbolsValue(c)
  }

  /** The query of `getLatestRates` and `getHistoricalRates`: base and flag, then the currencies. */
  function RateQuery(base: Value, show: Value, c: Currencies): (p: Params)
    ensures IsRateQuery(p, [], base, show, c)
  {
    FormatCurrencyParam(c, [Entry("base", base), Entry("show_alternative", show)])
  }

  /** The query of `getTimeSeries`: both dates, the configuration, then the currencies. */
  function TimeSeriesQuery(start: string, end: string, base: Value, show: Value, c: Currencies): (p: Params)
    ensures IsRateQuery(p, ["start", "end"], base, show, c)
    ensures Lookup(p, "start") == Some(Str(start)) && Lookup(p, "end") == Some(Str(end))
  {
    var params := [Entry("start", Str(start)), Entry("end", Str(end)), Entry("base", base), Entry("show_alternative", show)];
    FourEntries(params[0], params[1], params[2], params[3]);
    var keys := ["start", "end", "base", "show_alternative"];
    assert "symbols" !in keys by {
      assert forall i :: 0 <= i < |keys| ==> keys[i] != "symbols";
    }
    assert keys == ["start", "end"] + ["base", "show_alternative"];
    FormatCurrencyParam(c, params)
  }

  /** PHP's string interpolation `"{$v}"` of a value. */
  function Interpolate(v: Value): string
  {
    match v
    case Str(s) => s
    case Bool(b) => if b then "1" else ""
    case Null => ""
  }

  /** A request the facade would send: the path below the API root and the query parameters. */
  datatype Request = Request(path: string, params: Params)

  /** The exceptions the facade itself throws, one per message. */
  datatype SdkError =
    | InvalidDate(date: string)                   // OXR.php:85
    | HistoricalDateInvalid                       // OXR.php:93
    | InvalidNamedDate(name: string, date: string) // OXR.php:125
    | NamedDateInvalid(name: string)              // OXR.php:133
    | InvalidStartTime(shown: string)             // OXR.php:191
    | StartTimeWrongType                          // OXR.php:195
    | OhlcRejected(rule: OhlcError)               // thrown by validateOHLC

  /** `isset($config[$key])`: a null entry counts as unset. */
  predicate IsSet(config: map<string, Value>, key: string) {
    key in config && config[key] != Null
  }

  /** The date left for the query in `getHistoricalRates` and `getTimeSeries` as written: only a valid string. */
  predicate AcceptedAsWritten(d: Arg, isDate: string -> bool) {
    d.TextArg? && isDate(d.text)
  }

  /** The exception `getTimeSeries` throws for a rejected date named `name`, as written. */
  function TimeSeriesError(name: string, d: Arg): SdkError
  {
    if d.TextArg? then InvalidNamedDate(name, d.text) else NamedDateInvalid(name)
  }

  /** The evidently intended date handling: a valid string as is, a `\DateTime` formatted `Y-m-d`. */
  function NormalizeDate(d: Arg, isDate: string -> bool): (r: Option<string>)
    ensures r.Some? <==> AcceptedAsWritten(d, isDate) || IsDateTime(d)
    ensures AcceptedAsWritten(d, isDate) ==> r == Some(d.text)
    ensures IsDateTime(d) ==> r == Some(FormatYmd(d.t)) && |r.value| >= 10
  {
    match d
    case TextArg(s) => if isDate(s) then Some(s) else None
    case DateTimeArg(t) => Some(FormatYmd(t))
    case OtherArg => None
  }

  /** The start time of `getOHLCRates` after parsing: the `\DateTime` to validate, or the exception. */
  function ResolveStart(a: Arg, parse: string -> Option<DateTime>): (r: Result<DateTime, SdkError>)
    ensures r.Ok? <==> IsDateTime(a) || (a.TextArg? && parse(a.text).Some?)
    ensures IsDateTime(a) ==> r == Ok(a.t)
    ensures r.Ok? && a.TextArg? ==> parse(a.text) == Some(r.value)
    ensures r.Err? ==> r.error in {InvalidStartTime(""), StartTimeWrongType}
    ensures r.Err? ==> (r.error == StartTimeWrongType <==> a.OtherArg?)
  {
    match a
    // the failed assignment in the `if` leaves `$start_time` false, which interpolates as ""
    case TextArg(s) => if parse(s).Some? then Ok(parse(s).value) else Err(InvalidStartTime(""))
    case DateTimeArg(t) => Ok(t)
    case OtherArg => Err(StartTimeWrongType)
  }

  class OXR {
    /** Handed to the process-wide client, which is not part of this model. */
    const appId: string
    var baseCurrency: Value
    var showAlternative: Value

    /** Copies `show_alternative` and `base_currency`, and nothing else, from the configuration. */
    constructor (appId: string, config: map<string, Value>)
      ensures this.appId == appId
      ensures baseCurrency == (if IsSet(config, "base_currency") then config["base_currency"] else Str("USD"))
      ensures showAlternative == (if IsSet(config, "show_alternative") then config["show_alternative"] else Bool(false))
    {
      this.appId := appId;
      baseCurrency := Str("USD");
      showAlternative := Bool(false);
      new;
      var checkConfig := ["show_alternative", "base_currency"];
      var i := 0;
      while i < |checkConfig|
        invariant 0 <= i <= |checkConfig|
        invariant showAlternative == if i > 0 then (if IsSet(config, "show_alternative") then config["show_alternative"] else Bool(false)) else Bool(false)
        invariant baseCurrency == if i > 1 then (if IsSet(config, "base_currency") then config["base_currency"] else Str("USD")) else Str("USD")
      {
        var key := checkConfig[i];
        if IsSet(config, key) {
          if key == "show_alternative" {
            showAlternative := config[key];
          } else {
            baseCurrency := config[key];
          }
        }
        i := i + 1;
      }
    }

    /** `baseCurrency($currency)`: sets the base currency only and returns the same object. */
    method BaseCurrency(currency: string) returns (self: OXR)
      modifies this
      ensures self == this
      ensures baseCurrency == Str(currency)
      ensures showAlternative == old(showAlternative)
    {
      baseCurrency := Str(currency);
      self := this;
    }

    /** `showAlternative($bool)`: sets the flag only and returns the same object. */
    method ShowAlternative(flag: Value) returns (self: OXR)
      modifies this
      ensures self == this
      ensures showAlternative == flag
      ensures baseCurrency == old(baseCurrency)
    {
      showAlternative := flag;
      self := this;
    }

    /** `getCurrencies()`: asks for the currency list, passing the flag and not the base. */
    method GetCurrencies() returns (r: Request)
      ensures r.path == "/currencies.json"
      ensures Keys(r.params) == ["show_alternative"]
      ensures Lookup(r.params, "show_alternative") == Some(showAlternative)
    {
      r := Request("/currencies.json", [Entry("show_alternative", showAlternative)]);
    }

    /** `getLatestRates($currencies)`. */
    method GetLatestRates(currencies: Currencies) returns (r: Request)
      ensures r.path == "latest.json"
      ensures IsRateQuery(r.params, [], baseCurrency, showAlternative, currencies)
    {
      r := Request("latest.json", RateQuery(baseCurrency, showAlternative, currencies));
    }

    /**
     * `getHistoricalRates($date, $currencies)` as written: the `\DateTime`
     * branch tests the undefined `$start_time`, which is null, so every
     * argument that is not a string is rejected.
     */
    method GetHistoricalRates(date: Arg, currencies: Currencies, isDate: string -> bool)
      returns (r: Result<Request, SdkError>)
      ensures r.Ok? <==> AcceptedAsWritten(date, isDate)
      ensures date.TextArg? && !isDate(date.text) ==> r == Err(InvalidDate(date.text))
      ensures !date.TextArg? ==> r == Err(HistoricalDateInvalid)
      ensures r.Ok? ==> r.value.path == "historical/" + date.text + ".json"
      ensures r.Ok? ==> IsRateQuery(r.value.params, [], baseCurrency, showAlternative, currencies)
    {
      if date.TextArg? {
        if !isDate(date.text) {
          return Err(InvalidDate(date.text));
        }
      } else {
        return Err(HistoricalDateInvalid);
      }
      r := Ok(Request("historical/" + date.text + ".json", RateQuery(baseCurrency, showAlternative, currencies)));
    }

    /** `getHistoricalRates` with the `\DateTime` branch testing `$date`, as evidently intended. */
    method GetHistoricalRatesIntended(date: Arg, currencies: Currencies, isDate: string -> bool)
      returns (r: Result<Request, SdkError>)
      ensures r.Ok? <==> NormalizeDate(date, isDate).Some?
      ensures date.DateTimeArg? ==> r.Ok? && r.value.path == "historical/" + FormatYmd(date.t) + ".json"
      ensures date.TextArg? && !isDate(date.text) ==> r == Err(InvalidDate(date.text))
      ensures date.OtherArg? ==> r == Err(HistoricalDateInvalid)
      ensures r.Ok? ==> r.value.path == "historical/" + NormalizeDate(date, isDate).value + ".json"
      ensures r.Ok? ==> IsRateQuery(r.value.params, [], baseCurrency, showAlternative, currencies)
    {
      var text: string;
      if date.TextArg? {
        if !isDate(date.text) {
          return Err(InvalidDate(date.text));
        }
        text := date.text;
      } else if IsDateTime(date) {
        text := FormatYmd(date.t);
      } else {
        return Err(HistoricalDateInvalid);
      }
      r := Ok(Request("historical/" + text + ".json", RateQuery(baseCurrency, showAlternative, currencies)));
    }

    /**
     * `getTimeSeries($start, $end, $currencies)` as written: the loop checks
     * `start`, then `end`; as in `getHistoricalRates` a `\DateTime` is
     * rejected, and the query carries the arguments themselves.
     */
    method GetTimeSeries(start: Arg, end: Arg, currencies: Currencies, isDate: string -> bool)
      returns (r: Result<Request, SdkError>)
      ensures !AcceptedAsWritten(start, isDate) ==> r == Err(TimeSeriesError("start", start))
      ensures AcceptedAsWritten(start, isDate) && !AcceptedAsWritten(end, isDate) ==>
                r == Err(TimeSeriesError("end", end))
      ensures r.Ok? <==> AcceptedAsWritten(start, isDate) && AcceptedAsWritten(end, isDate)
      ensures r.Ok? ==> r.value.path == "time-series.json"
      ensures r.Ok? ==> IsRateQuery(r.value.params, ["start", "end"], baseCurrency, showAlternative, currencies)
      ensures r.Ok? ==> Lookup(r.value.params, "start") == Some(Str(start.text))
      ensures r.Ok? ==> Lookup(r.value.params, "end") == Some(Str(end.text))
    {
      var names := ["start", "end"];
      var dates := [start, end];
      var i := 0;
      while i < |dates|
        invariant 0 <= i <= |dates|
        invariant forall j :: 0 <= j < i ==> AcceptedAsWritten(dates[j], isDate)
      {
        var date := dates[i];
        assert (i == 0 && date == start && names[i] == "start") || (i == 1 && date == end && names[i] == "end");
        assert i == 1 ==> AcceptedAsWritten(dates[0], isDate);
        if date.TextArg? {
          if !isDate(date.text) {
            return Err(InvalidNamedDate(names[i], date.text));
          }
        } else {
          return Err(NamedDateInvalid(names[i]));
        }
        i := i + 1;
      }
      assert AcceptedAsWritten(dates[0], isDate) && AcceptedAsWritten(dates[1], isDate);
      r := Ok(Request("time-series.json", TimeSeriesQuery(start.text, end.text, baseCurrency, showAlternative, currencies)));
    }

    /**
     * `getTimeSeries` as evidently intended: a `\DateTime` is accepted and
     * the query carries each date in `Y-m-d` form.
     */
    method GetTimeSeriesIntended(start: Arg, end: Arg, currencies: Currencies, isDate: string -> bool)
      returns (r: Result<Request, SdkError>)
      ensures NormalizeDate(start, isDate).None? ==> r == Err(TimeSeriesError("start", start))
      ensures NormalizeDate(start, isDate).Some? && NormalizeDate(end, isDate).None? ==>
                r == Err(TimeSeriesError("end", end))
      ensures r.Ok? <==> NormalizeDate(start, isDate).Some? && NormalizeDate(end, isDate).Some?
      ensures r.Ok? ==> r.value.path == "time-series.json"
      ensures r.Ok? ==> IsRateQuery(r.value.params, ["start", "end"], baseCurrency, showAlternative, currencies)
      ensures r.Ok? ==> Lookup(r.value.params, "start") == Some(Str(NormalizeDate(start, isDate).value))
      ensures r.Ok? ==> Lookup(r.value.params, "end") == Some(Str(NormalizeDate(end, isDate).value))
    {
      var names := ["start", "end"];
      var dates := [start, end];
      var texts: seq<string> := [];
      var i := 0;
      while i < |dates|
        invariant 0 <= i <= |dates| && |texts| == i
        invariant forall j :: 0 <= j < i ==> NormalizeDate(dates[j], isDate) == Some(texts[j])
      {
        var date := dates[i];
        assert (i == 0 && date == start && names[i] == "start") || (i == 1 && date == end && names[i] == "end");
        if date.TextArg? {
          if !isDate(date.text) {
            return Err(InvalidNamedDate(names[i], date.text));
          }
          texts := texts + [date.text];
        } else if IsDateTime(date) {
          texts := texts + [FormatYmd(date.t)];
        } else {
          return Err(NamedDateInvalid(names[i]));
        }
        i := i + 1;
      }
      r := Ok(Request("time-series.json", TimeSeriesQuery(texts[0], texts[1], baseCurrency, showAlternative, currencies)));
    }

    /**
     * `convert($amount, $to, $from)`: the path carries amount, source and
     * target currency; a `$from` that is not a string means the base
     * currency. The amount is its already-rendered text.
     */
    method Convert(amount: string, to: string, from: Value) returns (r: Request)
      ensures r.params == []
      ensures var source := if from.Str? then from.s else Interpolate(baseCurrency);
              && r.path == "convert/" + amount + "/" + source + "/" + to
              && ('/' !in amount && '/' !in source && '/' !in to ==>
                    Split(r.path, '/') == ["convert", amount, source, to])
    {
      var source := from;
      if !source.Str? {
        source := baseCurrency;
      }
      var text := Interpolate(source);
      r := Request("convert/" + amount + "/" + text + "/" + to, []);
      assert Join([text, to], '/') == text + "/" + to;
      assert Join([amount, text, to], '/') == amount + "/" + text + "/" + to;
      assert r.path == Join(["convert", amount, text, to], '/');
      if '/' !in amount && '/' !in text && '/' !in to {
        SplitJoin(["convert", amount, text, to], '/');
      }
    }

    /**
     * `getOHLCRates($start_time, $period)`: parse or accept the start time,
     * validate it with the period, and only then build the query.
     * `parse` stands for `createFromFormat` with the start-time layout.
     */
    method GetOHLCRates(startTime: Arg, period: string, parse: string -> Option<DateTime>, now: DateTime)
      returns (r: Result<Request, SdkError>)
      ensures ResolveStart(startTime, parse).Err? ==> r == Err(ResolveStart(startTime, parse).error)
      ensures ResolveStart(startTime, parse).Ok? ==>
                var start := ResolveStart(startTime, parse).value;
                && (ValidateOHLC(start, period, now).Fail? ==>
                      r == Err(OhlcRejected(ValidateOHLC(start, period, now).error)))
                && (ValidateOHLC(start, period, now).Pass? ==>
                      && r.Ok?
                      && r.value.path == "ohlc.json"
                      && Keys(r.value.params) == ["start_time", "period", "base", "show_alternative"]
                      && Lookup(r.value.params, "start_time") == Some(Str(FormatStartTime(start)))
                      && Lookup(r.value.params, "period") == Some(Str(period))
                      && Lookup(r.value.params, "base") == Some(baseCurrency)
                      && Lookup(r.value.params, "show_alternative") == Some(showAlternative))
      ensures r.Ok? ==> ResolveStart(startTime, parse).Ok?
                        && Instant(ResolveStart(startTime, parse).value) < Instant(now)
    {
      var start: DateTime;
      if startTime.TextArg? {
        var parsed := parse(startTime.text);
        if parsed.None? {
          return Err(InvalidStartTime(""));
        }
        start := parsed.value;
      } else if !IsDateTime(startTime) {
        return Err(StartTimeWrongType);
      } else {
        start := startTime.t;
      }
      var formattedStartTime := FormatStartTime(start);
      var verdict := ValidateOHLC(start, period, now);
      if verdict.Fail? {
        return Err(OhlcRejected(verdict.error));
      }
      var params := [
        Entry("start_time", Str(formattedStartTime)), Entry("period", Str(period)),
        Entry("base", baseCurrency), Entry("show_alternative", showAlternative)
      ];
      FourEntries(params[0], params[1], params[2], params[3]);
      r := Ok(Request("ohlc.json", params));
    }

    /** `getUsage()`: no query parameters of its own. */
    method GetUsage() returns (r: Request)
      ensures r.path == "usage.json" && r.params == []
    {
      r := Request("usage.json", []);
    }
  }
}
