/**
 * The option parsers of the `vent` command: the request-rate ratio, the
 * optional duration, and the choice of logging configuration by level name.
 *
 * Go's `time.ParseDuration` is library code whose body is not part of this
 * model; every function that uses it takes it as a parameter, and what is
 * proved holds for any such parser.
 */
module VentOptions {
  import opened Wrappers
  import opened GoStrings
  import opened GoStrconv

  /** Go's `time.Duration`: a signed 64-bit count of nanoseconds. */
  type Duration = d: int | MinInt64 <= d <= MaxInt64

  /** A duration parser in the shape of Go's `time.ParseDuration`. */
  type DurationParser = string -> Returned<Duration, string>

  /**
   * `parseDuration`: the empty option means a zero duration; any other text
   * gets exactly the library parser's answer.
   */
  function ParseDuration(duration: string, parse: DurationParser): (r: Returned<Duration, string>)
    ensures duration == "" ==> r == Returned(0, None)
    ensures duration != "" ==> r == parse(duration)
    ensures r.Failed() <==> duration != "" && parse(duration).Failed()
  {
    if duration == "" then Returned(0, None) else parse(duration)
  }

  /** The two results of `parseRequestRate`; both zero means "no limit". */
  datatype RequestRate = RequestRate(maxRequests: int, timeBase: Duration)

  const Unlimited := RequestRate(0, 0)

  /** Why `parseRequestRate` refused its argument. */
  datatype RateError =
    | NotARatio(rate: string)     // not exactly one '/'
    | BadRequests(numError: NumError) // text before '/' is no base-10 int
    | BadTimeBase(message: string)  // text after '/' is no duration

  /**
   * `parseRequestRate`: `<requests>/<time base>`, e.g. `1000/24h`. Every
   * failure comes with zeroed results; the empty string is the unlimited
   * rate; a string without exactly one '/' is not a ratio; a successful
   * request count lies in the 64-bit `int` range.
   */
  function ParseRequestRate(rate: string, parse: DurationParser): (r: Returned<RequestRate, RateError>)
    ensures r.Failed() ==> r.value == Unlimited
    ensures rate == "" ==> r == Returned(Unlimited, None)
    ensures rate != "" && Count(rate, '/') != 1 ==> r == Returned(Unlimited, Some(NotARatio(rate)))
    ensures !r.Failed() ==> InIntRange(r.value.maxRequests)
  {
    if rate == "" then Returned(Unlimited, None)
    else
      var ratio := Split(rate, '/');
      if |ratio| != 2 then Returned(Unlimited, Some(NotARatio(rate)))
      else
        match ParseInt(ratio[0])
        case Err(e) => Returned(Unlimited, Some(BadRequests(e)))
        case Ok(requests) =>
          var timeBase := parse(ratio[1]);
          if timeBase.Failed() then Returned(Unlimited, Some(BadTimeBase(timeBase.err.value)))
          else Returned(RequestRate(requests, timeBase.value), None)
  }

  /** The text before the '/' is accepted as the request count. */
  predicate IsRequestCount(s: string)
  {
    IsDecimalInteger(s) && InIntRange(SignedValue(s))
  }

  /**
   * The outcome for any string with exactly one '/', `a/b`: the count is
   * checked first, then the time base, and on success the results are the
   * signed decimal value of `a` and the parsed duration of `b`.
   */
  lemma RatioOutcome(a: string, b: string, parse: DurationParser)
    requires '/' !in a && '/' !in b
    ensures var r := ParseRequestRate(a + "/" + b, parse);
      && (!IsRequestCount(a) ==> r == Returned(Unlimited, Some(BadRequests(ParseInt(a).error))))
      && (IsRequestCount(a) && parse(b).Failed() ==> r == Returned(Unlimited, Some(BadTimeBase(parse(b).err.value))))
      && (IsRequestCount(a) && !parse(b).Failed() ==> r == Returned(RequestRate(SignedValue(a), parse(b).value), None))
  {
    SplitAroundSeparator(a, b, '/');
  }

  /** A rate written as a formatted `int`, a '/', and a duration text parses back to those two values. */
  lemma RateRoundTrip(requests: int, timeBase: string, parse: DurationParser)
    requires InIntRange(requests)
    requires '/' !in timeBase && !parse(timeBase).Failed()
    ensures ParseRequestRate(FormatInt(requests) + "/" + timeBase, parse)
         == Returned(RequestRate(requests, parse(timeBase).value), None)
  {
    FormatIntRoundTrip(requests);
    var digits := FormatInt(requests);
    assert '/' !in digits by {
      forall i | 0 <= i < |digits| ensures digits[i] != '/' {
        if i > 0 && Magnitude(digits) != digits { assert digits[i] == Magnitude(digits)[i - 1]; }
      }
    }
    RatioOutcome(digits, timeBase, parse);
  }

  lemma WithoutSeparatorNotARatio(parse: DurationParser)
    ensures ParseRequestRate("1000", parse) == Returned(Unlimited, Some(NotARatio("1000")))
  {
  }

  lemma TwoSeparatorsNotARatio(parse: DurationParser)
    ensures ParseRequestRate("1/2/3", parse) == Returned(Unlimited, Some(NotARatio("1/2/3")))
  {
  }

  /** "/" has an empty request count, which is a syntax error. */
  lemma SeparatorAloneBadRequests(parse: DurationParser)
    ensures ParseRequestRate("/", parse) == Returned(Unlimited, Some(BadRequests(ErrSyntax)))
  {
    RatioOutcome("", "", parse);
  }

  /** The example of the option's help text: 1000 requests per 24 hours. */
  lemma DailyRate(parse: DurationParser)
    requires !parse("24h").Failed()
    ensures ParseRequestRate("1000/24h", parse) == Returned(RequestRate(1000, parse("24h").value), None)
  {
    ThousandIsRequestCount();
    RatioOutcome("1000", "24h", parse);
    assert "1000" + "/" + "24h" == "1000/24h";
  }

  lemma ThousandIsRequestCount()
    ensures IsRequestCount("1000") && SignedValue("1000") == 1000
  {
    assert "1000"[..3] == "100" && "100"[..2] == "10" && "10"[..1] == "1" && "1"[..0] == "";
  }

  /** Go's `LogLevel` strings. */
  type LogLevel = string

  const LogLevelNone: LogLevel := "none"
  const LogLevelInfo: LogLevel := "info"
  const LogLevelTrace: LogLevel := "trace"

  /**
   * Which `logconfig` value a logger is built from: the default of
   * `logconfig.New()`, its `None()` or its `WithTrace()` variant.
   */
  datatype LoggingConfig = DefaultLogging | NoLogging | TraceLogging

  /**
   * `logConfig`: "none" silences, "trace" traces, and every other level
   * name, "info" and unknown names alike, keeps the default.
   */
  function LogConfig(level: LogLevel): (c: LoggingConfig)
    ensures c == NoLogging <==> level == LogLevelNone
    ensures c == TraceLogging <==> level == LogLevelTrace
    ensures c == DefaultLogging <==> level != LogLevelNone && level != LogLevelTrace
  {
    match level
    case "none" => NoLogging
    case "trace" => TraceLogging
    case _ => DefaultLogging
  }

  /** The documented level name that selects each configuration. */
  function LevelName(c: LoggingConfig): (level: LogLevel)
    ensures LogConfig(level) == c
    ensures level in {LogLevelNone, LogLevelInfo, LogLevelTrace}
  {
    match c
    case DefaultLogging => LogLevelInfo
    case NoLogging => LogLevelNone
    case TraceLogging => LogLevelTrace
  }
}
