/** The options of the httplog middleware (options.go): the Options record,
    Logger.Configure, which fills in defaults and lower-cases the hidden
    request headers in place, and LevelByName. */
module HttpLog {
  import opened AsciiCase

  /** time.Duration: a signed 64-bit count of nanoseconds. */
  newtype Duration = d: int | -0x8000_0000_0000_0000 <= d < 0x8000_0000_0000_0000

  const Minute: Duration := 60_000_000_000

  /** The period Configure fills in for quiet-down routes: 5 * time.Minute. */
  const DefaultQuietDownPeriod: Duration := 5 * Minute

  /** The level field name Configure fills in when none is given. */
  const DefaultLevelFieldName: string := "level"

  /** The Options record. HideRequestHeaders is a Go slice, so the logger and
      the caller share its backing array; Tags being nil or empty reads the
      same. */
  datatype Options = Options(
    levelFieldName: string,
    messageFieldName: string,
    pretty: bool,
    concise: bool,
    tags: map<string, string>,
    requestHeaders: bool,
    hideRequestHeaders: array<string>,
    responseHeaders: bool,
    quietDownRoutes: seq<string>,
    quietDownPeriod: Duration,
    timeFieldName: string,
    sourceFieldName: string)

  /** The defaults Configure guarantees, apart from the header case: a level
      field name is set, and quiet-down routes come with a non-zero period. */
  predicate HasDefaults(o: Options) {
    o.levelFieldName != "" &&
    (|o.quietDownRoutes| > 0 ==> o.quietDownPeriod != 0)
  }

  /** The options Configure stores, given the options it is called with: the
      defaults filled in and every other field as given (the header array is
      the same array; its contents are lower-cased in place by Configure). */
  function WithDefaults(o: Options): (r: Options)
    ensures HasDefaults(r)
    ensures o.levelFieldName == "" ==> r.levelFieldName == DefaultLevelFieldName
    ensures o.levelFieldName != "" ==> r.levelFieldName == o.levelFieldName
    ensures |o.quietDownRoutes| > 0 && o.quietDownPeriod == 0 ==>
              r.quietDownPeriod == DefaultQuietDownPeriod
    ensures |o.quietDownRoutes| == 0 || o.quietDownPeriod != 0 ==>
              r.quietDownPeriod == o.quietDownPeriod
    ensures r == o.(levelFieldName := r.levelFieldName, quietDownPeriod := r.quietDownPeriod)
    ensures r == o <==> HasDefaults(o)
  {
    var level := if o.levelFieldName == "" then DefaultLevelFieldName else o.levelFieldName;
    var period := if |o.quietDownRoutes| > 0 && o.quietDownPeriod == 0
                  then DefaultQuietDownPeriod else o.quietDownPeriod;
    o.(levelFieldName := level, quietDownPeriod := period)
  }

  /** Filling in the defaults a second time changes nothing. */
  lemma WithDefaultsIdempotent(o: Options)
    ensures WithDefaults(WithDefaults(o)) == WithDefaults(o)
  {
  }

  /** Every entry of a header list is lower-case. */
  predicate AllLowerCase(hs: seq<string>) {
    forall k :: 0 <= k < |hs| ==> IsLowerCase(hs[k])
  }

  /** What the Configure loop leaves in the header array: entry by entry the
      lower-case form of what was there. */
  function LowerAll(hs: seq<string>): (r: seq<string>)
    ensures |r| == |hs|
    ensures forall k :: 0 <= k < |hs| ==> r[k] == ToLower(hs[k])
    ensures AllLowerCase(r)
  {
    seq(|hs|, k requires 0 <= k < |hs| => ToLower(hs[k]))
  }

  /** Lower-casing a header list that is already lower-case changes nothing;
      in particular lower-casing twice is lower-casing once. */
  lemma LowerAllFixed(hs: seq<string>)
    requires AllLowerCase(hs)
    ensures LowerAll(hs) == hs
  {
    forall k | 0 <= k < |hs| ensures LowerAll(hs)[k] == hs[k] {
      LowerCaseFixed(hs[k]);
    }
  }

  lemma LowerAllIdempotent(hs: seq<string>)
    ensures LowerAll(LowerAll(hs)) == LowerAll(hs)
  {
    LowerAllFixed(LowerAll(hs));
  }

  /** Levels of log/slog. Only their distinctness, and LevelInfo being 0,
      matter to this model. */
  const LevelDebug: int := -4
  const LevelInfo: int := 0
  const LevelWarn: int := 4
  const LevelError: int := 8

  /** LevelByName: a case-insensitive lookup of a level name; any other name
      gives 0, which is LevelInfo. */
  function LevelByName(name: string): (r: int)
    ensures r == LevelDebug || r == LevelInfo || r == LevelWarn || r == LevelError
  {
    var upper := ToUpper(name);
    if upper == "DEBUG" then LevelDebug
    else if upper == "INFO" then LevelInfo
    else if upper == "WARN" then LevelWarn
    else if upper == "ERROR" then LevelError
    else 0
  }

  /** Each level is returned exactly for the names equal, up to case, to its
      own name; every other name, the empty one included, gives LevelInfo. */
  lemma LevelByNameRecognises(name: string)
    ensures LevelByName(name) == LevelDebug <==> EqualFold(name, "DEBUG")
    ensures LevelByName(name) == LevelWarn <==> EqualFold(name, "WARN")
    ensures LevelByName(name) == LevelError <==> EqualFold(name, "ERROR")
    ensures LevelByName(name) == LevelInfo <==>
              !EqualFold(name, "DEBUG") && !EqualFold(name, "WARN") && !EqualFold(name, "ERROR")
  {
  }

  /** Names that are equal up to case give the same level. */
  lemma LevelByNameCaseInsensitive(a: string, b: string)
    requires EqualFold(a, b)
    ensures LevelByName(a) == LevelByName(b)
  {
    EqualFoldIffSameUpper(a, b);
  }

  /** A name nobody recognises behaves like "INFO". */
  lemma LevelByNameUnknownIsInfo(name: string)
    requires !EqualFold(name, "DEBUG") && !EqualFold(name, "INFO")
    requires !EqualFold(name, "WARN") && !EqualFold(name, "ERROR")
    ensures LevelByName(name) == LevelByName("INFO") == LevelInfo
  {
  }

  /** "warn", "Warn" and "WARN" all name the warning level. */
  lemma LevelByNameWarnExamples()
    ensures LevelByName("warn") == LevelByName("Warn") == LevelByName("WARN") == LevelWarn
  {
  }

  /** The empty name and an unknown name both give LevelInfo. */
  lemma LevelByNameFallbackExamples()
    ensures LevelByName("") == LevelByName("bogus") == LevelInfo
  {
  }

  /** The httplog Logger, reduced to the options Configure stores. */
  class Logger {
    var options: Options

    /** The state Configure leaves behind: defaults filled in and every hidden
        header name lower-case. The header array is shared with whoever
        supplied it, so a later write to it by the caller can break this. */
    ghost predicate Configured()
      reads this, options.hideRequestHeaders
    {
      HasDefaults(options) && AllLowerCase(options.hideRequestHeaders[..])
    }

    /** A logger holding the given options as they are. */
    constructor (opts: Options)
      ensures options == opts
    {
      options := opts;
    }

    /** Logger.Configure: fill in the defaults, lower-case the hidden request
        headers in the caller's array, and store the result. */
    method Configure(opts: Options)
      modifies this, opts.hideRequestHeaders
      ensures options == WithDefaults(opts)
      ensures options.hideRequestHeaders == opts.hideRequestHeaders
      ensures opts.hideRequestHeaders[..] == LowerAll(old(opts.hideRequestHeaders[..]))
      ensures Configured()
      ensures old(HasDefaults(opts) && AllLowerCase(opts.hideRequestHeaders[..])) ==>
                options == opts && opts.hideRequestHeaders[..] == old(opts.hideRequestHeaders[..])
    {
      var o := opts;
      if o.levelFieldName == "" {
        o := o.(levelFieldName := DefaultLevelFieldName);
      }
      if |o.quietDownRoutes| > 0 {
        if o.quietDownPeriod == 0 {
          o := o.(quietDownPeriod := DefaultQuietDownPeriod);
        }
      }
      assert o == WithDefaults(opts);
      var headers := o.hideRequestHeaders;
      ghost var before := headers[..];
      for i := 0 to headers.Length
        invariant forall k :: 0 <= k < i ==> headers[k] == ToLower(before[k])
        invariant forall k :: i <= k < headers.Length ==> headers[k] == before[k]
      {
        headers[i] := ToLower(headers[i]);
      }
      assert headers[..] == LowerAll(before);
      options := o;
      if AllLowerCase(before) {
        LowerAllFixed(before);
      }
    }
  }
}
