# httplog options, modelled in Dafny

This project models the options of the httplog HTTP logging middleware
(`options.go`):

- the `Options` record: level, message, time and source field names, the
  pretty and concise flags, the static tags, the request- and
  response-header flags, the extra request headers to hide, the quiet-down
  routes and the quiet-down period;
- `Logger.Configure`, which fills in the level field name (`"level"`) when it
  is empty, fills in a quiet-down period of 5 minutes when quiet-down routes
  are given without a period, lower-cases every hidden request header inside
  the caller's own array, and stores the result on the logger;
- `LevelByName`, the case-insensitive lookup of `DEBUG`, `INFO`, `WARN` and
  `ERROR`, where any other name gives level 0, which is the info level.

Files:

- `ascii_case.dfy` (module `AsciiCase`): `strings.ToLower` and
  `strings.ToUpper` restricted to ASCII letters, and case-insensitive
  equality (`EqualFold`), defined character by character as an independent
  reference for the lookup.
- `options.dfy` (module `HttpLog`): `time.Duration` as a signed 64-bit
  newtype of nanoseconds (5 minutes is `300000000000`); `Options` as a
  datatype whose `hideRequestHeaders` is an `array<string>`, because a Go
  slice shares its backing array with the caller; `WithDefaults`, the value
  `Configure` stores; `LowerAll`, what its loop leaves in the header array;
  the `Logger` class with its `options` field and the imperative `Configure`
  method; `LevelByName` and its lemmas.

`Configure` is proved against these functions: it stores exactly
`WithDefaults(opts)` (same header array, every field other than the level
field name and the quiet-down period copied as given), rewrites the caller's
array to `LowerAll` of its old contents, leaves the logger in the
`Configured()` state (defaults present, every hidden header lower-case), and
changes nothing when called with options that are already in that state,
which is why configuring twice is the same as configuring once.

Points where `Configure` does less than its field comments or a reader might
expect:

- `Configure` does not fill in a message field name; an empty one stays
  empty (options.go:73-93, and the field comment at options.go:26 speaks of a
  default that is not applied here).
- The quiet-down period is filled in only when it is exactly 0. A negative
  period with quiet-down routes is stored as given, so the stored period is
  non-zero, not necessarily positive.
- Only the extra hidden headers are lower-cased; the built-in sensitive
  headers and the quiet-down state are not part of `options.go`.

## Model

| member | source | states |
|---|---|---|
| AsciiCase.ToLower | options.go:89 | same length; each character lower-cased when it is an ASCII capital and kept otherwise; the result holds no capital and equals its input up to case |
| AsciiCase.ToUpper | options.go:96 | same length; each ASCII small letter upper-cased and every other character kept; the result holds no small letter and equals its input up to case |
| AsciiCase.LowerCaseFixed | options.go:89 | a string with no capital letter is its own lower-case form |
| AsciiCase.ToLowerIdempotent | options.go:89 | lower-casing twice equals lower-casing once |
| AsciiCase.CharFold | options.go:96 | two characters have the same upper-case form exactly when they have the same lower-case form |
| AsciiCase.EqualFoldIffSameUpper | options.go:96 | two strings are equal up to case exactly when their upper-case forms are equal, in both directions |
| AsciiCase.ToUpperOfToLower | options.go:96 | upper-casing a lower-cased string gives the upper-case form of the original |
| HttpLog.WithDefaults | options.go:77-85 | the level field name becomes "level" when empty and is kept otherwise; the period becomes 5 minutes exactly when routes are given and the period is 0, and is kept otherwise (so no routes and period 0 stays 0); every other field, including an empty message field name and the header array, is unchanged; the result always has the defaults, and it equals the input exactly when the input already has them |
| HttpLog.WithDefaultsIdempotent | options.go:77-85 | filling in the defaults twice equals filling them in once |
| HttpLog.LowerAll | options.go:87-90 | same number of headers; entry i is the lower-case form of entry i; every entry is lower-case |
| HttpLog.LowerAllFixed | options.go:87-90 | a header list already all lower-case is left unchanged |
| HttpLog.LowerAllIdempotent | options.go:87-90 | lower-casing the header list twice equals doing it once |
| HttpLog.Logger.Configure | options.go:73-93 | the stored options are WithDefaults of the argument and refer to the caller's header array; that array now holds LowerAll of its old contents, in place; the logger is Configured (level field name set, routes imply a non-zero period, all hidden headers lower-case); options already in that state are stored as given and the array is left as it was (idempotence) |
| HttpLog.LevelByName | options.go:95-108 | the result is always one of the debug, info, warn and error levels |
| HttpLog.LevelByNameRecognises | options.go:96-107 | debug, warn and error are returned exactly for names equal up to case to "DEBUG", "WARN" and "ERROR"; every other name, the empty one included, gives the info level (0, options.go:74-75) |
| HttpLog.LevelByNameCaseInsensitive | options.go:95-96 | two names equal up to case give the same level |
| HttpLog.LevelByNameUnknownIsInfo | options.go:105-106 | a name matching none of the four level names gives the same level as "INFO", which is level 0 |
| HttpLog.LevelByNameWarnExamples | options.go:101-102 | "warn", "Warn" and "WARN" all give the warning level |
| HttpLog.LevelByNameFallbackExamples | options.go:105-106 | "" and "bogus" give the info level |

## Left out

- Unicode case mapping: `strings.ToLower` and `strings.ToUpper` are modelled
  on ASCII letters only and leave every other character unchanged. Go maps
  more (for instance `ToUpper` turns a dotless i into `I`); for
  `LevelByName` that makes no difference, since every name it could add
  matches only "INFO", whose level is the fallback anyway, but hidden header
  names with non-ASCII capitals are lower-cased by Go and not by this model.
- The numeric values of slog's levels: debug, warn and error are taken as
  -4, 4 and 8, as in log/slog, but the proofs use only that the four are
  distinct and that the info level is 0.
- The comment at options.go:71-72 says `Configure` also affects slog's
  global logger; that lives in code outside `options.go` and is not part of
  this model. The `Logger` class holds only the options field.
- `defaultOptions` (options.go:9-18) is a static value `Configure` never
  reads; it is not modelled.
- Quiet-down suppression per route, filtering of headers against the
  sensitive set, tag merging and the assembly of log records do not appear
  in `options.go` and are not modelled, nor is any concurrency around them.
- Go's nil slice and nil map are modelled as an empty array and an empty
  map, which read the same.
- Go strings are byte strings, and `strings.ToLower` replaces bytes that are
  not valid UTF-8 with U+FFFD; a Dafny `string` holds only Unicode scalar
  values, so such header names have no counterpart in this model.
- A Go slice can be a window onto a larger backing array, and `Configure`
  then rewrites only that window; `hideRequestHeaders` is modelled as a whole
  `array<string>`, so this case is not captured. The caller's `Tags` map and
  `QuietDownRoutes` slice also stay shared with the stored options in Go;
  here they are values (`map`, `seq`), so later changes by the caller to
  them are not captured either.
- The `Logger` constructor only stores the options it is given; Go's
  zero-value `Logger` has no counterpart in `options.go`.
