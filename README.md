# Vent command options: a Dafny model

This project models the option handling of Burrow's `vent start` command,
`cmd/burrow/commands/vent.go`:

- `parseRequestRate` turns `<requests>/<time base>` into a request count and
  a duration. It relies on Go's `strings.Split` and `strconv.ParseInt`, and
  both are modelled here.
- `parseDuration` maps the empty option to a zero duration.
- `logConfig` picks the logging configuration by level name.
- The `Before` hook of `vent start` copies the command-line options into the
  consumer configuration one field at a time. It parses the rate, the two
  durations and every `--watch` address, ORs the block and transaction flags
  into the spec options, and ends the process with `Fatalf` at the first
  option that does not parse.

The modules are:

- `Wrappers` (`wrappers.dfy`): `Option`, `Result`, and `Returned`. `Returned`
  is Go's `(value, error)` pair, in which the value is present even when the
  error is set.
- `GoStrings` (`go_strings.dfy`): `strings.Split` for a one-character
  separator, with `strings.Join` as its inverse and `strings.Count`.
- `GoStrconv` (`go_strconv.dfy`): `strconv.ParseInt(s, 10, 0)` on a 64-bit
  platform. It is modelled as Go's library implements it: an optional sign,
  then an unsigned scan that stops at the first non-digit (`ErrSyntax`) or
  the first overflow of 64 bits (`ErrRange`), then the signed cutoff. Its
  contract is stated against an independent decimal reading of the text.
  `FormatInt` is its inverse.
- `VentOptions` (`vent_options.dfy`): `parseDuration`, `parseRequestRate`,
  the log levels and `logConfig`.
- `VentStart` (`vent_start.dfy`): the hook, with these parts:
  - `VentConfig` is a class whose fields are the configuration fields the
    hook assigns. The watch addresses are an `array`, because the hook fills
    a slice in place.
  - `ApplyStartOptions` is the hook. It runs stage methods in source order and
    returns the reason it would call `Fatalf`.
  - The method's contract ties the new field values to the pure function
    `Configure` of the old ones. `StartFatal` gives the stopping reason as a
    function of the options.
  - `Configure` itself states the fields the hook assigns before its first
    parse. The lemmas `ConfigureRate`, `ConfigureBackoff`, `ConfigureWatch`
    and `ConfigureSpec` state what each later field holds, given which of the
    parses succeed.

Go's `time.ParseDuration` and `crypto.AddressFromHexString` are library
code whose bodies are not part of this model. Every member that uses one of
them takes it as a function parameter (`DurationParser`, `AddressParser`),
so what is proved holds for any parser of that shape.

## Model

| member | source | states |
|---|---|---|
| `VentOptions.ParseRequestRate` | cmd/burrow/commands/vent.go:279-296 | Every failure returns zero requests and a zero time base. The empty rate is the unlimited rate (0, 0) with no error. A non-empty rate without exactly one '/' is a not-a-ratio error. A successful count lies in the 64-bit `int` range. |
| `VentOptions.RatioOutcome` | cmd/burrow/commands/vent.go:283-295 | For `a/b` with no '/' in `a` or `b`: a count that is not a base-10 integer in range gives the `ParseInt` error. Otherwise a time base that does not parse gives the duration error. Otherwise the result is (signed decimal value of `a`, parsed duration of `b`) with no error. |
| `VentOptions.RateRoundTrip` | cmd/burrow/commands/vent.go:279-296 | For any `int` and any duration text without '/' that parses, the formatted count, then '/', then the text parses back to exactly that count and that duration. |
| `VentOptions.WithoutSeparatorNotARatio` | cmd/burrow/commands/vent.go:283-286 | "1000" splits into one part, so it is not a ratio and the results are zeroed. |
| `VentOptions.TwoSeparatorsNotARatio` | cmd/burrow/commands/vent.go:283-286 | "1/2/3" splits into three parts, so it is not a ratio and the results are zeroed. |
| `VentOptions.SeparatorAloneBadRequests` | cmd/burrow/commands/vent.go:287-290 | "/" has an empty count, which `ParseInt` rejects with a syntax error, so the results are zeroed. |
| `VentOptions.DailyRate` | cmd/burrow/commands/vent.go:61 | The option's help example "1000/24h" gives 1000 requests per parsed "24h", for any parser that accepts "24h". |
| `VentOptions.ParseDuration` | cmd/burrow/commands/vent.go:272-277 | The empty string is (0, no error). Any other string gets exactly the library parser's answer. It fails iff the string is non-empty and the parser fails. |
| `VentOptions.LogConfig` | cmd/burrow/commands/vent.go:34-44 | The result is `None()` iff the level is "none", `WithTrace()` iff it is "trace", and the default iff it is neither. |
| `VentOptions.LevelName` | cmd/burrow/commands/vent.go:26-32 | Each configuration is selected by one of the three documented level names. |
| `GoStrings.Count` | cmd/burrow/commands/vent.go:284 | The count of separators is at most the length, and it is zero iff the separator does not occur. |
| `GoStrings.Split` | cmd/burrow/commands/vent.go:283 | A split has one more part than there are separators, and no part contains the separator. |
| `GoStrings.JoinSplit` | cmd/burrow/commands/vent.go:283 | Joining the parts of a split with the separator gives back the original string. |
| `GoStrings.SplitJoin` | cmd/burrow/commands/vent.go:283 | Splitting the join of a non-empty list of separator-free parts gives back the list. |
| `GoStrings.SplitAroundSeparator` | cmd/burrow/commands/vent.go:283-284 | A string with exactly one separator splits into the two parts on either side of it. |
| `GoStrconv.ScanDigits` | cmd/burrow/commands/vent.go:287 | The unsigned scan succeeds iff every character is a digit and the running value stays within the bound; it then returns that value. All digits but too large gives a range error. A syntax error means a non-digit is present. |
| `GoStrconv.ParseUint` | cmd/burrow/commands/vent.go:287 | Succeeds iff the text is a non-empty run of digits whose decimal value fits 64 unsigned bits, and returns that value. The two failures are distinguished as range and syntax errors. |
| `GoStrconv.ParseInt` | cmd/burrow/commands/vent.go:287 | Succeeds iff the text is an optional sign followed by digits whose signed value lies in [-2^63, 2^63-1], and returns that value. A well-formed integer out of range is a range error. A syntax error means the text is not a well-formed integer. |
| `GoStrconv.FormatIntRoundTrip` | cmd/burrow/commands/vent.go:287 | `ParseInt(FormatInt(v)) == Ok(v)` for every 64-bit `v`. |
| `VentStart.ToUint64` | cmd/burrow/commands/vent.go:82 | Go's `uint64(int)` returns a 64-bit unsigned value congruent to the input modulo 2^64. It equals the input iff the input is non-negative. |
| `VentStart.Zeros` | cmd/burrow/commands/vent.go:81 | `make` gives a slice of the requested length whose every slot is the zero address. |
| `VentStart.WithTableFlags` | cmd/burrow/commands/vent.go:101-106 | The block bit is set iff `--blocks` was given or the bit was already set. The same holds for the transaction bit and `--txs`. Every other bit is unchanged. |
| `VentStart.FirstBadAddress` | cmd/burrow/commands/vent.go:93-98 | Gives the first watch value that does not parse: every earlier value parses, and the result is none iff every value parses. |
| `VentStart.FirstBadAddressIs` | cmd/burrow/commands/vent.go:93-98 | A failing value whose predecessors all parse is the one `FirstBadAddress` returns. |
| `VentStart.Filled` | cmd/burrow/commands/vent.go:93-98 | After `n` steps of the loop, slot `k < n` holds the parse of value `k` and every later slot keeps its earlier content. |
| `VentStart.FillWatchAddresses` | cmd/burrow/commands/vent.go:93-98 | The in-place loop writes the parse of value `i` into slot `i` and stops right after the first failure, which it reports. The later slots are untouched. |
| `VentStart.StartFatal` | cmd/burrow/commands/vent.go:83-111 | The hook runs to its end iff the rate, the backoff, every watch address and the announce period all parse. It stops on the rate iff the rate fails; on the backoff iff the rate parses and the backoff fails; on a watch value iff both parse and some watch value fails; on the announce period iff everything before it parses and it fails. Each stop carries the failing parse's error; a watch stop carries the first failing index, whose predecessors all parse, and an announce stop carries the option's text. |
| `VentStart.Connect` | cmd/burrow/commands/vent.go:75-82 | The database, chain and HTTP fields take their options, the watch slice has one zero slot per `--watch` value, and the minimum height is converted. Every other field keeps its prior value. |
| `VentStart.Configure` | cmd/burrow/commands/vent.go:73-112 | Whatever happens later, the database, chain and HTTP fields and the minimum height hold their options, and the watch slice has one slot per `--watch` value. |
| `VentStart.ConfigureRate` | cmd/burrow/commands/vent.go:83-86 | The rate results are assigned even when they fail to parse. A failing rate leaves 0 requests and a 0 time base. |
| `VentStart.ConfigureBackoff` | cmd/burrow/commands/vent.go:87-91 | The retry count and the backoff are assigned iff the rate parsed. Otherwise they keep their prior values. |
| `VentStart.ConfigureWatch` | cmd/burrow/commands/vent.go:92-98 | If the rate and the backoff parse, the batch size is assigned and slot `i` holds the parse of value `i` up to and including the first failing value, and the zero address after it. If the hook stops earlier, the batch size keeps its prior value and every slot holds the zero address. |
| `VentStart.ConfigureSpec` | cmd/burrow/commands/vent.go:99-111 | If the rate, the backoff and every watch address parse, the ABI and spec sources and the announce period are assigned and the flags are ORed in as asked. Otherwise all four keep their prior values. |
| `VentStart.VentConfig.constructor` | cmd/burrow/commands/vent.go:52 | A configuration with every field at its zero value. |
| `VentStart.VentConfig.ApplyStartOptions` | cmd/burrow/commands/vent.go:73-112 | Returns the `Fatalf` reason as `StartFatal` gives it. The watch slice is freshly allocated. The new fields are `Configure` of the old ones. |
| `VentStart.VentConfig.SetConnection` | cmd/burrow/commands/vent.go:76-82 | The plain copies, a fresh zeroed watch slice and the converted minimum height. Nothing else changes. |
| `VentStart.VentConfig.SetDatabase` | cmd/burrow/commands/vent.go:76-78 | Sets the adapter, URL and schema fields only. |
| `VentStart.VentConfig.SetEndpoints` | cmd/burrow/commands/vent.go:79-80 | Sets the chain and HTTP listen addresses only. |
| `VentStart.VentConfig.AllocateWatchAddresses` | cmd/burrow/commands/vent.go:81 | The watch field becomes a fresh array of `n` zero addresses. |
| `VentStart.VentConfig.SetRequestRate` | cmd/burrow/commands/vent.go:83-86 | Assigns both rate results even on failure, and reports the rate error. |
| `VentStart.VentConfig.SetBackoff` | cmd/burrow/commands/vent.go:87-91 | Assigns the retry count and the backoff even on failure, and reports the backoff error. |
| `VentStart.VentConfig.SetWatchAddresses` | cmd/burrow/commands/vent.go:92-98 | Assigns the batch size, fills the slots as `Filled` describes, and reports the first failing address. |
| `VentStart.VentConfig.SetSources` | cmd/burrow/commands/vent.go:99-100 | Sets the ABI and spec source lists only. |
| `VentStart.VentConfig.SetTableFlags` | cmd/burrow/commands/vent.go:101-106 | The spec options become `WithTableFlags` of their old value. |
| `VentStart.VentConfig.SetSpecAndAnnounce` | cmd/burrow/commands/vent.go:99-111 | Assigns the sources, the flags and the announce period even on failure, and reports the announce error together with the option text. |

## Left out

- Goroutines, signal handling and the `WaitGroup` of the `Action` (vent.go:139-175) are left out, because they are concurrency and I/O.
- `service.NewConsumer`, `NewServer`, `Run` and the restore path (vent.go:128-132, 151, 162, 240-266) are left out. They are calls into code that is not part of this model.
- `sqlsol.SpecLoader`, the ABI and spec file reading and the JSON schema output (vent.go:134, 182, 192-205) are left out, because they are file I/O.
- The parsing of the restore time with `time.Parse` (vent.go:224-233) is left out. It is opaque library code.
- Logging output, and building a logger from the chosen `logconfig` value (vent.go:122), are left out. Only the choice of configuration, `LogConfig`, is modelled.
- The mow.cli option registration and its defaults (vent.go:52-71, 114-119) are not modelled. `ApplyStartOptions` is specified for any prior configuration.
- VentStart.VentConfig.constructor: builds the zero configuration rather than the defaults of `config.DefaultVentConfig`, which is not part of this model.
- The bodies of `time.ParseDuration` and `crypto.AddressFromHexString` are not modelled. They are parameters, and their results are taken as 64-bit durations and 20-byte addresses.
- The text of the error messages is left out. The model keeps the kind of the error and its cause, and it records the index of the failing `--watch` value, which the Go message does not print.
- `Fatalf` ends the process. The model returns its reason instead, and it leaves the fields the hook had not yet reached unchanged.
- Go's `int` is taken as 64 bits wide. `strconv.IntSize` is fixed at 64.
- The values of `sqlsol.Block` and `sqlsol.Tx` are taken as the single bits 1 and 2, because `sqlsol` is not part of this model. The proofs only use the fact that they are distinct single bits.
