/**
 * The `Before` hook of `vent start`: it copies the parsed command-line
 * options into the consumer configuration one field after another, parses
 * the rate, the durations and the watch addresses, ORs the block and
 * transaction table flags into the spec options, and stops the process at
 * the first option that does not parse.
 *
 * `crypto.AddressFromHexString` is library code whose body is not part of
 * this model; the hook takes it, like the duration parser, as a parameter.
 */
module VentStart {
  import opened Wrappers
  import opened GoStrconv
  import opened VentOptions

  /** Go's `int`, 64 bits wide here, and `uint64`. */
  type Int = x: int | MinInt64 <= x <= MaxInt64
  type Uint64 = x: nat | x <= MaxUint64

  /**
   * Go's `uint64(x)` conversion of an `int`: the unsigned number with the
   * same 64 bits, that is the one congruent to `x` modulo 2^64.
   */
  function ToUint64(x: Int): (r: Uint64)
    ensures (r - x) % (MaxUint64 + 1) == 0
    ensures x >= 0 <==> r == x
  {
    if x >= 0 then x else x + MaxUint64 + 1
  }

  const AddressLength := 20

  /** `crypto.Address`: twenty bytes. */
  type Address = b: seq<bv8> | |b| == AddressLength witness [0, 0, 0, 0, 0, 0, 0, 0, 0, 0, 0, 0, 0, 0, 0, 0, 0, 0, 0, 0]

  /** The value `make` puts in each slot of a fresh address slice. */
  const ZeroAddress: Address := [0, 0, 0, 0, 0, 0, 0, 0, 0, 0, 0, 0, 0, 0, 0, 0, 0, 0, 0, 0]

  /** A fresh slice of `n` addresses, as `make` returns it. */
  function Zeros(n: nat): (r: seq<Address>)
    ensures |r| == n && forall k :: 0 <= k < n ==> r[k] == ZeroAddress
  {
    if n == 0 then [] else Zeros(n - 1) + [ZeroAddress]
  }

  /** An address parser in the shape of `crypto.AddressFromHexString`. */
  type AddressParser = string -> Returned<Address, string>

  /**
   * A call of the address parser on one `--watch` value. Applying the
   * parameter through this function keeps the call independent of the heap
   * in the method contracts and loop invariants that mention it.
   */
  function AddressFromHex(hex: string, parse: AddressParser): Returned<Address, string>
  {
    parse(hex)
  }

  /** `sqlsol.SpecOpt`: a set of single-bit flags. */
  type SpecOpt = bv8

  const Block: SpecOpt := 1
  const Tx: SpecOpt := 2

  predicate Has(opt: SpecOpt, flag: SpecOpt) { opt & flag == flag }

  /**
   * The spec options after `--blocks` and `--txs` are ORed in: each flag is
   * present iff its option was given or it was present before, and every
   * other bit is as it was.
   */
  function WithTableFlags(opt: SpecOpt, blocks: bool, txs: bool): (r: SpecOpt)
    ensures Has(r, Block) <==> blocks || Has(opt, Block)
    ensures Has(r, Tx) <==> txs || Has(opt, Tx)
    ensures r & !(Block | Tx) == opt & !(Block | Tx)
  {
    var withBlock := if blocks then opt | Block else opt;
    if txs then withBlock | Tx else withBlock
  }

  /** The values of the options of `vent start`, as mow.cli hands them over. */
  datatype StartOptions = StartOptions(
    dbAdapter: string,
    dbURL: string,
    dbSchema: string,
    chainAddr: string,
    httpAddr: string,
    watch: seq<string>,
    minimumHeight: Int,
    maxRetries: Int,
    maxRequestRate: string,
    backoff: string,
    batchSize: Int,
    abi: seq<string>,
    spec: seq<string>,
    blocks: bool,
    txs: bool,
    announceEvery: string)

  /** The reason the hook calls `Fatalf`, which ends the process. */
  datatype Fatal =
    | RequestRateFatal(rateError: RateError)
    | BackoffFatal(message: string)
    | WatchFatal(index: nat, message: string)
    | AnnounceFatal(option: string, message: string)

  /**
   * The first watch value the address parser rejects, if any: every value
   * before it parses, and when there is none every value parses.
   */
  function FirstBadAddress(watch: seq<string>, parse: AddressParser): (r: Option<nat>)
    ensures r.Some? ==> r.value < |watch| && AddressFromHex(watch[r.value], parse).Failed()
    ensures r.Some? ==> forall i :: 0 <= i < r.value ==> !AddressFromHex(watch[i], parse).Failed()
    ensures r.None? <==> forall i :: 0 <= i < |watch| ==> !AddressFromHex(watch[i], parse).Failed()
  {
    if watch == [] then None
    else if AddressFromHex(watch[0], parse).Failed() then Some(0)
    else
      match FirstBadAddress(watch[1..], parse)
      case None => None
      case Some(k) => Some(k + 1)
  }

  /**
   * Where the hook stops: the request rate, then the backoff duration, then
   * the watch addresses in order, then the announce period. It runs to the
   * end exactly when all of them parse.
   */
  function StartFatal(opts: StartOptions, parseDuration: DurationParser, parseAddress: AddressParser): (f: Option<Fatal>)
    ensures f.None? <==>
      && !ParseRequestRate(opts.maxRequestRate, parseDuration).Failed()
      && !ParseDuration(opts.backoff, parseDuration).Failed()
      && (forall i :: 0 <= i < |opts.watch| ==> !AddressFromHex(opts.watch[i], parseAddress).Failed())
      && !ParseDuration(opts.announceEvery, parseDuration).Failed()
    ensures var rate := ParseRequestRate(opts.maxRequestRate, parseDuration);
      && (f.Some? && f.value.RequestRateFatal? <==> rate.Failed())
      && (f.Some? && f.value.RequestRateFatal? ==> rate.err == Some(f.value.rateError))
    ensures var rate := ParseRequestRate(opts.maxRequestRate, parseDuration);
      var backoff := ParseDuration(opts.backoff, parseDuration);
      && (f.Some? && f.value.BackoffFatal? <==> !rate.Failed() && backoff.Failed())
      && (f.Some? && f.value.BackoffFatal? ==> backoff.err == Some(f.value.message))
    ensures var rate := ParseRequestRate(opts.maxRequestRate, parseDuration);
      var backoff := ParseDuration(opts.backoff, parseDuration);
      var bad := FirstBadAddress(opts.watch, parseAddress);
      && (f.Some? && f.value.WatchFatal? <==> !rate.Failed() && !backoff.Failed() && bad.Some?)
      && (f.Some? && f.value.WatchFatal? ==>
           && bad == Some(f.value.index)
           && f.value.index < |opts.watch|
           && AddressFromHex(opts.watch[f.value.index], parseAddress).err == Some(f.value.message)
           && forall i :: 0 <= i < f.value.index ==> !AddressFromHex(opts.watch[i], parseAddress).Failed())
    ensures var rate := ParseRequestRate(opts.maxRequestRate, parseDuration);
      var backoff := ParseDuration(opts.backoff, parseDuration);
      var announce := ParseDuration(opts.announceEvery, parseDuration);
      && (f.Some? && f.value.AnnounceFatal? <==>
           !rate.Failed() && !backoff.Failed() && FirstBadAddress(opts.watch, parseAddress).None? && announce.Failed())
      && (f.Some? && f.value.AnnounceFatal? ==>
           f.value.option == opts.announceEvery && announce.err == Some(f.value.message))
  {
    var rate := ParseRequestRate(opts.maxRequestRate, parseDuration);
    var backoff := ParseDuration(opts.backoff, parseDuration);
    var announce := ParseDuration(opts.announceEvery, parseDuration);
    if rate.Failed() then Some(RequestRateFatal(rate.err.value))
    else if backoff.Failed() then Some(BackoffFatal(backoff.err.value))
    else match FirstBadAddress(opts.watch, parseAddress)
      case Some(i) => Some(WatchFatal(i, AddressFromHex(opts.watch[i], parseAddress).err.value))
      case None =>
        if announce.Failed() then Some(AnnounceFatal(opts.announceEvery, announce.err.value))
        else None
  }

  /**
   * The watch slots once the first `n` of them hold their parsed values and
   * the others still hold what `prior` had in them.
   */
  function Filled(prior: seq<Address>, watch: seq<string>, parse: AddressParser, n: nat): (r: seq<Address>)
    requires |prior| == |watch| && n <= |watch|
    ensures |r| == |watch|
    ensures forall k :: 0 <= k < n ==> r[k] == AddressFromHex(watch[k], parse).value
    ensures forall k :: n <= k < |r| ==> r[k] == prior[k]
  {
    if n == 0 then prior
    else Filled(prior, watch, parse, n - 1)[n - 1 := AddressFromHex(watch[n - 1], parse).value]
  }

  /**
   * The loop of the hook over the `--watch` values: slot `i` receives the
   * parse of value `i`, and the loop stops after the first value that does
   * not parse, leaving the later slots as they were.
   */
  method FillWatchAddresses(slots: array<Address>, watch: seq<string>, parse: AddressParser)
    returns (bad: Option<nat>)
    requires slots.Length == |watch|
    modifies slots
    ensures bad == FirstBadAddress(watch, parse)
    ensures slots[..] == Filled(old(slots[..]), watch, parse, FilledUpTo(bad, |watch|))
  {
    for i := 0 to |watch|
      invariant forall k :: 0 <= k < i ==> !AddressFromHex(watch[k], parse).Failed()
      invariant slots[..] == Filled(old(slots[..]), watch, parse, i)
    {
      var address := AddressFromHex(watch[i], parse);
      slots[i] := address.value;
      assert slots[..] == Filled(old(slots[..]), watch, parse, i + 1);
      if address.Failed() {
        FirstBadAddressIs(watch, parse, i);
        return Some(i);
      }
    }
    return None;
  }

  /** The first value that does not parse, after values that all parse, is the one `FirstBadAddress` finds. */
  lemma {:induction false} FirstBadAddressIs(watch: seq<string>, parse: AddressParser, i: nat)
    requires i < |watch| && AddressFromHex(watch[i], parse).Failed()
    requires forall k :: 0 <= k < i ==> !AddressFromHex(watch[k], parse).Failed()
    ensures FirstBadAddress(watch, parse) == Some(i)
  {
    if i > 0 {
      assert forall k :: 0 <= k < i - 1 ==> watch[1..][k] == watch[k + 1];
      FirstBadAddressIs(watch[1..], parse, i - 1);
    }
  }

  /** The number of slots the watch loop writes when it stops at `bad`. */
  function FilledUpTo(bad: Option<nat>, count: nat): nat
  {
    if bad.Some? then bad.value + 1 else count
  }

  /** The fields of `config.VentConfig` the `start` command fills in, as values. */
  datatype Settings = Settings(
    dbAdapter: string,
    dbURL: string,
    dbSchema: string,
    chainAddress: string,
    httpListenAddress: string,
    watchAddresses: seq<Address>,
    minimumHeight: Uint64,
    maxRequests: int,
    timeBase: Duration,
    maxRetries: Uint64,
    baseBackoffDuration: Duration,
    maxBlockBatchSize: Uint64,
    abiFileOrDirs: seq<string>,
    specFileOrDirs: seq<string>,
    specOpt: SpecOpt,
    announceEvery: Duration)

  /** The plain copies at the head of the hook and the zeroed watch slice. */
  function Connect(prior: Settings, opts: StartOptions): (c: Settings)
    ensures c.dbAdapter == opts.dbAdapter && c.dbURL == opts.dbURL && c.dbSchema == opts.dbSchema
    ensures c.chainAddress == opts.chainAddr && c.httpListenAddress == opts.httpAddr
    ensures |c.watchAddresses| == |opts.watch|
    ensures forall i :: 0 <= i < |c.watchAddresses| ==> c.watchAddresses[i] == ZeroAddress
    ensures c.minimumHeight == ToUint64(opts.minimumHeight)
    ensures c.(dbAdapter := prior.dbAdapter, dbURL := prior.dbURL, dbSchema := prior.dbSchema,
               chainAddress := prior.chainAddress, httpListenAddress := prior.httpListenAddress,
               watchAddresses := prior.watchAddresses, minimumHeight := prior.minimumHeight) == prior
  {
    prior.(
      dbAdapter := opts.dbAdapter, dbURL := opts.dbURL, dbSchema := opts.dbSchema,
      chainAddress := opts.chainAddr, httpListenAddress := opts.httpAddr,
      watchAddresses := Zeros(|opts.watch|),
      minimumHeight := ToUint64(opts.minimumHeight))
  }

  /**
   * The settings the hook leaves behind, run from `prior`: each stage
   * assigns its fields, including the value a failing parse returns beside
   * its error, and the hook goes no further than the first failing parse.
   */
  function Configure(prior: Settings, opts: StartOptions, parseDuration: DurationParser, parseAddress: AddressParser): (c: Settings)
    ensures c.dbAdapter == opts.dbAdapter && c.dbURL == opts.dbURL && c.dbSchema == opts.dbSchema
    ensures c.chainAddress == opts.chainAddr && c.httpListenAddress == opts.httpAddr
    ensures c.minimumHeight == ToUint64(opts.minimumHeight)
    ensures |c.watchAddresses| == |opts.watch|
  {
    var connected := Connect(prior, opts);
    var rate := ParseRequestRate(opts.maxRequestRate, parseDuration);
    var limited := connected.(maxRequests := rate.value.maxRequests, timeBase := rate.value.timeBase);
    if rate.Failed() then limited
    else
      var backoff := ParseDuration(opts.backoff, parseDuration);
      var retrying := limited.(maxRetries := ToUint64(opts.maxRetries), baseBackoffDuration := backoff.value);
      if backoff.Failed() then retrying
      else
        var bad := FirstBadAddress(opts.watch, parseAddress);
        var watching := retrying.(
          maxBlockBatchSize := ToUint64(opts.batchSize),
          watchAddresses := Filled(retrying.watchAddresses, opts.watch, parseAddress, FilledUpTo(bad, |opts.watch|)));
        if bad.Some? then watching
        else
          watching.(
            abiFileOrDirs := opts.abi, specFileOrDirs := opts.spec,
            specOpt := WithTableFlags(watching.specOpt, opts.blocks, opts.txs),
            announceEvery := ParseDuration(opts.announceEvery, parseDuration).value)
  }

  /** The request rate is assigned whether or not it parses; a failing parse leaves no limit. */
  lemma ConfigureRate(prior: Settings, opts: StartOptions, parseDuration: DurationParser, parseAddress: AddressParser)
    ensures var c := Configure(prior, opts, parseDuration, parseAddress);
      var rate := ParseRequestRate(opts.maxRequestRate, parseDuration);
      && c.maxRequests == rate.value.maxRequests && c.timeBase == rate.value.timeBase
      && (rate.Failed() ==> c.maxRequests == 0 && c.timeBase == 0)
  {
  }

  /** The retry and backoff settings are assigned exactly when the request rate parses. */
  lemma ConfigureBackoff(prior: Settings, opts: StartOptions, parseDuration: DurationParser, parseAddress: AddressParser)
    ensures var c := Configure(prior, opts, parseDuration, parseAddress);
      if !ParseRequestRate(opts.maxRequestRate, parseDuration).Failed() then
        c.maxRetries == ToUint64(opts.maxRetries) && c.baseBackoffDuration == ParseDuration(opts.backoff, parseDuration).value
      else
        c.maxRetries == prior.maxRetries && c.baseBackoffDuration == prior.baseBackoffDuration
  {
  }

  /**
   * The batch size and the watch slots. When the rate and the backoff parse,
   * slot `i` holds the parse of value `i` up to and including the first value
   * that does not parse, and the zero address after it; when the hook stops
   * earlier, the batch size keeps its prior value and every slot is zero.
   */
  lemma ConfigureWatch(prior: Settings, opts: StartOptions, parseDuration: DurationParser, parseAddress: AddressParser)
    ensures var c := Configure(prior, opts, parseDuration, parseAddress);
      var reached := !ParseRequestRate(opts.maxRequestRate, parseDuration).Failed()
        && !ParseDuration(opts.backoff, parseDuration).Failed();
      var filled := FilledUpTo(FirstBadAddress(opts.watch, parseAddress), |opts.watch|);
      if reached then
        && c.maxBlockBatchSize == ToUint64(opts.batchSize)
        && forall i :: 0 <= i < |c.watchAddresses| ==>
             c.watchAddresses[i] == if i < filled then AddressFromHex(opts.watch[i], parseAddress).value else ZeroAddress
      else
        && c.maxBlockBatchSize == prior.maxBlockBatchSize
        && forall i :: 0 <= i < |c.watchAddresses| ==> c.watchAddresses[i] == ZeroAddress
  {
  }

  /**
   * The ABI and spec sources, the table flags and the announce period are
   * assigned exactly when the rate, the backoff and every watch address
   * parse; the flags then hold the block and transaction bits as `--blocks`
   * and `--txs` ask.
   */
  lemma ConfigureSpec(prior: Settings, opts: StartOptions, parseDuration: DurationParser, parseAddress: AddressParser)
    ensures var c := Configure(prior, opts, parseDuration, parseAddress);
      if && !ParseRequestRate(opts.maxRequestRate, parseDuration).Failed()
         && !ParseDuration(opts.backoff, parseDuration).Failed()
         && FirstBadAddress(opts.watch, parseAddress).None?
      then
        && c.abiFileOrDirs == opts.abi && c.specFileOrDirs == opts.spec
        && (Has(c.specOpt, Block) <==> opts.blocks || Has(prior.specOpt, Block))
        && (Has(c.specOpt, Tx) <==> opts.txs || Has(prior.specOpt, Tx))
        && c.specOpt & !(Block | Tx) == prior.specOpt & !(Block | Tx)
        && c.announceEvery == ParseDuration(opts.announceEvery, parseDuration).value
      else
        && c.abiFileOrDirs == prior.abiFileOrDirs && c.specFileOrDirs == prior.specFileOrDirs
        && c.specOpt == prior.specOpt && c.announceEvery == prior.announceEvery
  {
  }

  /** The part of `config.VentConfig` the `start` command fills in. */
  class VentConfig {
    var dbAdapter: string
    var dbURL: string
    var dbSchema: string
    var chainAddress: string
    var httpListenAddress: string
    var watchAddresses: array<Address>
    var minimumHeight: Uint64
    var maxRequests: int
    var timeBase: Duration
    var maxRetries: Uint64
    var baseBackoffDuration: Duration
    var maxBlockBatchSize: Uint64
    var abiFileOrDirs: seq<string>
    var specFileOrDirs: seq<string>
    var specOpt: SpecOpt
    var announceEvery: Duration

    /** The current values of the fields. */
    function Current(): Settings
      reads this, watchAddresses
    {
      Settings(
        dbAdapter, dbURL, dbSchema, chainAddress, httpListenAddress, watchAddresses[..],
        minimumHeight, maxRequests, timeBase, maxRetries, baseBackoffDuration, maxBlockBatchSize,
        abiFileOrDirs, specFileOrDirs, specOpt, announceEvery)
    }

    /** A configuration with every field at its zero value. */
    constructor ()
      ensures Current() == Settings("", "", "", "", "", [], 0, 0, 0, 0, 0, 0, [], [], 0, 0)
    {
      dbAdapter, dbURL, dbSchema := "", "", "";
      chainAddress, httpListenAddress := "", "";
      watchAddresses := new Address[0];
      minimumHeight, maxRequests, timeBase := 0, 0, 0;
      maxRetries, baseBackoffDuration, maxBlockBatchSize := 0, 0, 0;
      abiFileOrDirs, specFileOrDirs, specOpt, announceEvery := [], [], 0, 0;
    }

    /**
     * The `Before` hook. It returns the reason for `Fatalf` when an option
     * does not parse, and leaves the fields as `Configure` describes.
     */
    method ApplyStartOptions(opts: StartOptions, parseDuration: DurationParser, parseAddress: AddressParser)
      returns (fatal: Option<Fatal>)
      modifies this
      ensures fatal == StartFatal(opts, parseDuration, parseAddress)
      ensures fresh(watchAddresses)
      ensures Current() == Configure(old(Current()), opts, parseDuration, parseAddress)
    {
      SetConnection(opts);
      fatal := SetRequestRate(opts, parseDuration);
      if fatal.Some? {
        return;
      }
      fatal := SetBackoff(opts, parseDuration);
      if fatal.Some? {
        return;
      }
      fatal := SetWatchAddresses(opts, parseAddress);
      if fatal.Some? {
        return;
      }
      fatal := SetSpecAndAnnounce(opts, parseDuration);
    }

    /** The plain copies and the zeroed watch slice. */
    method SetConnection(opts: StartOptions)
      modifies this`dbAdapter, this`dbURL, this`dbSchema, this`chainAddress, this`httpListenAddress
      modifies this`watchAddresses, this`minimumHeight
      ensures fresh(watchAddresses)
      ensures Current() == Connect(old(Current()), opts)
    {
      SetDatabase(opts.dbAdapter, opts.dbURL, opts.dbSchema);
      SetEndpoints(opts.chainAddr, opts.httpAddr);
      AllocateWatchAddresses(|opts.watch|);
      minimumHeight := ToUint64(opts.minimumHeight);
    }

    /** The database adapter, URL and schema. */
    method SetDatabase(adapter: string, url: string, schema: string)
      modifies this`dbAdapter, this`dbURL, this`dbSchema
      ensures Current() == old(Current()).(dbAdapter := adapter, dbURL := url, dbSchema := schema)
    {
      dbAdapter := adapter;
      dbURL := url;
      dbSchema := schema;
    }

    /** The chain's gRPC address and the address the HTTP server listens on. */
    method SetEndpoints(chain: string, http: string)
      modifies this`chainAddress, this`httpListenAddress
      ensures Current() == old(Current()).(chainAddress := chain, httpListenAddress := http)
    {
      chainAddress := chain;
      httpListenAddress := http;
    }

    /** A fresh slice of `n` zero addresses for the watch loop to fill. */
    method AllocateWatchAddresses(n: nat)
      modifies this`watchAddresses
      ensures fresh(watchAddresses)
      ensures Current() == old(Current()).(watchAddresses := Zeros(n))
    {
      watchAddresses := new Address[n](_ => ZeroAddress);
      assert watchAddresses[..] == Zeros(n);
    }

    /** The request rate, assigned whether or not it parses. */
    method SetRequestRate(opts: StartOptions, parseDuration: DurationParser) returns (fatal: Option<Fatal>)
      modifies this`maxRequests, this`timeBase
      ensures var rate := ParseRequestRate(opts.maxRequestRate, parseDuration);
        && Current() == old(Current()).(maxRequests := rate.value.maxRequests, timeBase := rate.value.timeBase)
        && fatal == if rate.Failed() then Some(RequestRateFatal(rate.err.value)) else None
    {
      var rate := ParseRequestRate(opts.maxRequestRate, parseDuration);
      maxRequests, timeBase := rate.value.maxRequests, rate.value.timeBase;
      fatal := if rate.Failed() then Some(RequestRateFatal(rate.err.value)) else None;
    }

    /** The retry count and the backoff duration, assigned whether or not it parses. */
    method SetBackoff(opts: StartOptions, parseDuration: DurationParser) returns (fatal: Option<Fatal>)
      modifies this`maxRetries, this`baseBackoffDuration
      ensures var backoff := ParseDuration(opts.backoff, parseDuration);
        && Current() == old(Current()).(maxRetries := ToUint64(opts.maxRetries), baseBackoffDuration := backoff.value)
        && fatal == if backoff.Failed() then Some(BackoffFatal(backoff.err.value)) else None
    {
      maxRetries := ToUint64(opts.maxRetries);
      var backoff := ParseDuration(opts.backoff, parseDuration);
      baseBackoffDuration := backoff.value;
      fatal := if backoff.Failed() then Some(BackoffFatal(backoff.err.value)) else None;
    }

    /** The batch size and the parse of every `--watch` value into its slot. */
    method SetWatchAddresses(opts: StartOptions, parseAddress: AddressParser) returns (fatal: Option<Fatal>)
      requires watchAddresses.Length == |opts.watch|
      modifies this`maxBlockBatchSize, watchAddresses
      ensures var bad := FirstBadAddress(opts.watch, parseAddress);
        && Current() == old(Current()).(
             maxBlockBatchSize := ToUint64(opts.batchSize),
             watchAddresses := Filled(old(watchAddresses[..]), opts.watch, parseAddress, FilledUpTo(bad, |opts.watch|)))
        && fatal == if bad.Some? then Some(WatchFatal(bad.value, AddressFromHex(opts.watch[bad.value], parseAddress).err.value)) else None
    {
      maxBlockBatchSize := ToUint64(opts.batchSize);
      var bad := FillWatchAddresses(watchAddresses, opts.watch, parseAddress);
      fatal := if bad.Some? then Some(WatchFatal(bad.value, AddressFromHex(opts.watch[bad.value], parseAddress).err.value)) else None;
    }

    /** The ABI and spec file or directory lists. */
    method SetSources(abi: seq<string>, spec: seq<string>)
      modifies this`abiFileOrDirs, this`specFileOrDirs
      ensures Current() == old(Current()).(abiFileOrDirs := abi, specFileOrDirs := spec)
    {
      abiFileOrDirs := abi;
      specFileOrDirs := spec;
    }

    /** The spec options with the block and transaction flags ORed in as asked. */
    method SetTableFlags(blocks: bool, txs: bool)
      modifies this`specOpt
      ensures Current() == old(Current()).(specOpt := WithTableFlags(old(specOpt), blocks, txs))
    {
      if blocks {
        specOpt := specOpt | Block;
      }
      if txs {
        specOpt := specOpt | Tx;
      }
    }

    /** The ABI and spec sources, the table flags and the announce period. */
    method SetSpecAndAnnounce(opts: StartOptions, parseDuration: DurationParser) returns (fatal: Option<Fatal>)
      modifies this`abiFileOrDirs, this`specFileOrDirs, this`specOpt, this`announceEvery
      ensures var announce := ParseDuration(opts.announceEvery, parseDuration);
        && Current() == old(Current()).(
             abiFileOrDirs := opts.abi, specFileOrDirs := opts.spec,
             specOpt := WithTableFlags(old(specOpt), opts.blocks, opts.txs),
             announceEvery := announce.value)
        && fatal == if announce.Failed() then Some(AnnounceFatal(opts.announceEvery, announce.err.value)) else None
    {
      SetSources(opts.abi, opts.spec);
      SetTableFlags(opts.blocks, opts.txs);
      var announce := ParseDuration(opts.announceEvery, parseDuration);
      announceEvery := announce.value;
      fatal := if announce.Failed() then Some(AnnounceFatal(opts.announceEvery, announce.err.value)) else None;
    }
  }
}
