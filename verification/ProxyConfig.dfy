/** The configuration: how JSON becomes a validated config, section by section, and how a config is
    written out again, for itself and for the library. */
module ProxyConfig {
  import opened Json
  import opened Csv

  // ---------------------------------------------------------------------------
  // The config
  // ---------------------------------------------------------------------------

  datatype Identity = Identity(network: string, logLevel: string, logFormat: string, trustedBlockRoot: string)

  datatype Endpoints = Endpoints(
    execution: seq<string>,
    beacon: seq<string>,
    source: string,
    op: seq<string>,
    privateTx: seq<string>,
    archive: seq<string>)

  datatype Tuning = Tuning(
    maxBlockWalk: Int64,
    maxWindowJumps: Int64,
    parallelBlockDownloads: Int64,
    maxLightClientUpdates: Int64,
    headerStoreLen: Int64,
    storageCacheLen: Int64,
    codeCacheLen: Int64,
    accountCacheLen: Int64,
    freezeAtSlot: Int64,
    syncHeaderStore: bool)

  datatype Knobs = Knobs(
    callTimeoutMs: Int64,
    queueTimeoutMs: Int64,
    startTimeoutMs: Int64,
    drainTimeoutMs: Int64,
    pumpIntervalMs: Int64,
    maxInFlight: Int64,
    keepAliveIntervalMs: Int64,
    autoStart: bool,
    keepAlive: string)

  datatype Http = Http(enabled: bool, port: Int64, host: string)

  datatype Config = Config(identity: Identity, endpoints: Endpoints, tuning: Tuning, knobs: Knobs, http: Http)

  const BEACON_SLOT_MS: Int64 := 12000
  const TUNING_DEFAULTS: Tuning := Tuning(1000, 500, 10, 128, 256, 256, 64, 128, 0, true)
  const KNOB_DEFAULTS: Knobs := Knobs(30000, 30000, 120000, 2000, 50, 64, BEACON_SLOT_MS, false, "interval")
  const HTTP_DEFAULTS: Http := Http(false, 8545, "127.0.0.1")

  // ---------------------------------------------------------------------------
  // Networks
  // ---------------------------------------------------------------------------

  datatype Profile = Profile(chainId: Int64, beaconApiUrl: string, executionApiUrl: string)

  const MAINNET: Profile := Profile(1, "https://lodestar-mainnet.chainsafe.io", "https://eth.drpc.org")
  const SEPOLIA: Profile := Profile(11155111, "https://lodestar-sepolia.chainsafe.io", "https://rpc.sepolia.ethpandaops.io")
  const HOODI: Profile := Profile(560048, "https://lodestar-hoodi.chainsafe.io", "https://hoodi.drpc.org")

  const NETWORKS: set<string> := {"mainnet", "sepolia", "hoodi"}
  const LOG_LEVELS: set<string> := {"TRACE", "DEBUG", "INFO", "NOTICE", "WARN", "ERROR", "FATAL", "NONE"}
  const LOG_FORMATS: set<string> := {"Colors", "NoColors", "Json", "Auto", "None"}
  const BEACON_SOURCES: set<string> := {"module", "urls"}
  const KEEP_ALIVE_MODES: set<string> := {"off", "interval", "continuous"}

  function ProfileOf(network: string): Profile
    requires network in NETWORKS
  {
    if network == "mainnet" then MAINNET else if network == "sepolia" then SEPOLIA else HOODI
  }

  // ---------------------------------------------------------------------------
  // Reading
  // ---------------------------------------------------------------------------

  datatype What =
    | NotAnObject | NotAString | NotAllowed | NotAnInteger | NotABoolean | NotAList | NotAllStrings
    | Missing | NotARoot | NoUrls | BadScheme | HasComma | BadPort | NotPositive

  datatype Problem = Problem(key: Key, what: What)

  type Fields = map<Key, Json>

  /** A key that is absent, or null, leaves the default in place. */
  predicate Unset(o: Fields, key: Key) {
    key !in o || o[key].JNull?
  }

  function ReadInt(o: Fields, key: Key, default: Int64): Result<Int64, Problem> {
    if Unset(o, key) then Ok(default)
    else if !o[key].JInt? then Err(Problem(key, NotAnInteger))
    else Ok(ToInt64(o[key].i))
  }

  function ReadBool(o: Fields, key: Key, default: bool): Result<bool, Problem> {
    if Unset(o, key) then Ok(default)
    else if !o[key].JBool? then Err(Problem(key, NotABoolean))
    else Ok(o[key].b)
  }

  function ReadEnum(o: Fields, key: Key, allowed: set<string>, default: string): Result<string, Problem> {
    if Unset(o, key) then Ok(default)
    else if !o[key].JString? then Err(Problem(key, NotAString))
    else if o[key].s !in allowed then Err(Problem(key, NotAllowed))
    else Ok(o[key].s)
  }

  /** A list of strings, or one comma-separated string. */
  function ReadStringList(o: Fields, key: Key): Result<seq<string>, Problem> {
    if Unset(o, key) then Ok([])
    else match o[key]
      case JString(s) => Ok(Split(s))
      case JArray(items) =>
        if forall i :: 0 <= i < |items| ==> items[i].JString? then Ok(StringsOf(items)) else Err(Problem(key, NotAllStrings))
      case _ => Err(Problem(key, NotAList))
  }

  function StringsOf(items: seq<Json>): seq<string>
    requires forall i :: 0 <= i < |items| ==> items[i].JString?
  {
    seq(|items|, i requires 0 <= i < |items| => items[i].s)
  }

  /** A sub-object: absent means empty, and anything else that is not an object, null too, is an error. */
  function ReadObject(o: Fields, key: Key): Result<Fields, Problem> {
    if key !in o then Ok(map[])
    else if !o[key].JObject? then Err(Problem(key, NotAnObject))
    else Ok(o[key].fields)
  }

  predicate StartsWith(s: string, prefix: string) {
    prefix <= s
  }

  predicate SchemeOk(url: string) {
    StartsWith(url, "http://") || StartsWith(url, "https://") || StartsWith(url, "ws://") || StartsWith(url, "wss://")
  }

  predicate UrlOk(url: string) {
    SchemeOk(url) && ',' !in url
  }

  predicate UrlsOk(urls: seq<string>) {
    forall i :: 0 <= i < |urls| ==> UrlOk(urls[i])
  }

  /** The first thing wrong with a list of URLs, if anything is. */
  function ValidateUrls(urls: seq<string>, key: Key, required: bool): (r: Result<(), Problem>)
    ensures r.Ok? <==> UrlsOk(urls) && (required ==> urls != [])
  {
    if required && urls == [] then Err(Problem(key, NoUrls)) else FirstBadUrl(urls, key)
  }

  function FirstBadUrl(urls: seq<string>, key: Key): (r: Result<(), Problem>)
    ensures r.Ok? <==> UrlsOk(urls)
  {
    if urls == [] then Ok(())
    else if !SchemeOk(urls[0]) then Err(Problem(key, BadScheme))
    else if ',' in urls[0] then Err(Problem(key, HasComma))
    else FirstBadUrl(urls[1..], key)
  }

  predicate IsHex(c: char) {
    ('0' <= c <= '9') || ('a' <= c <= 'f') || ('A' <= c <= 'F')
  }

  predicate IsRoot(s: string) {
    |s| == 66 && StartsWith(s, "0x") && forall i :: 2 <= i < |s| ==> IsHex(s[i])
  }

  // ---------------------------------------------------------------------------
  // The sections
  // ---------------------------------------------------------------------------

  function ParseIdentity(o: Fields): Result<Identity, Problem> {
    var network :- ReadEnum(o, NetworkKey, NETWORKS, "mainnet");
    var logLevel :- ReadEnum(o, LogLevel, LOG_LEVELS, "INFO");
    var logFormat :- ReadEnum(o, LogFormat, LOG_FORMATS, "Json");
    if TrustedBlockRoot !in o || !o[TrustedBlockRoot].JString? then Err(Problem(TrustedBlockRoot, Missing))
    else if !IsRoot(o[TrustedBlockRoot].s) then Err(Problem(TrustedBlockRoot, NotARoot))
    else Ok(Identity(network, logLevel, logFormat, o[TrustedBlockRoot].s))
  }

  /** Without a stated source, a beacon list that is not exactly the network's own means it was edited. */
  function DerivedSource(o: Fields, beacon: seq<string>, profile: Profile): string {
    if BeaconSource in o then "module"
    else if BeaconApiUrls in o && beacon != [profile.beaconApiUrl] then "urls"
    else "module"
  }

  /** An absent list is filled from the profile; an explicit one, even empty or null, never is. */
  function Filled(o: Fields, key: Key, urls: seq<string>, default: string): seq<string> {
    if key !in o && default != "" then [default] else urls
  }

  function ParseEndpoints(o: Fields, network: string): Result<Endpoints, Problem>
    requires network in NETWORKS
  {
    var given :- ReadStringList(o, ExecutionApiUrls);
    var stated :- ReadStringList(o, BeaconApiUrls);
    var profile := ProfileOf(network);
    var derived := DerivedSource(o, stated, profile);
    var beacon := Filled(o, BeaconApiUrls, stated, profile.beaconApiUrl);
    var execution := Filled(o, ExecutionApiUrls, given, profile.executionApiUrl);
    var op :- ReadStringList(o, OpExecutionApiUrls);
    var privateTx :- ReadStringList(o, PrivateTxUrls);
    var archive :- ReadStringList(o, ArchiveUrls);
    var _ :- ValidateUrls(execution, ExecutionApiUrls, true);
    var source :- ReadEnum(o, BeaconSource, BEACON_SOURCES, derived);
    var _ :- ValidateUrls(beacon, BeaconApiUrls, source == "urls");
    var _ :- ValidateUrls(op, OpExecutionApiUrls, false);
    var _ :- ValidateUrls(privateTx, PrivateTxUrls, false);
    var _ :- ValidateUrls(archive, ArchiveUrls, false);
    Ok(Endpoints(execution, beacon, source, op, privateTx, archive))
  }

  function ParseTuning(o: Fields): Result<Tuning, Problem> {
    var t :- ReadObject(o, TuningKey);
    var d := TUNING_DEFAULTS;
    var maxBlockWalk :- ReadInt(t, MaxBlockWalk, d.maxBlockWalk);
    var maxWindowJumps :- ReadInt(t, MaxWindowJumps, d.maxWindowJumps);
    var parallelBlockDownloads :- ReadInt(t, ParallelBlockDownloads, d.parallelBlockDownloads);
    var maxLightClientUpdates :- ReadInt(t, MaxLightClientUpdates, d.maxLightClientUpdates);
    var headerStoreLen :- ReadInt(t, HeaderStoreLen, d.headerStoreLen);
    var storageCacheLen :- ReadInt(t, StorageCacheLen, d.storageCacheLen);
    var codeCacheLen :- ReadInt(t, CodeCacheLen, d.codeCacheLen);
    var accountCacheLen :- ReadInt(t, AccountCacheLen, d.accountCacheLen);
    var freezeAtSlot :- ReadInt(t, FreezeAtSlot, d.freezeAtSlot);
    var syncHeaderStore :- ReadBool(t, SyncHeaderStore, d.syncHeaderStore);
    Ok(Tuning(maxBlockWalk, maxWindowJumps, parallelBlockDownloads, maxLightClientUpdates, headerStoreLen,
              storageCacheLen, codeCacheLen, accountCacheLen, freezeAtSlot, syncHeaderStore))
  }

  /** The module's own knobs, before the bounds are checked. */
  function ReadKnobs(o: Fields): Result<Knobs, Problem> {
    var d := KNOB_DEFAULTS;
    var callTimeoutMs :- ReadInt(o, CallTimeoutMs, d.callTimeoutMs);
    var queueTimeoutMs :- ReadInt(o, QueueTimeoutMs, d.queueTimeoutMs);
    var startTimeoutMs :- ReadInt(o, StartTimeoutMs, d.startTimeoutMs);
    var drainTimeoutMs :- ReadInt(o, DrainTimeoutMs, d.drainTimeoutMs);
    var pumpIntervalMs :- ReadInt(o, PumpIntervalMs, d.pumpIntervalMs);
    var maxInFlight :- ReadInt(o, MaxInFlight, d.maxInFlight);
    var keepAliveIntervalMs :- ReadInt(o, KeepAliveIntervalMs, d.keepAliveIntervalMs);
    var autoStart :- ReadBool(o, AutoStart, d.autoStart);
    var keepAlive :- ReadEnum(o, KeepAlive, KEEP_ALIVE_MODES, d.keepAlive);
    Ok(Knobs(callTimeoutMs, queueTimeoutMs, startTimeoutMs, drainTimeoutMs, pumpIntervalMs, maxInFlight,
             keepAliveIntervalMs, autoStart, keepAlive))
  }

  function ParseHttp(o: Fields): Result<Http, Problem> {
    var h :- ReadObject(o, HttpServer);
    var enabled :- ReadBool(h, Enabled, HTTP_DEFAULTS.enabled);
    var port :- ReadInt(h, Port, HTTP_DEFAULTS.port);
    if Host in h && !h[Host].JString? then Err(Problem(Host, NotAString))
    else
      var host := if Host in h then h[Host].s else HTTP_DEFAULTS.host;
      if enabled && (port < 1 || port > 65535) then Err(Problem(Port, BadPort)) else Ok(Http(enabled, port, host))
  }

  /** The bounds, in the order they are checked; a beat faster than a slot is raised, not rejected. */
  function BoundKnobs(k: Knobs): Result<Knobs, Problem> {
    if k.callTimeoutMs <= 0 then Err(Problem(CallTimeoutMs, NotPositive))
    else if k.queueTimeoutMs <= 0 then Err(Problem(QueueTimeoutMs, NotPositive))
    else if k.startTimeoutMs <= 0 then Err(Problem(StartTimeoutMs, NotPositive))
    else if k.maxInFlight <= 0 then Err(Problem(MaxInFlight, NotPositive))
    else if k.pumpIntervalMs <= 0 then Err(Problem(PumpIntervalMs, NotPositive))
    else if k.keepAliveIntervalMs <= 0 then Err(Problem(KeepAliveIntervalMs, NotPositive))
    else Ok(k.(keepAliveIntervalMs := if k.keepAliveIntervalMs < BEACON_SLOT_MS then BEACON_SLOT_MS else k.keepAliveIntervalMs))
  }

  function Parse(input: Json): Result<Config, Problem> {
    if !input.JObject? then Err(Problem(ConfigKey, NotAnObject))
    else
      var o := input.fields;
      var identity :- ParseIdentity(o);
      assert identity.network in NETWORKS;
      var endpoints :- ParseEndpoints(o, identity.network);
      var tuning :- ParseTuning(o);
      var read :- ReadKnobs(o);
      var http :- ParseHttp(o);
      var knobs :- BoundKnobs(read);
      Ok(Config(identity, endpoints, tuning, knobs, http))
  }

  // ---------------------------------------------------------------------------
  // Writing
  // ---------------------------------------------------------------------------

  function RawTuning(t: Tuning): Fields {
    map[
      MaxBlockWalk := JInt(t.maxBlockWalk),
      MaxWindowJumps := JInt(t.maxWindowJumps),
      ParallelBlockDownloads := JInt(t.parallelBlockDownloads),
      MaxLightClientUpdates := JInt(t.maxLightClientUpdates),
      HeaderStoreLen := JInt(t.headerStoreLen),
      StorageCacheLen := JInt(t.storageCacheLen),
      CodeCacheLen := JInt(t.codeCacheLen),
      AccountCacheLen := JInt(t.accountCacheLen),
      SyncHeaderStore := JBool(t.syncHeaderStore),
      FreezeAtSlot := JInt(t.freezeAtSlot)]
  }

  function RawHttp(h: Http): Fields {
    map[Enabled := JBool(h.enabled), Host := JString(h.host), Port := JInt(h.port)]
  }

  function ExpectedChainId(c: Config): Int64 {
    if c.identity.network in NETWORKS then ProfileOf(c.identity.network).chainId else 0
  }

  function RawIdentity(i: Identity): Fields {
    map[
      NetworkKey := JString(i.network),
      TrustedBlockRoot := JString(i.trustedBlockRoot),
      LogLevel := JString(i.logLevel),
      LogFormat := JString(i.logFormat)]
  }

  function RawEndpoints(e: Endpoints): Fields {
    map[
      ExecutionApiUrls := Strings(e.execution),
      BeaconApiUrls := Strings(e.beacon),
      BeaconSource := JString(e.source),
      OpExecutionApiUrls := Strings(e.op),
      PrivateTxUrls := Strings(e.privateTx),
      ArchiveUrls := Strings(e.archive)]
  }

  function RawKnobs(k: Knobs): Fields {
    map[
      CallTimeoutMs := JInt(k.callTimeoutMs),
      QueueTimeoutMs := JInt(k.queueTimeoutMs),
      StartTimeoutMs := JInt(k.startTimeoutMs),
      DrainTimeoutMs := JInt(k.drainTimeoutMs),
      PumpIntervalMs := JInt(k.pumpIntervalMs),
      MaxInFlight := JInt(k.maxInFlight),
      KeepAlive := JString(k.keepAlive),
      KeepAliveIntervalMs := JInt(k.keepAliveIntervalMs),
      AutoStart := JBool(k.autoStart)]
  }

  function RawNested(c: Config): Fields {
    map[ChainId := JInt(ExpectedChainId(c)), TuningKey := JObject(RawTuning(c.tuning)), HttpServer := JObject(RawHttp(c.http))]
  }

  /** The whole config as JSON, nothing redacted. */
  function Raw(c: Config): Json {
    JObject(RawIdentity(c.identity) + RawEndpoints(c.endpoints) + RawKnobs(c.knobs) + RawNested(c))
  }

  // ---------------------------------------------------------------------------
  // What is accepted, and that writing it loses nothing
  // ---------------------------------------------------------------------------

  predicate ValidIdentity(i: Identity) {
    i.network in NETWORKS && i.logLevel in LOG_LEVELS && i.logFormat in LOG_FORMATS && IsRoot(i.trustedBlockRoot)
  }

  predicate ValidEndpoints(e: Endpoints) {
    && UrlsOk(e.execution) && UrlsOk(e.beacon) && UrlsOk(e.op) && UrlsOk(e.privateTx) && UrlsOk(e.archive)
    && e.execution != [] && e.source in BEACON_SOURCES && (e.source == "urls" ==> e.beacon != [])
  }

  predicate ValidKnobs(k: Knobs) {
    && k.callTimeoutMs > 0 && k.queueTimeoutMs > 0 && k.startTimeoutMs > 0 && k.maxInFlight > 0 && k.pumpIntervalMs > 0
    && k.keepAliveIntervalMs >= BEACON_SLOT_MS && k.keepAlive in KEEP_ALIVE_MODES
  }

  predicate ValidHttp(h: Http) {
    h.enabled ==> 1 <= h.port <= 65535
  }

  predicate Valid(c: Config) {
    ValidIdentity(c.identity) && ValidEndpoints(c.endpoints) && ValidKnobs(c.knobs) && ValidHttp(c.http)
  }

  lemma ParseIdentityIsValid(o: Fields)
    requires ParseIdentity(o).Ok?
    ensures ValidIdentity(ParseIdentity(o).value)
  {
  }

  lemma ParseEndpointsIsValid(o: Fields, network: string)
    requires network in NETWORKS && ParseEndpoints(o, network).Ok?
    ensures ValidEndpoints(ParseEndpoints(o, network).value)
  {
  }

  lemma ReadKnobsIsValid(o: Fields)
    requires ReadKnobs(o).Ok? && BoundKnobs(ReadKnobs(o).value).Ok?
    ensures ValidKnobs(BoundKnobs(ReadKnobs(o).value).value)
  {
  }

  /** Only valid configs are accepted. */
  lemma AcceptedIsValid(input: Json)
    requires Parse(input).Ok?
    ensures Valid(Parse(input).value)
  {
    var o := input.fields;
    ParseIdentityIsValid(o);
    var network := ParseIdentity(o).value.network;
    ParseEndpointsIsValid(o, network);
    ReadKnobsIsValid(o);
  }

  lemma ArrayIsRead(o: Fields, key: Key, v: seq<string>)
    requires key in o && o[key] == Strings(v)
    ensures ReadStringList(o, key) == Ok(v)
  {
    assert StringsOf(Strings(v).items) == v;
  }

  /** Every field of the section is among these. */
  ghost predicate Carries(o: Fields, section: Fields) {
    forall key :: key in section ==> key in o && o[key] == section[key]
  }

  /** The group of settings a key belongs to. */
  function Section(key: Key): nat {
    match key
    case NetworkKey | TrustedBlockRoot | LogLevel | LogFormat | Eth2Network => 0
    case ExecutionApiUrls | BeaconApiUrls | BeaconSource => 1
    case OpExecutionApiUrls | PrivateTxUrls | ArchiveUrls => 2
    case CallTimeoutMs | QueueTimeoutMs | StartTimeoutMs | DrainTimeoutMs | PumpIntervalMs | MaxInFlight
       | KeepAlive | KeepAliveIntervalMs | AutoStart => 3
    case ChainId | TuningKey | HttpServer => 4
    case _ => 5
  }

  ghost predicate Within(o: Fields, low: nat, high: nat) {
    forall key :: key in o ==> low <= Section(key) < high
  }

  lemma UnionCarriesBoth(a: Fields, b: Fields, low: nat, mid: nat, high: nat)
    requires Within(a, low, mid) && Within(b, mid, high) && low <= mid <= high
    ensures Carries(a + b, a) && Carries(a + b, b) && Within(a + b, low, high)
  {
  }

  lemma IdentitySection(i: Identity)
    ensures Within(RawIdentity(i), 0, 1)
  {
  }

  lemma EndpointsSection(e: Endpoints)
    ensures Within(RawEndpoints(e), 1, 3)
  {
  }

  lemma KnobsSection(k: Knobs)
    ensures Within(RawKnobs(k), 3, 4)
  {
  }

  lemma NestedSection(c: Config)
    ensures Within(RawNested(c), 4, 5)
  {
  }

  lemma FourSections(a: Fields, b: Fields, c: Fields, d: Fields)
    requires Within(a, 0, 1) && Within(b, 1, 3) && Within(c, 3, 4) && Within(d, 4, 5)
    ensures var o := a + b + c + d; Carries(o, a) && Carries(o, b) && Carries(o, c) && Carries(o, d)
  {
    UnionCarriesBoth(a, b, 0, 1, 3);
    UnionCarriesBoth(a + b, c, 0, 3, 4);
    UnionCarriesBoth(a + b + c, d, 0, 4, 5);
  }

  lemma TuningSection(t: Tuning)
    ensures Within(RawTuning(t), 5, 6)
  {
  }

  lemma RawCarriesSections(c: Config)
    ensures var o := Raw(c).fields;
            Carries(o, RawIdentity(c.identity)) && Carries(o, RawEndpoints(c.endpoints))
            && Carries(o, RawKnobs(c.knobs)) && Carries(o, RawNested(c))
  {
    IdentitySection(c.identity);
    EndpointsSection(c.endpoints);
    KnobsSection(c.knobs);
    NestedSection(c);
    FourSections(RawIdentity(c.identity), RawEndpoints(c.endpoints), RawKnobs(c.knobs), RawNested(c));
  }

  lemma IdentityRoundTrip(o: Fields, i: Identity)
    requires Carries(o, RawIdentity(i)) && ValidIdentity(i)
    ensures ParseIdentity(o) == Ok(i)
  {
    var raw := RawIdentity(i);
    assert NetworkKey in raw && LogLevel in raw && LogFormat in raw && TrustedBlockRoot in raw;
  }

  lemma EndpointsRoundTrip(o: Fields, e: Endpoints, network: string)
    requires Carries(o, RawEndpoints(e)) && ValidEndpoints(e) && network in NETWORKS
    ensures ParseEndpoints(o, network) == Ok(e)
  {
    var raw := RawEndpoints(e);
    assert ExecutionApiUrls in raw && BeaconApiUrls in raw && BeaconSource in raw;
    assert OpExecutionApiUrls in raw && PrivateTxUrls in raw && ArchiveUrls in raw;
    ArrayIsRead(o, ExecutionApiUrls, e.execution);
    ArrayIsRead(o, BeaconApiUrls, e.beacon);
    ArrayIsRead(o, OpExecutionApiUrls, e.op);
    ArrayIsRead(o, PrivateTxUrls, e.privateTx);
    ArrayIsRead(o, ArchiveUrls, e.archive);
  }

  lemma TuningRoundTrip(o: Fields, t: Tuning)
    requires TuningKey in o && o[TuningKey] == JObject(RawTuning(t))
    ensures ParseTuning(o) == Ok(t)
  {
  }

  lemma KnobsRoundTrip(o: Fields, k: Knobs)
    requires Carries(o, RawKnobs(k)) && ValidKnobs(k)
    ensures ReadKnobs(o) == Ok(k) && BoundKnobs(k) == Ok(k)
  {
    var raw := RawKnobs(k);
    assert CallTimeoutMs in raw && QueueTimeoutMs in raw && StartTimeoutMs in raw && DrainTimeoutMs in raw;
    assert PumpIntervalMs in raw && MaxInFlight in raw && KeepAliveIntervalMs in raw && AutoStart in raw && KeepAlive in raw;
  }

  lemma HttpRoundTrip(o: Fields, h: Http)
    requires HttpServer in o && o[HttpServer] == JObject(RawHttp(h)) && ValidHttp(h)
    ensures ParseHttp(o) == Ok(h)
  {
  }

  /** Writing a config and reading it again gives it back field for field, if and only if it is valid. */
  lemma RawRoundTrip(c: Config)
    ensures Parse(Raw(c)) == Ok(c) <==> Valid(c)
  {
    if Valid(c) {
      var o := Raw(c).fields;
      RawCarriesSections(c);
      assert TuningKey in RawNested(c) && HttpServer in RawNested(c);
      IdentityRoundTrip(o, c.identity);
      EndpointsRoundTrip(o, c.endpoints, c.identity.network);
      TuningRoundTrip(o, c.tuning);
      KnobsRoundTrip(o, c.knobs);
      HttpRoundTrip(o, c.http);
    } else if Parse(Raw(c)) == Ok(c) {
      AcceptedIsValid(Raw(c));
    }
  }

  /** Whatever was accepted, defaults filled, source derived and interval raised, is accepted again
      from its own output and comes out the same. */
  lemma AcceptedRoundTrips(input: Json)
    requires Parse(input).Ok?
    ensures Parse(Raw(Parse(input).value)) == Parse(input)
  {
    AcceptedIsValid(input);
    RawRoundTrip(Parse(input).value);
  }

  // ---------------------------------------------------------------------------
  // The defaults
  // ---------------------------------------------------------------------------

  /** Leaving both endpoint lists out gives the network's own, fetched through the module; an empty
      execution list is never filled in. */
  lemma AbsentIsFilledEmptyIsNot(o: Fields, network: string)
    requires network in NETWORKS && ParseEndpoints(o, network).Ok?
    ensures var e := ParseEndpoints(o, network).value;
            && (ExecutionApiUrls !in o ==> e.execution == [ProfileOf(network).executionApiUrl])
            && (BeaconApiUrls !in o ==> e.beacon == [ProfileOf(network).beaconApiUrl])
            && (ExecutionApiUrls in o ==> Ok(e.execution) == ReadStringList(o, ExecutionApiUrls) && e.execution != [])
            && (BeaconSource !in o ==>
                  (e.source == "urls" <==> BeaconApiUrls in o && e.beacon != [ProfileOf(network).beaconApiUrl]))
  {
  }

  /** An execution list that is there but empty, or null, is refused, never replaced. */
  lemma ExplicitlyEmptyIsRefused(o: Fields, network: string)
    requires network in NETWORKS && ExecutionApiUrls in o && ReadStringList(o, ExecutionApiUrls) == Ok([])
    ensures ParseEndpoints(o, network).Err?
  {
  }

  // ---------------------------------------------------------------------------
  // The library's own form
  // ---------------------------------------------------------------------------

  /** An optional list is left out when it is empty. */
  function UpstreamList(urls: seq<string>, key: Key): Fields {
    if urls == [] then map[] else map[key := JString(Join(urls))]
  }

  function UpstreamHead(c: Config): Fields {
    map[
      Eth2Network := JString(c.identity.network),
      TrustedBlockRoot := JString(c.identity.trustedBlockRoot),
      ExecutionApiUrls := JString(Join(c.endpoints.execution)),
      BeaconApiUrls := JString(Join(c.endpoints.beacon)),
      LogLevel := JString(c.identity.logLevel),
      LogFormat := JString(c.identity.logFormat)]
  }

  function UpstreamOptional(e: Endpoints): Fields {
    UpstreamList(e.op, OpExecutionApiUrls) + UpstreamList(e.privateTx, PrivateTxUrls) + UpstreamList(e.archive, ArchiveUrls)
  }

  function Upstream(c: Config): Fields {
    UpstreamHead(c) + UpstreamOptional(c.endpoints) + RawTuning(c.tuning)
  }

  /** The list under this key is given as one comma-separated string, or not at all when empty. */
  predicate GivenAs(o: Fields, key: Key, urls: seq<string>) {
    if key in o then o[key] == JString(Join(urls)) else urls == []
  }

  /** The two lists that are always given, and the three that are given when there is something. */
  ghost predicate RequiredGiven(o: Fields, e: Endpoints) {
    && ExecutionApiUrls in o && GivenAs(o, ExecutionApiUrls, e.execution)
    && BeaconApiUrls in o && GivenAs(o, BeaconApiUrls, e.beacon)
  }

  ghost predicate OptionalGiven(o: Fields, e: Endpoints) {
    && (OpExecutionApiUrls in o <==> e.op != []) && GivenAs(o, OpExecutionApiUrls, e.op)
    && (PrivateTxUrls in o <==> e.privateTx != []) && GivenAs(o, PrivateTxUrls, e.privateTx)
    && (ArchiveUrls in o <==> e.archive != []) && GivenAs(o, ArchiveUrls, e.archive)
  }

  lemma HeadLists(c: Config)
    ensures RequiredGiven(UpstreamHead(c), c.endpoints)
  {
  }

  lemma OptionalLists(e: Endpoints)
    ensures Within(UpstreamOptional(e), 2, 3) && OptionalGiven(UpstreamOptional(e), e)
  {
  }

  lemma HeadSection(c: Config)
    ensures Within(UpstreamHead(c), 0, 2)
  {
  }

  lemma UpstreamCarries(c: Config)
    ensures Carries(Upstream(c), UpstreamHead(c)) && Carries(Upstream(c), UpstreamOptional(c.endpoints))
    ensures forall key :: key in Upstream(c) && Section(key) == 2 ==> key in UpstreamOptional(c.endpoints)
  {
    HeadSection(c);
    TuningSection(c.tuning);
    OptionalLists(c.endpoints);
    ThreeSections(UpstreamHead(c), UpstreamOptional(c.endpoints), RawTuning(c.tuning));
  }

  lemma ThreeSections(a: Fields, b: Fields, c: Fields)
    requires Within(a, 0, 2) && Within(b, 2, 3) && Within(c, 5, 6)
    ensures Carries(a + b + c, a) && Carries(a + b + c, b) && forall key :: key in a + b + c && Section(key) == 2 ==> key in b
  {
    UnionCarriesBoth(a, b, 0, 2, 3);
    UnionCarriesBoth(a + b, c, 0, 5, 6);
  }

  /** What a part of the whole says of the lists, the whole says. */
  lemma ListsCarried(o: Fields, head: Fields, optional: Fields, e: Endpoints)
    requires Carries(o, head) && Carries(o, optional) && RequiredGiven(head, e) && OptionalGiven(optional, e)
    requires forall key :: key in o && Section(key) == 2 ==> key in optional
    ensures RequiredGiven(o, e) && OptionalGiven(o, e)
  {
    assert Section(OpExecutionApiUrls) == Section(PrivateTxUrls) == Section(ArchiveUrls) == 2;
  }

  lemma UpstreamHasLists(c: Config)
    ensures RequiredGiven(Upstream(c), c.endpoints) && OptionalGiven(Upstream(c), c.endpoints)
  {
    UpstreamCarries(c);
    HeadLists(c);
    OptionalLists(c.endpoints);
    ListsCarried(Upstream(c), UpstreamHead(c), UpstreamOptional(c.endpoints), c.endpoints);
  }

  lemma GivenIsRead(o: Fields, key: Key, urls: seq<string>)
    requires GivenAs(o, key, urls) && UrlsOk(urls)
    ensures ReadStringList(o, key) == Ok(urls)
  {
    assert AllEntries(urls);
    SplitUndoesJoin(urls);
  }

  /** For every config that was accepted, each list the library is given is, split at its commas,
      exactly the list configured; an empty optional list is not given at all. */
  lemma UpstreamListsAreFaithful(c: Config)
    requires Valid(c)
    ensures var o, e := Upstream(c), c.endpoints;
            && ReadStringList(o, ExecutionApiUrls) == Ok(e.execution)
            && ReadStringList(o, BeaconApiUrls) == Ok(e.beacon)
            && ReadStringList(o, OpExecutionApiUrls) == Ok(e.op) && (OpExecutionApiUrls in o <==> e.op != [])
            && ReadStringList(o, PrivateTxUrls) == Ok(e.privateTx) && (PrivateTxUrls in o <==> e.privateTx != [])
            && ReadStringList(o, ArchiveUrls) == Ok(e.archive) && (ArchiveUrls in o <==> e.archive != [])
  {
    var o, e := Upstream(c), c.endpoints;
    UpstreamHasLists(c);
    GivenIsRead(o, ExecutionApiUrls, e.execution);
    GivenIsRead(o, BeaconApiUrls, e.beacon);
    GivenIsRead(o, OpExecutionApiUrls, e.op);
    GivenIsRead(o, PrivateTxUrls, e.privateTx);
    GivenIsRead(o, ArchiveUrls, e.archive);
  }

  // ---------------------------------------------------------------------------
  // The parser itself
  // ---------------------------------------------------------------------------

  method ReadList(o: Fields, key: Key) returns (r: Result<seq<string>, Problem>)
    ensures r == ReadStringList(o, key)
  {
    if key !in o || o[key].JNull? {
      return Ok([]);
    }
    if o[key].JString? {
      var out := SplitCsv(o[key].s);
      return Ok(out);
    }
    if !o[key].JArray? {
      return Err(Problem(key, NotAList));
    }
    r := ReadStrings(o[key].items, key);
  }

  method ReadStrings(items: seq<Json>, key: Key) returns (r: Result<seq<string>, Problem>)
    ensures r == if forall i :: 0 <= i < |items| ==> items[i].JString? then Ok(StringsOf(items)) else Err(Problem(key, NotAllStrings))
  {
    var out := [];
    for i := 0 to |items|
      invariant |out| == i && forall j :: 0 <= j < i ==> items[j] == JString(out[j])
    {
      if !items[i].JString? {
        return Err(Problem(key, NotAllStrings));
      }
      out := out + [items[i].s];
    }
    assert StringsOf(items) == out;
    return Ok(out);
  }

  method CheckUrls(urls: seq<string>, key: Key, required: bool) returns (r: Result<(), Problem>)
    ensures r == ValidateUrls(urls, key, required)
  {
    if required && urls == [] {
      return Err(Problem(key, NoUrls));
    }
    for i := 0 to |urls|
      invariant FirstBadUrl(urls, key) == FirstBadUrl(urls[i..], key)
    {
      assert urls[i..][1..] == urls[i + 1..];
      if !SchemeOk(urls[i]) {
        return Err(Problem(key, BadScheme));
      }
      if ',' in urls[i] {
        return Err(Problem(key, HasComma));
      }
    }
    return Ok(());
  }

  method ReadEndpoints(o: Fields, network: string) returns (r: Result<Endpoints, Problem>)
    requires network in NETWORKS
    ensures r == ParseEndpoints(o, network)
  {
    var execution :- ReadList(o, ExecutionApiUrls);
    var beacon :- ReadList(o, BeaconApiUrls);
    var profile := ProfileOf(network);
    var source := "module";
    if BeaconSource !in o && BeaconApiUrls in o && beacon != [profile.beaconApiUrl] {
      source := "urls";
    }
    if BeaconApiUrls !in o && profile.beaconApiUrl != "" {
      beacon := [profile.beaconApiUrl];
    }
    if ExecutionApiUrls !in o && profile.executionApiUrl != "" {
      execution := [profile.executionApiUrl];
    }
    var op :- ReadList(o, OpExecutionApiUrls);
    var privateTx :- ReadList(o, PrivateTxUrls);
    var archive :- ReadList(o, ArchiveUrls);
    var _ :- CheckUrls(execution, ExecutionApiUrls, true);
    source :- ReadEnum(o, BeaconSource, BEACON_SOURCES, source);
    var _ :- CheckUrls(beacon, BeaconApiUrls, source == "urls");
    var _ :- CheckUrls(op, OpExecutionApiUrls, false);
    var _ :- CheckUrls(privateTx, PrivateTxUrls, false);
    var _ :- CheckUrls(archive, ArchiveUrls, false);
    return Ok(Endpoints(execution, beacon, source, op, privateTx, archive));
  }

  /** Parse and validate, reporting the first problem; what comes out is valid, and survives being
      written out and read again. */
  method FromJson(input: Json) returns (r: Result<Config, Problem>)
    ensures r == Parse(input)
    ensures r.Ok? ==> Valid(r.value) && Parse(Raw(r.value)) == r
  {
    if !input.JObject? {
      return Err(Problem(ConfigKey, NotAnObject));
    }
    var o := input.fields;
    var out := Config(Identity("mainnet", "INFO", "Json", ""), Endpoints([], [], "module", [], [], []),
                      TUNING_DEFAULTS, KNOB_DEFAULTS, HTTP_DEFAULTS);
    var identity :- ParseIdentity(o);
    out := out.(identity := identity);
    var endpoints :- ReadEndpoints(o, identity.network);
    out := out.(endpoints := endpoints);
    var tuning :- ParseTuning(o);
    out := out.(tuning := tuning);
    var knobs :- ReadKnobs(o);
    var http :- ParseHttp(o);
    out := out.(http := http);
    knobs :- BoundKnobs(knobs);
    out := out.(knobs := knobs);
    AcceptedRoundTrips(input);
    AcceptedIsValid(input);
    return Ok(out);
  }
}
