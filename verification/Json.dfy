/** Parsed JSON. The keys the code looks at are constructors of Key, every other name is Other. */
module Json {

  type Int64 = x: int | -0x8000_0000_0000_0000 <= x <= 0x7FFF_FFFF_FFFF_FFFF

  /** A JSON integer as the parser stores it: signed, or unsigned when it is too large for that. */
  type JsonInt = x: int | -0x8000_0000_0000_0000 <= x <= 0xFFFF_FFFF_FFFF_FFFF

  datatype Key =
    // the configuration
    | NetworkKey | TrustedBlockRoot | ChainId | ExecutionApiUrls | BeaconApiUrls | BeaconSource
    | OpExecutionApiUrls | PrivateTxUrls | ArchiveUrls | LogLevel | LogFormat | TuningKey
    | MaxBlockWalk | MaxWindowJumps | ParallelBlockDownloads | MaxLightClientUpdates | HeaderStoreLen
    | StorageCacheLen | CodeCacheLen | AccountCacheLen | SyncHeaderStore | FreezeAtSlot
    | CallTimeoutMs | QueueTimeoutMs | StartTimeoutMs | DrainTimeoutMs | PumpIntervalMs | MaxInFlight
    | KeepAlive | KeepAliveIntervalMs | AutoStart | HttpServer | Enabled | Host | Port | Eth2Network
    // the beacon module's answer
    | OkKey | ConfigKey | ProxyRequired | ProxyKey | Providers | Endpoint
    // JSON-RPC
    | JsonRpc | Id | Method | Params | ResultKey | ErrorKey | Code | Message
    | Other(name: string)

  datatype Json =
    | JNull
    | JBool(b: bool)
    | JInt(i: JsonInt)
    | JReal(r: real)
    | JString(s: string)
    | JArray(items: seq<Json>)
    | JObject(fields: map<Key, Json>)

  datatype Result<+T, +E> = Ok(value: T) | Err(error: E) {
    predicate IsFailure() {
      Err?
    }

    function PropagateFailure<U>(): Result<U, E>
      requires Err?
    {
      Err(error)
    }

    function Extract(): T
      requires Ok?
    {
      value
    }
  }

  /** Reading a large unsigned integer as a signed one wraps around. */
  function ToInt64(i: JsonInt): (x: Int64)
    ensures i <= 0x7FFF_FFFF_FFFF_FFFF ==> x == i
    ensures i > 0x7FFF_FFFF_FFFF_FFFF ==> x < 0
  {
    if i > 0x7FFF_FFFF_FFFF_FFFF then i - 0x1_0000_0000_0000_0000 else i
  }

  function Strings(v: seq<string>): Json {
    JArray(seq(|v|, i requires 0 <= i < |v| => JString(v[i])))
  }
}
