/**
  The collectors that only copy fields of one platform reply: `ScreenInfo`,
  `SystemInfo` and `StorageInfo`, and the shared shape of `DeviceInfo` and
  `AppInfo`. Each makes one callback query, has no timeout, caches the record
  it resolves with, and rejects with `err.errMsg` or its own default message.
 */
module FieldCopy {
  import opened Json
  import opened Collectors

  /** `{k: res.k for k in keys, timestamp: now}`. */
  function Record(keys: seq<string>, res: Value, now: int): (r: map<string, Value>)
    ensures r.Keys == (set k | k in keys) + {"timestamp"}
    ensures forall k :: k in keys && k != "timestamp" ==> r[k] == Prop(res, k)
    ensures r["timestamp"] == Num(now)
  {
    (map k | k in keys :: Prop(res, k))["timestamp" := Num(now)]
  }

  /**
    A callback query without a timeout: the promise settles when the platform
    calls back, except that a null success reply throws in the callback while
    the record is built, and then it never settles.
   */
  function Reply(reply: Settlement<PlatformResult>, record: Value -> Value, failure: string): (r: Settlement<Outcome>) {
    match reply
    case Pending => Pending
    case SettledAt(t, Ok(res)) => if Nullish(res) then Pending else SettledAt(t, Fulfilled(record(res)))
    case SettledAt(t, Err(m)) => SettledAt(t, Rejected(ErrMsgOr(m, failure)))
  }

  /** The cache after the query: the record on success, untouched otherwise. */
  function CachedAfter(o: Settlement<Outcome>, previous: Value): (r: Value) {
    if o.SettledAt? && o.result.Fulfilled? then o.result.value else previous
  }

  /** A collector that copies `keys` from its query's result. */
  datatype Source = Source(name: string, keys: seq<string>, failure: string)

  const Screen := Source("screenInfo",
    ["screenWidth", "screenHeight", "windowWidth", "windowHeight", "pixelRatio", "safeArea",
     "safeAreaInsets", "statusBarHeight", "navigationBarHeight", "windowTop", "windowBottom"],
    "获取屏幕信息失败")

  const System := Source("systemInfo",
    ["platform", "system", "timezone", "timezoneOffset", "fontSizeSetting", "SDKVersion",
     "swanNativeVersion", "hostSDKVersion"],
    "获取系统信息失败")

  const Storage := Source("storageInfo", ["keys", "currentSize", "limitSize"], "获取存储信息失败")

  function Outcome(src: Source, reply: Settlement<PlatformResult>, now: int): (r: Settlement<Outcome>) {
    Reply(reply, res => Obj(Record(src.keys, res, now)), src.failure)
  }

  /** `collect()` of a field-copy collector. */
  method Collect(c: Collector, src: Source, reply: Settlement<PlatformResult>, now: int) returns (o: Settlement<Outcome>)
    modifies c
    ensures o == Outcome(src, reply, now)
    ensures c.data == CachedAfter(o, old(c.data))
  {
    match reply {
      case Pending =>
        o := Pending;
      case SettledAt(t, Ok(res)) =>
        if Nullish(res) {
          o := Pending;
        } else {
          c.data := Obj(Record(src.keys, res, now));
          o := SettledAt(t, Fulfilled(c.data));
        }
      case SettledAt(t, Err(m)) =>
        o := SettledAt(t, Rejected(ErrMsgOr(m, src.failure)));
    }
  }

  /**
    A successful copy holds exactly the source's keys and `timestamp`, each
    field read from the reply; a null reply never settles.
   */
  lemma CopiedRecord(src: Source, t: nat, res: Value, now: int)
    requires src in {Screen, System, Storage}
    ensures Nullish(res) ==> Outcome(src, SettledAt(t, Ok(res)), now).Pending?
    ensures !Nullish(res) ==> var o := Outcome(src, SettledAt(t, Ok(res)), now);
      && o == SettledAt(t, Fulfilled(o.result.value))
      && o.result.value.Obj?
      && o.result.value.fields.Keys == (set k | k in src.keys) + {"timestamp"}
      && (forall k :: k in src.keys ==> o.result.value.fields[k] == Prop(res, k))
  {
  }
}
