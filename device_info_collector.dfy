/**
  `DeviceInfoCollector`: one `uni.getSystemInfo` query, no timeout. The record
  copies the OS and ROM fields, and takes `brand` and `model` from the
  reply's own fields with `deviceBrand` and `deviceModel` as fallbacks.
 */
module DeviceInfoCollector {
  import opened Json
  import opened Collectors
  import FieldCopy

  const Name := "deviceInfo"
  const FailureMessage := "获取设备信息失败"

  /** The fields copied as they are. */
  const CopiedKeys := ["system", "platform", "deviceId", "deviceBrand", "deviceModel", "osName",
                       "osVersion", "osLanguage", "osTheme", "romName", "romVersion"]

  function DeviceRecord(res: Value, now: int): (r: Value) {
    Obj(FieldCopy.Record(CopiedKeys, res, now)
      ["brand" := JsOr(Prop(res, "brand"), Prop(res, "deviceBrand"))]
      ["model" := JsOr(Prop(res, "model"), Prop(res, "deviceModel"))])
  }

  function Outcome(reply: Settlement<PlatformResult>, now: int): (r: Settlement<Outcome>) {
    FieldCopy.Reply(reply, res => DeviceRecord(res, now), FailureMessage)
  }

  /** `collect()`: the success callback caches the record and resolves with that same object. */
  method Collect(c: Collector, reply: Settlement<PlatformResult>, now: int) returns (o: Settlement<Outcome>)
    modifies c
    ensures o == Outcome(reply, now)
    ensures c.data == FieldCopy.CachedAfter(o, old(c.data))
  {
    match reply {
      case Pending =>
        o := Pending;
      case SettledAt(t, Ok(res)) =>
        if Nullish(res) {
          o := Pending;
        } else {
          c.data := DeviceRecord(res, now);
          o := SettledAt(t, Fulfilled(c.data));
        }
      case SettledAt(t, Err(m)) =>
        o := SettledAt(t, Rejected(ErrMsgOr(m, FailureMessage)));
    }
  }

  /**
    `brand` is the reply's `brand` unless that is falsy, then `deviceBrand`;
    likewise `model` and `deviceModel`. The other fields are copied, plus `timestamp`.
   */
  lemma BrandAndModelFallbacks(res: Value, now: int)
    ensures var r := DeviceRecord(res, now).fields;
      && r.Keys == (set k | k in CopiedKeys) + {"brand", "model", "timestamp"}
      && r["brand"] == (if JsTruthy(Prop(res, "brand")) then Prop(res, "brand") else Prop(res, "deviceBrand"))
      && r["model"] == (if JsTruthy(Prop(res, "model")) then Prop(res, "model") else Prop(res, "deviceModel"))
      && (forall k :: k in CopiedKeys ==> r[k] == Prop(res, k))
      && r["timestamp"] == Num(now)
  {
    FallbacksNotCopied();
    WithFallbacks(CopiedKeys, res, now);
  }

  lemma FallbacksNotCopied()
    ensures "brand" !in CopiedKeys && "model" !in CopiedKeys
  {
  }

  /** The shape of a copied record with `brand` and `model` set after it, for any key list without them. */
  lemma WithFallbacks(keys: seq<string>, res: Value, now: int)
    requires "brand" !in keys && "model" !in keys
    ensures var r := FieldCopy.Record(keys, res, now)
        ["brand" := JsOr(Prop(res, "brand"), Prop(res, "deviceBrand"))]
        ["model" := JsOr(Prop(res, "model"), Prop(res, "deviceModel"))];
      && r.Keys == (set k | k in keys) + {"brand", "model", "timestamp"}
      && r["brand"] == (if JsTruthy(Prop(res, "brand")) then Prop(res, "brand") else Prop(res, "deviceBrand"))
      && r["model"] == (if JsTruthy(Prop(res, "model")) then Prop(res, "model") else Prop(res, "deviceModel"))
      && (forall k :: k in keys && k != "timestamp" ==> r[k] == Prop(res, k))
      && r["timestamp"] == Num(now)
  {
  }

  /**
    Without a timeout the outcome is decided by the callback alone: it never
    settles if the platform never calls back, or if a null success reply
    makes the callback throw.
   */
  lemma DecidedByCallback(reply: Settlement<PlatformResult>, now: int)
    ensures Outcome(reply, now).Pending? <==> reply.Pending? || (reply.result.Ok? && Nullish(reply.result.payload))
    ensures reply.SettledAt? && reply.result.Err? ==>
      Outcome(reply, now) == SettledAt(reply.time, Rejected(ErrMsgOr(reply.result.errMsg, FailureMessage)))
    ensures reply.SettledAt? && reply.result.Ok? && !Nullish(reply.result.payload) ==>
      Outcome(reply, now) == SettledAt(reply.time, Fulfilled(DeviceRecord(reply.result.payload, now)))
  {
  }
}
