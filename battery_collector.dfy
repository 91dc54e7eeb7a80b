/**
  `BatteryCollector`: `uni.getBatteryInfo` first, `plus.battery` as the
  fallback, the whole chain raced against a 5 s timeout.
 */
module BatteryCollector {
  import opened Json
  import opened Collectors

  const Name := "battery"
  const Deadline: nat := 5000
  const TimeoutMessage := "收集电量信息超时（5秒）"
  const PlusFailurePrefix := "获取电量信息失败: "
  const UnsupportedPrefix := "当前平台不支持获取电量信息: "
  const UnknownError := "未知错误"
  const PlusUnavailable := "API不可用"
  const UniUnavailable := "uni.getBatteryInfo不可用"

  /** What `plus.battery.getCurrentBatteryInfo` calls back with: the info object, or the error it passes (as text). */
  datatype PlusReply = PlusInfo(info: Value) | PlusError(error: string)

  /**
    The platform as this collector sees it. `secondary` is timed from the
    moment the chain falls back to `plus.battery`.
   */
  datatype Env = Env(
    hasGetBatteryInfo: bool,                // typeof uni.getBatteryInfo === 'function'
    primary: Settlement<PlatformResult>,    // uni.getBatteryInfo's callback
    appPlus: bool,                          // the build is APP-PLUS
    hasPlusBattery: bool,                   // plus.battery.getCurrentBatteryInfo exists
    secondary: Settlement<PlusReply>)       // plus.battery's callback

  /** The record both sources produce: `{level, isCharging, timestamp}`. */
  function BatteryRecord(info: Value, now: int): (r: Value) {
    Obj(map["level" := Prop(info, "level"), "isCharging" := Prop(info, "isCharging"), "timestamp" := Num(now)])
  }

  /** `${a || b || c}` for the message of a failed fallback. */
  function FirstNonEmpty(a: string, b: string, c: string): (r: string) {
    if a != "" then a else if b != "" then b else c
  }

  /** `_collectByPlus(resolve, reject, previousError)`, entered `at` ms after `collect()` began. */
  function ByPlus(env: Env, at: nat, previousErrMsg: string, now: int): (r: Settlement<Outcome>) {
    if !env.appPlus then
      SettledAt(at, Rejected(UnsupportedPrefix + ErrMsgOr(previousErrMsg, UniUnavailable)))
    else if !env.hasPlusBattery then
      SettledAt(at, Rejected(UnsupportedPrefix + ErrMsgOr(previousErrMsg, PlusUnavailable)))
    else
      match env.secondary
      case Pending => Pending
      case SettledAt(d, PlusInfo(info)) =>
        // `info.level` on a null `info` throws inside the callback: nothing is cached or settled
        if Nullish(info) then Pending else SettledAt(at + d, Fulfilled(BatteryRecord(info, now)))
      case SettledAt(d, PlusError(e)) => SettledAt(at + d, Rejected(PlusFailurePrefix + FirstNonEmpty(previousErrMsg, e, UnknownError)))
  }

  /** `collectPromise`: the primary source, falling back to the secondary on failure or absence. */
  function Collection(env: Env, now: int): (r: Settlement<Outcome>) {
    if !env.hasGetBatteryInfo then ByPlus(env, 0, "", now)
    else
      match env.primary
      case Pending => Pending
      case SettledAt(t, Ok(res)) => if Nullish(res) then Pending else SettledAt(t, Fulfilled(BatteryRecord(res, now)))
      case SettledAt(t, Err(m)) => ByPlus(env, t, m, now)
  }

  /** What `collect()` settles with. */
  function Outcome(env: Env, now: int): (r: Settlement<Outcome>) {
    WithDeadline(Collection(env, now), Deadline, TimeoutMessage)
  }

  /** The cache once every callback has run: the record of whichever source succeeded, even after a timeout. */
  function Cached(env: Env, now: int, previous: Value): (r: Value) {
    match Collection(env, now)
    case SettledAt(_, Fulfilled(v)) => v
    case _ => previous
  }

  method CollectByPlus(c: Collector, env: Env, at: nat, previousErrMsg: string, now: int) returns (s: Settlement<Outcome>)
    modifies c
    ensures s == ByPlus(env, at, previousErrMsg, now)
    ensures c.data == (if s.SettledAt? && s.result.Fulfilled? then s.result.value else old(c.data))
  {
    if !env.appPlus {
      s := SettledAt(at, Rejected(UnsupportedPrefix + ErrMsgOr(previousErrMsg, UniUnavailable)));
      return;
    }
    if !env.hasPlusBattery {
      s := SettledAt(at, Rejected(UnsupportedPrefix + ErrMsgOr(previousErrMsg, PlusUnavailable)));
      return;
    }
    match env.secondary
    case Pending =>
      s := Pending;
    case SettledAt(d, PlusInfo(info)) =>
      if Nullish(info) {
        s := Pending;
      } else {
        c.data := BatteryRecord(info, now);
        s := SettledAt(at + d, Fulfilled(c.data));
      }
    case SettledAt(d, PlusError(e)) =>
      s := SettledAt(at + d, Rejected(PlusFailurePrefix + FirstNonEmpty(previousErrMsg, e, UnknownError)));
  }

  /** `collect()`: runs the chain, caching a successful record in `c.data`, and races it against the timeout. */
  method Collect(c: Collector, env: Env, now: int) returns (o: Settlement<Outcome>)
    modifies c
    ensures o == Outcome(env, now)
    ensures c.data == Cached(env, now, old(c.data))
  {
    var collection: Settlement<Outcome>;
    if !env.hasGetBatteryInfo {
      collection := CollectByPlus(c, env, 0, "", now);
    } else {
      match env.primary
      case Pending =>
        collection := Pending;
      case SettledAt(t, Ok(res)) =>
        if Nullish(res) {
          collection := Pending;
        } else {
          c.data := BatteryRecord(res, now);
          collection := SettledAt(t, Fulfilled(c.data));
        }
      case SettledAt(t, Err(m)) =>
        collection := CollectByPlus(c, env, t, m, now);
    }
    o := Race(collection, TimeoutPromise(Deadline, TimeoutMessage));
  }

  /** The collector always settles, by the 5 s deadline, with a battery record or a message. */
  lemma {:induction false} OutcomeWithinDeadline(env: Env, now: int)
    ensures Outcome(env, now).SettledAt? && Outcome(env, now).time <= Deadline
    ensures Outcome(env, now).result.Fulfilled? ==>
      exists info :: Outcome(env, now).result.value == BatteryRecord(info, now)
  {
    match Collection(env, now)
    case Pending =>
    case SettledAt(t, o) =>
      if t <= Deadline && o.Fulfilled? {
        if !env.hasGetBatteryInfo || env.primary.result.Err? {
          assert o.value == BatteryRecord(env.secondary.result.info, now);
        } else {
          assert o.value == BatteryRecord(env.primary.result.payload, now);
        }
      }
  }

  /**
    A primary success within the deadline is cached and returned as
    `{level, isCharging, timestamp}`; a null reply throws in the callback
    instead, so the cache is untouched and the timeout wins.
   */
  lemma PrimarySuccess(env: Env, now: int, t: nat, res: Value, previous: Value)
    requires env.hasGetBatteryInfo && env.primary == SettledAt(t, Ok(res)) && t <= Deadline
    ensures !Nullish(res) ==> Outcome(env, now) == SettledAt(t, Fulfilled(BatteryRecord(res, now)))
    ensures !Nullish(res) ==> Cached(env, now, previous) == BatteryRecord(res, now)
    ensures Nullish(res) ==> Outcome(env, now) == SettledAt(Deadline, Rejected(TimeoutMessage)) && Cached(env, now, previous) == previous
    ensures BatteryRecord(res, now).fields["level"] == Prop(res, "level")
    ensures BatteryRecord(res, now).fields["isCharging"] == Prop(res, "isCharging")
  {
  }

  /**
    When both sources fail, the message names the primary `errMsg` if there is
    one, else the secondary error, else '未知错误': one context, never both, so
    the secondary error does not change it once the primary has an `errMsg`.
   */
  lemma FallbackFailureCarriesOneContext(env: Env, now: int, t: nat, m: string, d: nat, e1: string, e2: string)
    requires env.hasGetBatteryInfo && env.primary == SettledAt(t, Err(m))
    requires env.appPlus && env.hasPlusBattery && t + d <= Deadline
    requires m != ""
    ensures Outcome(env.(secondary := SettledAt(d, PlusError(e1))), now)
         == Outcome(env.(secondary := SettledAt(d, PlusError(e2))), now)
         == SettledAt(t + d, Rejected(PlusFailurePrefix + m))
  {
  }

  /**
    A secondary success after a primary failure produces the same record
    shape from the plus info, and caches it; a null `info` throws in the
    callback, so the cache is untouched and the timeout wins.
   */
  lemma FallbackSuccess(env: Env, now: int, t: nat, m: string, d: nat, info: Value, previous: Value)
    requires env.hasGetBatteryInfo && env.primary == SettledAt(t, Err(m))
    requires env.appPlus && env.hasPlusBattery && env.secondary == SettledAt(d, PlusInfo(info))
    requires t + d <= Deadline
    ensures !Nullish(info) ==> Outcome(env, now) == SettledAt(t + d, Fulfilled(BatteryRecord(info, now)))
    ensures !Nullish(info) ==> Cached(env, now, previous) == BatteryRecord(info, now)
    ensures Nullish(info) ==> Outcome(env, now) == SettledAt(Deadline, Rejected(TimeoutMessage)) && Cached(env, now, previous) == previous
  {
  }

  /** Without `plus.battery`, or outside APP-PLUS, the collector rejects as unsupported, naming the primary error if any. */
  lemma UnsupportedPlatform(env: Env, now: int)
    requires !env.hasGetBatteryInfo || (env.primary.SettledAt? && env.primary.result.Err?)
    requires !env.appPlus || !env.hasPlusBattery
    requires env.hasGetBatteryInfo ==> env.primary.time <= Deadline
    ensures var prev := if env.hasGetBatteryInfo then env.primary.result.errMsg else "";
      Outcome(env, now).result ==
        Rejected(UnsupportedPrefix + ErrMsgOr(prev, if env.appPlus then PlusUnavailable else UniUnavailable))
  {
  }
}
