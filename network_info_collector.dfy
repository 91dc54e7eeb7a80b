/**
  `NetworkInfoCollector`: `uni.getNetworkType`, with Wi-Fi details queried
  only on Wi-Fi, then a best-effort `plus.networkinfo` enrichment. No timeout.
  The record `networkInfo` is mutated in place by the two helpers; here it is
  a map each helper takes and gives back.
 */
module NetworkInfoCollector {
  import opened Json
  import opened Collectors
  import FieldCopy

  const Name := "networkInfo"
  const FailureMessage := "获取网络信息失败"

  /** How `uni.startWifi` behaves: it calls back (`success` or `fail`, alike) after `delay`, never, or throws. */
  datatype StartWifi = StartReplied(delay: nat) | StartSilent | StartThrew

  /** How `uni.getConnectedWifi` behaves: success with `wifiRes.wifi`, `fail`, no callback, or a throw. */
  datatype ConnectedWifi = Connected(delay: nat, wifi: Value) | ConnectFailed(delay: nat) | ConnectSilent | ConnectThrew

  /** `uni.getConnectedWifi` is a function (`available`), and `uni.startWifi` is (`hasStartWifi`). */
  datatype Wifi = Wifi(available: bool, hasStartWifi: bool, start: StartWifi, connected: ConnectedWifi)

  /**
    `plus.networkinfo` on an APP-PLUS build (`present`); each of its three
    functions is `None` when it is not a function, or the value it returns;
    `throwsAt` names the call (0, 1 or 2, in program order) that throws, if any.
   */
  datatype PlusNet = PlusNet(present: bool, currentType: Option<Value>, isMetered: Option<Value>, wifiInfo: Option<Value>, throwsAt: Option<nat>)

  datatype Env = Env(reply: Settlement<PlatformResult>, now: int, wifi: Wifi, plus: PlusNet)

  /** `{ssid, bssid, secure, signalStrength, frequency}` from `wifiRes.wifi`. */
  function QueriedWifiRecord(w: Value): (r: Value) {
    Obj(map["ssid" := Prop(w, "SSID"), "bssid" := Prop(w, "BSSID"), "secure" := Prop(w, "secure"),
            "signalStrength" := Prop(w, "signalStrength"), "frequency" := Prop(w, "frequency")])
  }

  /** The same shape from `plus.networkinfo.getWifiInfo()`, whose properties are lower-case. */
  function PlusWifiRecord(w: Value): (r: Value) {
    Obj(map["ssid" := Prop(w, "ssid"), "bssid" := Prop(w, "bssid"), "secure" := Prop(w, "secure"),
            "signalStrength" := Prop(w, "signalStrength"), "frequency" := Prop(w, "frequency")])
  }

  /**
    How long `_collectWifiInfo` takes, or `None` if it never finishes: when a
    callback never comes, or when a success reply has no `wifi` object, so
    that reading `wifi.SSID` throws inside the callback, outside the `try`.
   */
  function WifiDelay(w: Wifi): (r: Option<nat>) {
    if !w.available then Some(0)
    else
      var startDelay: Option<nat> :=
        if !w.hasStartWifi then Some(0)
        else match w.start
          case StartReplied(d) => Some(d)
          case StartSilent => None
          case StartThrew => Some(0);
      if startDelay.None? then None
      else if w.hasStartWifi && w.start.StartThrew? then Some(0)
      else match w.connected
        case Connected(d, wifi) => if wifi == Null then None else Some(startDelay.value + d)
        case ConnectFailed(d) => Some(startDelay.value + d)
        case ConnectSilent => None
        case ConnectThrew => Some(startDelay.value)
  }

  /** The record after `_collectWifiInfo`: `wifiInfo` is set only by a successful query. */
  function WifiFields(m: map<string, Value>, w: Wifi): (r: map<string, Value>) {
    if w.available && (w.hasStartWifi ==> w.start.StartReplied?) && w.connected.Connected? && w.connected.wifi != Null
    then m["wifiInfo" := QueriedWifiRecord(w.connected.wifi)]
    else m
  }

  predicate Throws(p: PlusNet, step: nat) {
    p.throwsAt == Some(step)
  }

  /** The record after `_enhanceByPlus`: each step runs unless an earlier call threw. */
  function PlusFields(m: map<string, Value>, p: PlusNet): (r: map<string, Value>) {
    if !p.present then m
    else if p.currentType.Some? && Throws(p, 0) then m
    else
      var m1 := if p.currentType.Some? then m["currentType" := p.currentType.value] else m;
      if p.isMetered.Some? && Throws(p, 1) then m1
      else
        var m2 := if p.isMetered.Some? then m1["isMetered" := p.isMetered.value] else m1;
        if "wifiInfo" in m2 || p.wifiInfo.None? || Throws(p, 2) || !JsTruthy(p.wifiInfo.value) then m2
        else m2["wifiInfo" := PlusWifiRecord(p.wifiInfo.value)]
  }

  function BaseRecord(res: Value, now: int): (r: map<string, Value>) {
    map["networkType" := Prop(res, "networkType"), "timestamp" := Num(now)]
  }

  predicate IsWifi(res: Value) {
    Prop(res, "networkType") == Str("wifi")
  }

  /** What `collect()` settles with, and when; a null reply throws in the success callback and never settles. */
  function Outcome(env: Env): (r: Settlement<Outcome>) {
    match env.reply
    case Pending => Pending
    case SettledAt(t, Err(m)) => SettledAt(t, Rejected(ErrMsgOr(m, FailureMessage)))
    case SettledAt(t, Ok(res)) =>
      if Nullish(res) then Pending
      else
      var base := BaseRecord(res, env.now);
      if IsWifi(res) then
        match WifiDelay(env.wifi)
        case None => Pending
        case Some(d) => SettledAt(t + d, Fulfilled(Obj(PlusFields(WifiFields(base, env.wifi), env.plus))))
      else SettledAt(t, Fulfilled(Obj(PlusFields(base, env.plus))))
  }

  /** `_collectWifiInfo(networkInfo)`; `done` is `None` when the helper never returns. */
  method CollectWifiInfo(info: map<string, Value>, w: Wifi) returns (updated: map<string, Value>, done: Option<nat>)
    ensures updated == WifiFields(info, w)
    ensures done == WifiDelay(w)
  {
    updated := info;
    if !w.available {
      return updated, Some(0);
    }
    var elapsed := 0;
    if w.hasStartWifi {
      match w.start {
        case StartReplied(d) =>
          elapsed := d;
        case StartSilent =>
          return updated, None;
        case StartThrew =>
          return updated, Some(0);
      }
    }
    match w.connected {
      case Connected(d, wifi) =>
        if wifi == Null {
          return updated, None;
        }
        updated := updated["wifiInfo" := QueriedWifiRecord(wifi)];
        done := Some(elapsed + d);
      case ConnectFailed(d) =>
        done := Some(elapsed + d);
      case ConnectSilent =>
        done := None;
      case ConnectThrew =>
        done := Some(elapsed);
    }
  }

  /** `_enhanceByPlus(networkInfo)`: the `try` block, left at the first call that throws. */
  method EnhanceByPlus(info: map<string, Value>, p: PlusNet) returns (updated: map<string, Value>)
    ensures updated == PlusFields(info, p)
  {
    updated := info;
    if !p.present {
      return;
    }
    if p.currentType.Some? {
      if Throws(p, 0) {
        return;
      }
      updated := updated["currentType" := p.currentType.value];
    }
    if p.isMetered.Some? {
      if Throws(p, 1) {
        return;
      }
      updated := updated["isMetered" := p.isMetered.value];
    }
    if "wifiInfo" !in updated && p.wifiInfo.Some? {
      if Throws(p, 2) {
        return;
      }
      if JsTruthy(p.wifiInfo.value) {
        updated := updated["wifiInfo" := PlusWifiRecord(p.wifiInfo.value)];
      }
    }
  }

  /** `collect()`: the record is cached only once both helpers have run. */
  method Collect(c: Collector, env: Env) returns (o: Settlement<Outcome>)
    modifies c
    ensures o == Outcome(env)
    ensures c.data == FieldCopy.CachedAfter(o, old(c.data))
  {
    match env.reply {
      case Pending =>
        o := Pending;
      case SettledAt(t, Err(m)) =>
        o := SettledAt(t, Rejected(ErrMsgOr(m, FailureMessage)));
      case SettledAt(t, Ok(res)) =>
        if Nullish(res) {
          return Pending;
        }
        var networkInfo := BaseRecord(res, env.now);
        var elapsed := 0;
        if IsWifi(res) {
          var done;
          networkInfo, done := CollectWifiInfo(networkInfo, env.wifi);
          if done.None? {
            return Pending;
          }
          elapsed := done.value;
        }
        networkInfo := EnhanceByPlus(networkInfo, env.plus);
        c.data := Obj(networkInfo);
        o := SettledAt(t + elapsed, Fulfilled(c.data));
    }
  }

  /**
    `collect()` rejects exactly when `getNetworkType` fails, with its `errMsg`
    or the default; no Wi-Fi or plus failure ever turns into a rejection.
   */
  lemma RejectsOnlyWhenQueryFails(env: Env)
    ensures (Outcome(env).SettledAt? && Outcome(env).result.Rejected?) <==> (env.reply.SettledAt? && env.reply.result.Err?)
    ensures env.reply.SettledAt? && env.reply.result.Err? ==>
      Outcome(env) == SettledAt(env.reply.time, Rejected(ErrMsgOr(env.reply.result.errMsg, FailureMessage)))
  {
  }

  /**
    Wi-Fi details are queried only when `networkType` is 'wifi': otherwise the
    Wi-Fi platform does not matter, and the outcome settles with the type
    query, unless its reply is null and the callback throws.
   */
  lemma WifiQueriedOnlyOnWifi(env: Env, other: Wifi)
    requires env.reply.SettledAt? && env.reply.result.Ok? && !IsWifi(env.reply.result.payload)
    ensures Outcome(env) == Outcome(env.(wifi := other))
    ensures Nullish(env.reply.result.payload) ==> Outcome(env).Pending?
    ensures !Nullish(env.reply.result.payload) ==> Outcome(env).SettledAt? && Outcome(env).time == env.reply.time
  {
  }

  /**
    The plus enrichment keeps `networkType`, `timestamp` and a `wifiInfo`
    already queried, and adds nothing but `currentType`, `isMetered` and a
    missing `wifiInfo`.
   */
  lemma PlusOnlyFillsGaps(m: map<string, Value>, p: PlusNet)
    ensures forall k :: k in m && k != "currentType" && k != "isMetered" ==> k in PlusFields(m, p) && PlusFields(m, p)[k] == m[k]
    ensures PlusFields(m, p).Keys <= m.Keys + {"currentType", "isMetered", "wifiInfo"}
    ensures p.currentType.Some? && p.throwsAt.None? && p.present ==> PlusFields(m, p)["currentType"] == p.currentType.value
  {
  }

  /** A successful Wi-Fi query's `wifiInfo` survives the enrichment, whether or not `startWifi` was called first (when it was, it replied); on success the record is what is cached. */
  lemma QueriedWifiKept(env: Env)
    requires env.reply.SettledAt? && env.reply.result.Ok? && IsWifi(env.reply.result.payload)
    requires env.wifi.available && (env.wifi.hasStartWifi ==> env.wifi.start.StartReplied?)
    requires env.wifi.connected.Connected? && env.wifi.connected.wifi != Null
    ensures Outcome(env).SettledAt? && Outcome(env).result.Fulfilled?
    ensures Outcome(env).result.value.fields["wifiInfo"] == QueriedWifiRecord(env.wifi.connected.wifi)
    ensures Outcome(env).result.value.fields["networkType"] == Str("wifi")
  {
    var base := BaseRecord(env.reply.result.payload, env.now);
    PlusOnlyFillsGaps(WifiFields(base, env.wifi), env.plus);
  }
}
