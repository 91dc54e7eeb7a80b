/**
  `PushNotificationCollector`: builds `pushInfo` step by step (client id,
  plus enrichment, permission) and never rejects: even an error escaping the
  steps' own handlers is returned as data. No timeout.
 */
module PushNotificationCollector {
  import opened Json
  import opened Collectors

  const Name := "pushNotification"
  const CollectFailed := "收集推送信息失败"
  const UnknownPermissionNote := "无法检测推送权限状态"
  const WebNote := "Web环境不支持推送通知"

  /**
    `plus.push` on an APP-PLUS build (`present`): what `getClientInfo()`
    and `getAllMessage()` return, whether `getChannelInfo` is a function,
    what it returns or whether it throws, and which of the two unguarded
    calls (0: `getClientInfo`, 1: `getAllMessage`) throws, if any.
   */
  datatype PlusPush = PlusPush(
    present: bool,
    clientInfo: Value,
    messages: Value,
    hasChannelInfo: bool,
    channelInfo: Value,
    channelThrows: bool,
    throwsAt: Option<nat>)

  /**
    The permission check's platform: whether `plus.android` exists, the value of
    `areNotificationsEnabled()` (`None` when any of the Android calls throws),
    whether `uni.getSetting` is a function, and its reply.
   */
  datatype Permission = Permission(
    hasPlusAndroid: bool,
    androidEnabled: Option<Value>,
    hasGetSetting: bool,
    setting: Settlement<PlatformResult>)

  /** An exception that escapes the steps' own handlers after `after` of the three steps, with its `message`. */
  datatype Escape = Escape(after: nat, message: string)

  datatype Env = Env(
    now: int,
    appPlus: bool,
    hasGetPushClientId: bool,             // uni.getPushClientId is a function
    clientId: Settlement<PlatformResult>, // its reply
    plus: PlusPush,
    permission: Permission,
    escape: Option<Escape>)

  /** Step 1: `clientId` and `token`, `null` when absent; a failure (or a `null` reply) is only warned about. */
  function ClientIdFields(m: map<string, Value>, env: Env): (r: map<string, Value>)
    ensures m.Keys <= r.Keys
    ensures "timestamp" in m ==> r["timestamp"] == m["timestamp"]
  {
    if env.hasGetPushClientId && env.clientId.SettledAt? && env.clientId.result.Ok? && env.clientId.result.payload != Null then
      var res := env.clientId.result.payload;
      m["clientId" := JsOr(Prop(res, "cid"), Null)]["token" := JsOr(Prop(res, "token"), Null)]
    else m
  }

  function ClientIdDelay(env: Env): (r: Option<nat>) {
    if !env.hasGetPushClientId then Some(0)
    else if env.clientId.SettledAt? then Some(env.clientId.time)
    else None
  }

  /** `messages.length > 0 ? {title, content, payload, timestamp} : null`, from the last message. */
  function LatestMessage(items: seq<Value>): (r: Value) {
    if items == [] then Null
    else
      var last := items[|items| - 1];
      Obj(map["title" := JsOr(Prop(last, "title"), Null), "content" := JsOr(Prop(last, "content"), Null),
              "payload" := JsOr(Prop(last, "payload"), Null), "timestamp" := JsOr(Prop(last, "timestamp"), Null)])
  }

  /** Reading a property of the last message throws when that message is `null` or `undefined`. */
  predicate LastMessageUnreadable(items: seq<Value>) {
    items != [] && items[|items| - 1] == Null
  }

  function ChannelRecord(ch: Value): (r: Value) {
    Obj(map["id" := JsOr(Prop(ch, "id"), Null), "name" := JsOr(Prop(ch, "name"), Null),
            "description" := JsOr(Prop(ch, "description"), Null), "sound" := JsOr(Prop(ch, "sound"), Null),
            "vibrate" := JsOr(Prop(ch, "vibrate"), Null)])
  }

  /** Step 2, `_enhanceByPlus`: `pushService`, `recentMessages`, `channelInfo`, each after the previous one succeeded. */
  function PlusFields(m: map<string, Value>, p: PlusPush): (r: map<string, Value>)
    ensures m.Keys <= r.Keys
    ensures "timestamp" in m ==> r["timestamp"] == m["timestamp"]
  {
    if !p.present || p.throwsAt == Some(0) then m
    else
      var ci := p.clientInfo;
      var m1 := if JsTruthy(ci) then
        m["pushService" := Obj(map["clientid" := JsOr(Prop(ci, "clientid"), Null), "appid" := JsOr(Prop(ci, "appid"), Null),
                                   "token" := JsOr(Prop(ci, "token"), Null)])]
        else m;
      if p.throwsAt == Some(1) || (p.messages.Arr? && LastMessageUnreadable(p.messages.items)) then m1
      else
        var m2 := if p.messages.Arr? then
          m1["recentMessages" := Obj(map["count" := Num(|p.messages.items|), "latestMessage" := LatestMessage(p.messages.items)])]
          else m1;
        if p.hasChannelInfo && !p.channelThrows && p.channelInfo != Null then m2["channelInfo" := ChannelRecord(p.channelInfo)]
        else m2
  }

  /** The Android permission record, or the 'unknown' placeholder when a call threw. */
  function AndroidPermission(enabled: Option<Value>): (r: Value) {
    if enabled.Some? then Obj(map["enabled" := enabled.value, "platform" := Str("android")])
    else Obj(map["enabled" := Null, "platform" := Str("unknown"), "note" := Str(UnknownPermissionNote)])
  }

  const WebPermission := Obj(map["enabled" := Null, "platform" := Str("web"), "note" := Str(WebNote)])

  /** Step 3, `_checkPushPermission`. */
  function PermissionFields(m: map<string, Value>, env: Env): (r: map<string, Value>)
    ensures m.Keys <= r.Keys
    ensures "timestamp" in m ==> r["timestamp"] == m["timestamp"]
  {
    var p := env.permission;
    if !env.appPlus then m["permission" := WebPermission]
    else if p.hasPlusAndroid then m["permission" := AndroidPermission(p.androidEnabled)]
    else if p.hasGetSetting && p.setting.SettledAt? && p.setting.result.Ok? && JsTruthy(Prop(p.setting.result.payload, "authSetting")) then
      var auth := Prop(p.setting.result.payload, "authSetting");
      m["permission" := Obj(map["notification" := JsOr(Prop(auth, "scope.notification"), Null), "platform" := Str("uni-app")])]
    else m
  }

  function PermissionDelay(env: Env): (r: Option<nat>) {
    var p := env.permission;
    if !env.appPlus || p.hasPlusAndroid || !p.hasGetSetting then Some(0)
    else if p.setting.SettledAt? then Some(p.setting.time)
    else None
  }

  /** The fields after the first `k` steps. */
  function Steps(env: Env, k: nat): (r: map<string, Value>) {
    var m0 := map["timestamp" := Num(env.now)];
    var m1 := if k >= 1 then ClientIdFields(m0, env) else m0;
    var m2 := if k >= 2 then PlusFields(m1, if env.appPlus then env.plus else env.plus.(present := false)) else m1;
    if k >= 3 then PermissionFields(m2, env) else m2
  }

  /** How long the steps take before an escape (or to the end): `None` if an awaited callback never comes. */
  function Delay(env: Env): (r: Option<nat>) {
    var upTo := if env.escape.Some? then env.escape.value.after else 3;
    var d1 := if upTo >= 1 then ClientIdDelay(env) else Some(0);
    var d3 := if upTo >= 3 then PermissionDelay(env) else Some(0);
    if d1.None? || d3.None? then None else Some(d1.value + d3.value)
  }

  /** The record `collect()` returns and caches. */
  function PushRecord(env: Env): (r: Value) {
    match env.escape
    case None => Obj(Steps(env, 3))
    case Some(e) => Obj(Steps(env, e.after)["error" := Str(ErrMsgOr(e.message, CollectFailed))])
  }

  function Outcome(env: Env): (r: Settlement<Outcome>) {
    match Delay(env)
    case None => Pending
    case Some(d) => SettledAt(d, Fulfilled(PushRecord(env)))
  }

  /** Step 2 as the code runs it: the outer `try` left at the first throw, the channel `try` swallowing its own. */
  method EnhanceByPlus(info: map<string, Value>, p: PlusPush) returns (updated: map<string, Value>)
    ensures updated == PlusFields(info, p)
  {
    updated := info;
    if !p.present || p.throwsAt == Some(0) {
      return;
    }
    var pushService := p.clientInfo;
    if JsTruthy(pushService) {
      updated := updated["pushService" := Obj(map[
        "clientid" := JsOr(Prop(pushService, "clientid"), Null),
        "appid" := JsOr(Prop(pushService, "appid"), Null),
        "token" := JsOr(Prop(pushService, "token"), Null)])];
    }
    if p.throwsAt == Some(1) {
      return;
    }
    var messages := p.messages;
    if messages.Arr? {
      if LastMessageUnreadable(messages.items) {
        return;
      }
      updated := updated["recentMessages" := Obj(map["count" := Num(|messages.items|), "latestMessage" := LatestMessage(messages.items)])];
    }
    if p.hasChannelInfo && !p.channelThrows && p.channelInfo != Null {
      updated := updated["channelInfo" := ChannelRecord(p.channelInfo)];
    }
  }

  /** `collect()`: the three steps, their awaited time, and the escape handler. */
  method Collect(c: Collector, env: Env) returns (o: Settlement<Outcome>)
    modifies c
    ensures o == Outcome(env)
    ensures o.SettledAt? ==> c.data == o.result.value
    ensures o.Pending? ==> c.data == old(c.data)
  {
    var upTo := if env.escape.Some? then env.escape.value.after else 3;
    var pushInfo: map<string, Value> := map["timestamp" := Num(env.now)];
    var elapsed := 0;
    if upTo >= 1 {
      var d := ClientIdDelay(env);
      if d.None? {
        return Pending;
      }
      elapsed := d.value;
      pushInfo := ClientIdFields(pushInfo, env);
    }
    if upTo >= 2 {
      pushInfo := EnhanceByPlus(pushInfo, if env.appPlus then env.plus else env.plus.(present := false));
    }
    if upTo >= 3 {
      var d := PermissionDelay(env);
      if d.None? {
        return Pending;
      }
      elapsed := elapsed + d.value;
      pushInfo := PermissionFields(pushInfo, env);
    }
    if env.escape.Some? {
      pushInfo := pushInfo["error" := Str(ErrMsgOr(env.escape.value.message, CollectFailed))];
    }
    c.data := Obj(pushInfo);
    o := SettledAt(elapsed, Fulfilled(c.data));
  }

  /** No step adds or changes `timestamp`. */
  lemma StepsKeepTimestamp(env: Env, k: nat)
    ensures "timestamp" in Steps(env, k) && Steps(env, k)["timestamp"] == Num(env.now)
  {
  }

  /**
    `collect()` never rejects, and its `timestamp` is the one taken before any
    query; it stays pending only while an awaited callback never comes.
   */
  lemma NeverRejects(env: Env)
    ensures Outcome(env).SettledAt? ==> Outcome(env).result.Fulfilled?
    ensures Outcome(env).SettledAt? ==> Outcome(env).result.value.fields["timestamp"] == Num(env.now)
    ensures Outcome(env).Pending? ==>
      (env.hasGetPushClientId && env.clientId.Pending?) ||
      (env.appPlus && !env.permission.hasPlusAndroid && env.permission.hasGetSetting && env.permission.setting.Pending?)
  {
    StepsKeepTimestamp(env, if env.escape.Some? then env.escape.value.after else 3);
  }

  /** A failed client-id query leaves the record as if the API did not exist. */
  lemma ClientIdFailureOnlyWarns(env: Env)
    requires env.clientId.SettledAt? && env.clientId.result.Err?
    ensures PushRecord(env) == PushRecord(env.(hasGetPushClientId := false))
  {
  }

  /**
    `recentMessages.count` is the length of the message list and
    `latestMessage` comes from its last element, `null` for an empty list.
   */
  lemma RecentMessagesCount(m: map<string, Value>, p: PlusPush)
    requires p.present && p.throwsAt.None? && p.messages.Arr? && !LastMessageUnreadable(p.messages.items)
    ensures var r := PlusFields(m, p)["recentMessages"];
      && r.Obj? && r.fields["count"] == Num(|p.messages.items|)
      && (r.fields["latestMessage"] == Null <==> p.messages.items == [])
  {
  }

  /** A channel-info failure only leaves `channelInfo` unset: the rest is as if there were no channel API. */
  lemma ChannelFailureIgnored(m: map<string, Value>, p: PlusPush)
    requires p.channelThrows && "channelInfo" !in m
    ensures "channelInfo" !in PlusFields(m, p)
    ensures PlusFields(m, p) == PlusFields(m, p.(hasChannelInfo := false))
  {
  }

  /** The permission record on each kind of build. */
  lemma PermissionByPlatform(m: map<string, Value>, env: Env)
    ensures !env.appPlus ==> PermissionFields(m, env)["permission"] == WebPermission
    ensures env.appPlus && env.permission.hasPlusAndroid && env.permission.androidEnabled.None? ==>
      PermissionFields(m, env)["permission"] == Obj(map["enabled" := Null, "platform" := Str("unknown"), "note" := Str(UnknownPermissionNote)])
    ensures env.appPlus && env.permission.hasPlusAndroid && env.permission.androidEnabled.Some? ==>
      PermissionFields(m, env)["permission"] == Obj(map["enabled" := env.permission.androidEnabled.value, "platform" := Str("android")])
  {
  }

  /** An escaping error is returned as data: the fields gathered so far plus `error`. */
  lemma EscapeReturnsGathered(env: Env)
    requires env.escape.Some?
    ensures PushRecord(env).fields == Steps(env, env.escape.value.after)["error" := Str(ErrMsgOr(env.escape.value.message, CollectFailed))]
  {
  }
}
