/**
  `ForegroundAppCollector`: on Android, the most recently used entry of the
  last minute's usage statistics; on iOS and outside the app, a placeholder.
  Raced against a 5 s timeout.
 */
module ForegroundAppCollector {
  import opened Json
  import opened Collectors

  const Name := "foregroundApp"
  const Deadline: nat := 5000
  const TimeoutMessage := "收集前台APP信息超时（5秒）"
  const NoAndroidApi := "Android API不可用"
  const NoUsageStatsService := "无法获取UsageStatsManager服务，可能需要PACKAGE_USAGE_STATS权限"
  const NoRecentApp := "无法从使用统计中找到最近的应用"
  const EmptyStats := "使用统计为空，需要PACKAGE_USAGE_STATS权限"
  const ThrownPrefix := "获取前台APP失败: "
  const NotAvailable := "N/A"
  const NonAppNote := "当前平台不支持获取前台APP信息"
  const IosCurrentApp := "当前应用"
  const IosNote := "iOS平台需要特殊权限才能获取其他应用信息"
  const IosUnsupportedNote := "iOS平台不支持获取其他应用信息"

  /** The build the code was compiled for (the `#ifdef APP-PLUS-ANDROID` / `APP-PLUS-IOS` / `#ifndef APP-PLUS` blocks). */
  datatype Platform = Android | IOS | NonApp

  /** One `UsageStats` entry: `getLastTimeUsed()`, `getPackageName()`, `getClassName()`. */
  datatype UsageStat = UsageStat(lastTimeUsed: int, packageName: Value, className: Value)

  /**
    The Android platform: whether `plus.android` exists, the rendered
    `error.message || error` of an exception one of its calls throws (if any),
    whether the usage-stats service is returned, and the stats it reports
    (a null list is the empty list).
   */
  datatype AndroidEnv = AndroidEnv(hasPlusAndroid: bool, thrown: Option<string>, hasUsageStatsService: bool, stats: seq<UsageStat>)

  /** The iOS platform: whether `plus.runtime` exists, and its `appid`. */
  datatype IosEnv = IosEnv(hasPlusRuntime: bool, appid: Value)

  datatype Env = Env(platform: Platform, android: AndroidEnv, ios: IosEnv, now: int)

  /** The last-used time an optional choice stands for; no choice stands for the initial threshold 0. */
  function ChosenTime(stats: seq<UsageStat>, chosen: Option<nat>): (r: int)
    requires chosen.Some? ==> chosen.value < |stats|
  {
    if chosen.Some? then stats[chosen.value].lastTimeUsed else 0
  }

  /** The loop of `_collectAndroid` as a function: the choice after scanning `stats` left to right. */
  function LatestUse(stats: seq<UsageStat>): (chosen: Option<nat>)
    ensures chosen.Some? ==> chosen.value < |stats|
    decreases |stats|
  {
    if stats == [] then None
    else
      var before := LatestUse(stats[..|stats| - 1]);
      if stats[|stats| - 1].lastTimeUsed > ChosenTime(stats[..|stats| - 1], before) then Some(|stats| - 1) else before
  }

  /**
    The scan picks the entry with the strictly greatest last-used time, the
    earliest one among ties, and only a time above 0; it picks nothing
    exactly when no entry was used after time 0.
   */
  lemma {:induction false} LatestUseIsMostRecent(stats: seq<UsageStat>)
    ensures var c := LatestUse(stats);
      && (c.Some? ==> stats[c.value].lastTimeUsed > 0)
      && (c.Some? ==> forall j :: 0 <= j < |stats| ==> stats[j].lastTimeUsed <= stats[c.value].lastTimeUsed)
      && (c.Some? ==> forall j :: 0 <= j < c.value ==> stats[j].lastTimeUsed < stats[c.value].lastTimeUsed)
      && (c.None? <==> forall j :: 0 <= j < |stats| ==> stats[j].lastTimeUsed <= 0)
    decreases |stats|
  {
    if stats != [] {
      var init := stats[..|stats| - 1];
      LatestUseIsMostRecent(init);
      assert forall j :: 0 <= j < |init| ==> init[j] == stats[j];
    }
  }

  /** The `for` loop of `_collectAndroid`, keeping `mostRecent` and `mostRecentTime`. */
  method MostRecent(stats: seq<UsageStat>) returns (mostRecent: Option<nat>)
    ensures mostRecent == LatestUse(stats)
    ensures mostRecent.Some? ==> mostRecent.value < |stats| && stats[mostRecent.value].lastTimeUsed > 0
    ensures mostRecent.Some? ==> forall j :: 0 <= j < |stats| ==> stats[j].lastTimeUsed <= stats[mostRecent.value].lastTimeUsed
    ensures mostRecent.None? <==> forall j :: 0 <= j < |stats| ==> stats[j].lastTimeUsed <= 0
  {
    mostRecent := None;
    var mostRecentTime := 0;
    for i := 0 to |stats|
      invariant mostRecent == LatestUse(stats[..i])
      invariant mostRecentTime == ChosenTime(stats[..i], mostRecent)
    {
      assert stats[..i + 1][..i] == stats[..i];
      if stats[i].lastTimeUsed > mostRecentTime {
        mostRecentTime := stats[i].lastTimeUsed;
        mostRecent := Some(i);
      }
    }
    assert stats[..|stats|] == stats;
    LatestUseIsMostRecent(stats);
  }

  /** `{packageName, className, timestamp}` of the chosen stat; a falsy class name reads as 'N/A'. */
  function AndroidRecord(stat: UsageStat, now: int): (r: Value) {
    Obj(map["packageName" := stat.packageName, "className" := JsOr(stat.className, Str(NotAvailable)), "timestamp" := Num(now)])
  }

  /** `_collectAndroid` as an outcome: each missing piece rejects with its own message. */
  function AndroidOutcome(a: AndroidEnv, now: int): (r: Outcome) {
    if !a.hasPlusAndroid then Rejected(NoAndroidApi)
    else if a.thrown.Some? then Rejected(ThrownPrefix + a.thrown.value)
    else if !a.hasUsageStatsService then Rejected(NoUsageStatsService)
    else if a.stats == [] then Rejected(EmptyStats)
    else
      match LatestUse(a.stats)
      case None => Rejected(NoRecentApp)
      case Some(k) => Fulfilled(AndroidRecord(a.stats[k], now))
  }

  function PlaceholderRecord(packageName: Value, className: string, now: int, note: string): (r: Value) {
    Obj(map["packageName" := packageName, "className" := Str(className), "timestamp" := Num(now), "note" := Str(note)])
  }

  /** `_collectIOS`: never rejects; uses `plus.runtime.appid` when the runtime is there. */
  function IosRecord(i: IosEnv, now: int): (r: Value) {
    if i.hasPlusRuntime then PlaceholderRecord(i.appid, IosCurrentApp, now, IosNote)
    else PlaceholderRecord(Str(NotAvailable), NotAvailable, now, IosUnsupportedNote)
  }

  function NonAppRecord(now: int): (r: Value) {
    PlaceholderRecord(Str(NotAvailable), NotAvailable, now, NonAppNote)
  }

  /**
    `collectPromise`. Every branch calls `resolve` or `reject` synchronously
    inside the executor, so the promise is already settled when the race
    subscribes to it: it settles at time 0.
   */
  function Collection(env: Env): (r: Settlement<Outcome>) {
    match env.platform
    case Android => SettledAt(0, AndroidOutcome(env.android, env.now))
    case IOS => SettledAt(0, Fulfilled(IosRecord(env.ios, env.now)))
    case NonApp => SettledAt(0, Fulfilled(NonAppRecord(env.now)))
  }

  function Outcome(env: Env): (r: Settlement<Outcome>) {
    WithDeadline(Collection(env), Deadline, TimeoutMessage)
  }

  method CollectAndroid(c: Collector, a: AndroidEnv, now: int) returns (o: Outcome)
    modifies c
    ensures o == AndroidOutcome(a, now)
    ensures c.data == (if o.Fulfilled? then o.value else old(c.data))
  {
    if !a.hasPlusAndroid {
      return Rejected(NoAndroidApi);
    }
    if a.thrown.Some? {
      return Rejected(ThrownPrefix + a.thrown.value);
    }
    if !a.hasUsageStatsService {
      return Rejected(NoUsageStatsService);
    }
    if a.stats == [] {
      return Rejected(EmptyStats);
    }
    var mostRecent := MostRecent(a.stats);
    if mostRecent.Some? {
      c.data := AndroidRecord(a.stats[mostRecent.value], now);
      o := Fulfilled(c.data);
    } else {
      o := Rejected(NoRecentApp);
    }
  }

  /** `collect()`: the platform branch, caching any record it resolves with, raced against 5 s. */
  method Collect(c: Collector, env: Env) returns (o: Settlement<Outcome>)
    modifies c
    ensures o == Outcome(env)
    ensures c.data == (if o.result.Fulfilled? then o.result.value else old(c.data))
  {
    var result: Outcome;
    match env.platform {
      case Android =>
        result := CollectAndroid(c, env.android, env.now);
      case IOS =>
        c.data := IosRecord(env.ios, env.now);
        result := Fulfilled(c.data);
      case NonApp =>
        c.data := NonAppRecord(env.now);
        result := Fulfilled(c.data);
    }
    o := Race(SettledAt(0, result), TimeoutPromise(Deadline, TimeoutMessage));
  }

  /** Because the collection settles synchronously, the 5 s timeout never decides the outcome. */
  lemma NeverTimesOut(env: Env)
    ensures Outcome(env) == Collection(env) && Outcome(env).time == 0
  {
  }

  /** Only Android can reject; iOS and non-app builds always resolve a placeholder record. */
  lemma OnlyAndroidRejects(env: Env)
    ensures env.platform != Android ==> Outcome(env).result.Fulfilled?
    ensures env.platform == NonApp ==> Outcome(env).result.value.fields["packageName"] == Str(NotAvailable)
    ensures env.platform == IOS ==>
      Outcome(env).result.value.fields["packageName"] == (if env.ios.hasPlusRuntime then env.ios.appid else Str(NotAvailable))
  {
  }

  /** An Android success reports the package of an entry whose last use is the latest of all, and later than 0. */
  lemma {:induction false} AndroidSuccessIsMostRecent(a: AndroidEnv, now: int)
    requires AndroidOutcome(a, now).Fulfilled?
    ensures exists k :: (
      && 0 <= k < |a.stats|
      && AndroidOutcome(a, now).value == AndroidRecord(a.stats[k], now)
      && a.stats[k].lastTimeUsed > 0
      && forall j :: 0 <= j < |a.stats| ==> a.stats[j].lastTimeUsed <= a.stats[k].lastTimeUsed)
  {
    LatestUseIsMostRecent(a.stats);
    var k := LatestUse(a.stats).value;
    assert AndroidOutcome(a, now).value == AndroidRecord(a.stats[k], now);
  }
}
