/**
  `DataSender`: the device identity, the single-flight upload of a snapshot,
  the classification of the server's reply, and the repeating timer that
  runs a collect-and-send cycle.

  `uni.request` is a parameter (the `Transport` it ends with), the key/value
  store is a `Storage` object whose failures are parameters, `Date.now()` and
  `Math.random().toString(36)` are parameters, and timers are explicit calls:
  `Tick` is the repeating timer firing.
 */
module Delivery {
  import opened Json
  import opened Text
  import opened Collectors
  import Registry

  const DefaultServerUrl := "http://10.228.98.116:8000"
  const DefaultInterval: int := 300000
  const DeviceIdKey := "device_id"
  const IdPrefix := "device_"
  const SubmitPath := "/api/submit"
  const HealthPath := "/health"
  const BusyMessage := "正在发送中"
  const ServerErrorPrefix := "服务器返回错误: "
  const NetworkError := "网络错误"
  /** The `message` of the TypeError that reading `data.timestamp` of a null snapshot throws. */
  const NullReadMessage := "Cannot read properties of null (reading 'timestamp')"

  // ---------------------------------------------------------------- device id

  /** The two inputs of `generateDeviceId()`: `Date.now()` and `Math.random().toString(36)`. */
  datatype IdSeed = IdSeed(now: nat, random36: string)

  /** `device_${timestamp}_${random.substring(2, 15)}`. */
  function GenerateDeviceId(seed: IdSeed): (r: string) {
    IdPrefix + NatToString(seed.now) + "_" + Substring(seed.random36, 2, 15)
  }

  /** The id is the prefix, the decimal timestamp, '_', and at most 13 characters of the random string. */
  lemma GeneratedIdShape(seed: IdSeed)
    ensures var id := GenerateDeviceId(seed);
      var digits := NatToString(seed.now);
      && StartsWith(id, IdPrefix)
      && id[|IdPrefix|..|IdPrefix| + |digits|] == digits
      && ParseDigits(id[|IdPrefix|..|IdPrefix| + |digits|]) == seed.now
      && id[|IdPrefix| + |digits|] == '_'
      && |id| <= |IdPrefix| + |digits| + 1 + 13
  {
    ParseNatToString(seed.now);
  }

  lemma DigitsHaveNoUnderscore(n: nat)
    ensures !Contains(NatToString(n), '_')
  {
  }

  /** Ids generated at different milliseconds differ, whatever the random parts: the timestamp can be read back. */
  lemma GeneratedIdsDetermineTimestamp(a: IdSeed, b: IdSeed)
    requires GenerateDeviceId(a) == GenerateDeviceId(b)
    ensures a.now == b.now
    ensures Substring(a.random36, 2, 15) == Substring(b.random36, 2, 15)
  {
    var ra := Substring(a.random36, 2, 15);
    var rb := Substring(b.random36, 2, 15);
    var da := NatToString(a.now);
    var db := NatToString(b.now);
    assert GenerateDeviceId(a) == IdPrefix + (da + ['_'] + ra);
    assert GenerateDeviceId(b) == IdPrefix + (db + ['_'] + rb);
    assert da + ['_'] + ra == GenerateDeviceId(a)[|IdPrefix|..];
    assert db + ['_'] + rb == GenerateDeviceId(b)[|IdPrefix|..];
    DigitsHaveNoUnderscore(a.now);
    DigitsHaveNoUnderscore(b.now);
    SplitAtFirst(da, ra, db, rb, '_');
    NatToStringInjective(a.now, b.now);
  }

  /** The key/value store behind `uni.getStorageSync` and `uni.setStorageSync`; a missing key reads as ''. */
  class Storage {
    var entries: map<string, Value>

    constructor (entries: map<string, Value>)
      ensures this.entries == entries
    {
      this.entries := entries;
    }

    /** `uni.getStorageSync(key)`. */
    method Read(key: string) returns (v: Value)
      ensures v == GetOr(entries, key, Str(""))
    {
      v := GetOr(entries, key, Str(""));
    }

    /** `uni.setStorageSync(key, v)`, when it does not throw. */
    method Write(key: string, v: Value)
      modifies this
      ensures entries == old(entries)[key := v]
    {
      entries := entries[key := v];
    }
  }

  /**
    `initDeviceId()` as a function of the store: the stored id when truthy;
    otherwise an id from `first`, written back. When the read throws, or the
    write does, the `catch` generates another id from `second`, which is not stored.
   */
  function InitialDeviceId(entries: map<string, Value>, readThrows: bool, writeThrows: bool, first: IdSeed, second: IdSeed): (r: (Value, map<string, Value>))
  {
    if readThrows then (Str(GenerateDeviceId(second)), entries)
    else
      var stored := GetOr(entries, DeviceIdKey, Str(""));
      if JsTruthy(stored) then (stored, entries)
      else if writeThrows then (Str(GenerateDeviceId(second)), entries)
      else (Str(GenerateDeviceId(first)), entries[DeviceIdKey := Str(GenerateDeviceId(first))])
  }

  /** The three cases of the device id after construction. */
  lemma DeviceIdCases(entries: map<string, Value>, readThrows: bool, writeThrows: bool, first: IdSeed, second: IdSeed)
    ensures var (id, after) := InitialDeviceId(entries, readThrows, writeThrows, first, second);
      && JsTruthy(id)
      && (!readThrows && JsTruthy(GetOr(entries, DeviceIdKey, Str(""))) ==> id == entries[DeviceIdKey] && after == entries)
      && (!readThrows && !JsTruthy(GetOr(entries, DeviceIdKey, Str(""))) && !writeThrows ==>
            id == Str(GenerateDeviceId(first)) && after == entries[DeviceIdKey := id])
      && (readThrows || (!JsTruthy(GetOr(entries, DeviceIdKey, Str(""))) && writeThrows) ==>
            id == Str(GenerateDeviceId(second)) && after == entries)
  {
    assert |GenerateDeviceId(first)| > 0 && |GenerateDeviceId(second)| > 0;
  }

  /**
    The identity is stable: once an id was generated and stored, the next
    start-up that can read the store finds the same id, whatever its seeds.
   */
  lemma DeviceIdStable(entries: map<string, Value>, first: IdSeed, second: IdSeed, later1: IdSeed, later2: IdSeed, writeThrows: bool)
    ensures var (id, after) := InitialDeviceId(entries, false, false, first, second);
      InitialDeviceId(after, false, writeThrows, later1, later2) == (id, after)
  {
    var (id, after) := InitialDeviceId(entries, false, false, first, second);
    assert JsTruthy(Str(GenerateDeviceId(first))) by {
      assert |GenerateDeviceId(first)| > 0;
    }
  }

  // ---------------------------------------------------------------- sending

  /** How `await uni.request(...)` ends: a response, or a thrown error with its `errMsg` and `message` ('' when absent). */
  datatype Transport = Response(statusCode: int, data: Value) | Failure(errMsg: string, message: string)

  /** `{success: true, data}` or `{success: false, message}`. */
  datatype SendResult = Sent(data: Value) | NotSent(message: string)

  /** The body posted to `/api/submit`. */
  function Payload(deviceId: Value, snapshot: Value, now: int): (r: Value) {
    Obj(map["device_id" := deviceId, "timestamp" := JsOr(Prop(snapshot, "timestamp"), Num(now)), "data" := snapshot])
  }

  /** The submission schema of the server: an integer `timestamp`, an object `data`, and an optional string `device_id`. */
  predicate ConformsToSubmission(body: Value) {
    && body.Obj?
    && "timestamp" in body.fields && body.fields["timestamp"].Num?
    && "data" in body.fields && body.fields["data"].Obj?
    && ("device_id" in body.fields ==> body.fields["device_id"].Null? || body.fields["device_id"].Str?)
  }

  /** A snapshot from `collectAll` posted under a generated or stored string id fits the server's schema. */
  lemma SnapshotPayloadConforms(deviceId: Value, outcomes: seq<Outcome>, stamp: int, now: int)
    requires deviceId.Str? && |outcomes| == |Registry.Builtins|
    ensures ConformsToSubmission(Payload(deviceId, Registry.Snapshot(outcomes, Num(stamp)), now))
    ensures stamp != 0 ==> Payload(deviceId, Registry.Snapshot(outcomes, Num(stamp)), now).fields["timestamp"] == Num(stamp)
  {
    Registry.SnapshotCoversBuiltins(outcomes, Num(stamp));
  }

  /** The response classification of `sendData`. */
  function Classify(t: Transport): (r: SendResult) {
    match t
    case Response(status, data) =>
      if status == 200 then Sent(data) else NotSent(ServerErrorPrefix + IntToString(status))
    case Failure(errMsg, message) =>
      NotSent(if errMsg != "" then errMsg else if message != "" then message else NetworkError)
  }

  /** A non-200 message carries its status code: it can be read back from the message. */
  lemma ServerErrorNamesStatus(status: nat)
    requires status != 200
    ensures var m := Classify(Response(status, Null)).message;
      && StartsWith(m, ServerErrorPrefix)
      && AllDigits(m[|ServerErrorPrefix|..])
      && ParseDigits(m[|ServerErrorPrefix|..]) == status
  {
    var m := Classify(Response(status, Null)).message;
    assert m[|ServerErrorPrefix|..] == NatToString(status);
    ParseNatToString(status);
  }

  /** `checkConnection()`: true exactly for a 200 reply to `GET /health`. */
  function CheckConnection(t: Transport): (r: bool) {
    t.Response? && t.statusCode == 200
  }

  /** The health probe agrees with the send classification: it succeeds exactly when a send with the same reply would. */
  lemma CheckConnectionMatchesClassify(t: Transport)
    ensures CheckConnection(t) <==> Classify(t).Sent?
  {
  }

  /** A request the sender issued: its URL and body. */
  datatype Request = Request(url: string, body: Value)

  // ---------------------------------------------------------------- timer

  /** What the scheduler did: a collect-and-send cycle started, a timer armed with its handle, a timer cleared. */
  datatype Event = CycleStarted | TimerArmed(handle: nat, interval: int) | TimerCleared(handle: nat)

  /** The scheduler's abstract state. Handles are positive, as `setInterval`'s are, so a set `timerId` is truthy. */
  datatype Schedule = Schedule(timerId: Option<nat>, interval: int, nextHandle: nat, events: seq<Event>)

  ghost predicate ScheduleValid(s: Schedule) {
    s.nextHandle >= 1 && (s.timerId.Some? ==> 1 <= s.timerId.value < s.nextHandle)
  }

  /** `start()`: nothing while a timer is set; otherwise a cycle now and a repeating timer at `interval`. */
  function Start(s: Schedule): (r: Schedule) {
    if s.timerId.Some? then s
    else Schedule(Some(s.nextHandle), s.interval, s.nextHandle + 1, s.events + [CycleStarted, TimerArmed(s.nextHandle, s.interval)])
  }

  /** `stop()`: clears a running timer and forgets its handle. */
  function Stop(s: Schedule): (r: Schedule) {
    if s.timerId.Some? then s.(timerId := None, events := s.events + [TimerCleared(s.timerId.value)]) else s
  }

  /** `setInterval(interval)`: always records the interval; restarts the timer only when one is running. */
  function SetInterval(s: Schedule, interval: int): (r: Schedule) {
    var s1 := s.(interval := interval);
    if s.timerId.Some? then Start(Stop(s1)) else s1
  }

  /** The repeating timer firing: a cycle starts, and only while a timer is armed. */
  function Tick(s: Schedule): (r: Schedule) {
    if s.timerId.Some? then s.(events := s.events + [CycleStarted]) else s
  }

  lemma StartIsIdempotent(s: Schedule)
    ensures Start(Start(s)) == Start(s)
    ensures Start(s).timerId.Some?
  {
  }

  /** `stop()` is idempotent, always leaves no timer, and clears only what was armed. */
  lemma StopIsIdempotent(s: Schedule)
    ensures Stop(Stop(s)) == Stop(s)
    ensures Stop(s).timerId.None?
    ensures s.timerId.None? ==> Stop(s) == s
  {
  }

  lemma TransitionsKeepValid(s: Schedule, interval: int)
    requires ScheduleValid(s)
    ensures ScheduleValid(Start(s)) && ScheduleValid(Stop(s)) && ScheduleValid(Tick(s)) && ScheduleValid(SetInterval(s, interval))
  {
  }

  /**
    `setInterval` while stopped starts nothing; while running it clears the old
    timer and arms a fresh one at the new interval, with one cycle at once.
   */
  lemma SetIntervalRestartsOnlyRunning(s: Schedule, interval: int)
    requires ScheduleValid(s)
    ensures SetInterval(s, interval).interval == interval
    ensures s.timerId.None? ==> SetInterval(s, interval) == s.(interval := interval)
    ensures s.timerId.Some? ==>
      (SetInterval(s, interval).events == s.events + [TimerCleared(s.timerId.value), CycleStarted, TimerArmed(s.nextHandle, interval)])
    ensures s.timerId.Some? ==> SetInterval(s, interval).timerId == Some(s.nextHandle) && s.nextHandle != s.timerId.value
  {
  }

  /** A timer firing after `stop()` starts no cycle. */
  lemma NoCycleAfterStop(s: Schedule)
    ensures Tick(Stop(s)) == Stop(s)
  {
  }

  // ---------------------------------------------------------------- the sender

  class DataSender {
    var serverUrl: string
    var interval: int
    var timerId: Option<nat>
    var isSending: bool
    var deviceId: Value
    var nextHandle: nat
    var events: seq<Event>
    var requests: seq<Request>

    function Timer(): (s: Schedule)
      reads this
    {
      Schedule(timerId, interval, nextHandle, events)
    }

    ghost predicate Valid()
      reads this
    {
      ScheduleValid(Timer())
    }

    /** `new DataSender()`: the configured URL and interval, no timer, not sending, and `initDeviceId()`. */
    constructor (store: Storage, readThrows: bool, writeThrows: bool, first: IdSeed, second: IdSeed)
      modifies store
      ensures Valid()
      ensures serverUrl == DefaultServerUrl && interval == DefaultInterval
      ensures timerId == None && !isSending && events == [] && requests == []
      ensures (deviceId, store.entries) == InitialDeviceId(old(store.entries), readThrows, writeThrows, first, second)
    {
      serverUrl := DefaultServerUrl;
      interval := DefaultInterval;
      timerId := None;
      isSending := false;
      deviceId := Null;
      nextHandle := 1;
      events := [];
      requests := [];
      new;
      InitDeviceId(store, readThrows, writeThrows, first, second);
    }

    /** `initDeviceId()`: the `try` reads and maybe writes the store, the `catch` generates a temporary id. */
    method InitDeviceId(store: Storage, readThrows: bool, writeThrows: bool, first: IdSeed, second: IdSeed)
      modifies this, store
      ensures (deviceId, store.entries) == InitialDeviceId(old(store.entries), readThrows, writeThrows, first, second)
      ensures Timer() == old(Timer()) && isSending == old(isSending) && requests == old(requests) && serverUrl == old(serverUrl)
    {
      if readThrows {
        deviceId := Str(GenerateDeviceId(second));
        return;
      }
      deviceId := store.Read(DeviceIdKey);
      if !JsTruthy(deviceId) {
        deviceId := Str(GenerateDeviceId(first));
        if writeThrows {
          deviceId := Str(GenerateDeviceId(second));
        } else {
          store.Write(DeviceIdKey, deviceId);
        }
      }
    }

    /**
      `sendData(data)` up to its `await`: while a send is in flight the call is
      dropped with 'sending in progress' and issues nothing. Otherwise it marks
      the sender busy and builds the body; a null `data` throws there, so the
      `catch` answers with the error's message, `finally` clears the busy flag
      and nothing is issued. Any other `data` is posted, and the call ends
      (`None`) at the `await`, still busy.
     */
    method BeginSend(snapshot: Value, now: int) returns (ended: Option<SendResult>)
      modifies this
      ensures old(isSending) ==> ended == Some(NotSent(BusyMessage)) && requests == old(requests) && isSending
      ensures !old(isSending) && snapshot.Null? ==>
        ended == Some(NotSent(NullReadMessage)) && requests == old(requests) && !isSending
      ensures !old(isSending) && !snapshot.Null? ==>
        (ended.None? && isSending && requests == old(requests) + [Request(serverUrl + SubmitPath, Payload(deviceId, snapshot, now))])
      ensures Timer() == old(Timer()) && deviceId == old(deviceId) && serverUrl == old(serverUrl)
    {
      if isSending {
        return Some(NotSent(BusyMessage));
      }
      isSending := true;
      if snapshot.Null? {
        isSending := false;
        return Some(NotSent(NullReadMessage));
      }
      requests := requests + [Request(serverUrl + SubmitPath, Payload(deviceId, snapshot, now))];
      ended := None;
    }

    /** `sendData(data)` after its `await`: the classified reply, and `finally` clears the busy flag on every path. */
    method SettleSend(t: Transport) returns (r: SendResult)
      modifies this
      ensures r == Classify(t)
      ensures !isSending
      ensures Timer() == old(Timer()) && requests == old(requests) && deviceId == old(deviceId) && serverUrl == old(serverUrl)
    {
      r := Classify(t);
      isSending := false;
    }

    /** `collectAndSend()` with nothing else running during its `await`s: a snapshot, then one send. */
    method CollectAndSend(dc: Registry.DataCollector, now: int, outcomes: seq<Outcome>, sendNow: int, t: Transport) returns (r: SendResult)
      requires dc.Valid() && |outcomes| == |Registry.Builtins|
      modifies this, dc
      ensures dc.Valid() && dc.collectors == old(dc.collectors)
      ensures dc.data == Registry.AfterOutcomes(old(dc.data)[Registry.TimestampKey := Num(now)], Registry.Builtins, outcomes)
      ensures old(isSending) ==> r == NotSent(BusyMessage) && requests == old(requests) && isSending
      ensures !old(isSending) ==>
        (r == Classify(t) && !isSending &&
         requests == old(requests) + [Request(serverUrl + SubmitPath, Payload(deviceId, Registry.Snapshot(outcomes, Num(now)), sendNow))])
      ensures Timer() == old(Timer()) && deviceId == old(deviceId) && serverUrl == old(serverUrl)
    {
      var snapshot := dc.CollectAll(now, outcomes);
      var ended := BeginSend(snapshot, sendNow);
      if ended.Some? {
        return ended.value;
      }
      r := SettleSend(t);
    }

    /** `setServerUrl(url)`: later sends and probes go to `url`. */
    method SetServerUrl(url: string)
      modifies this
      ensures serverUrl == url
      ensures Timer() == old(Timer()) && isSending == old(isSending) && requests == old(requests) && deviceId == old(deviceId)
    {
      serverUrl := url;
    }

    /** `getDeviceId()`. */
    method GetDeviceId() returns (id: Value)
      ensures id == deviceId
    {
      id := deviceId;
    }

    /** `checkConnection()`. */
    method CheckHealth(t: Transport) returns (probe: string, ok: bool)
      ensures probe == serverUrl + HealthPath
      ensures ok == CheckConnection(t)
    {
      probe := serverUrl + HealthPath;
      ok := t.Response? && t.statusCode == 200;
    }

    method StartTimer()
      requires Valid()
      modifies this
      ensures Valid() && Timer() == Start(old(Timer()))
      ensures isSending == old(isSending) && requests == old(requests) && deviceId == old(deviceId)
    {
      if timerId.Some? {
        return;
      }
      events := events + [CycleStarted];
      timerId := Some(nextHandle);
      events := events + [TimerArmed(nextHandle, interval)];
      nextHandle := nextHandle + 1;
    }

    method StopTimer()
      requires Valid()
      modifies this
      ensures Valid() && Timer() == Stop(old(Timer()))
      ensures isSending == old(isSending) && requests == old(requests) && deviceId == old(deviceId)
    {
      if timerId.Some? {
        events := events + [TimerCleared(timerId.value)];
        timerId := None;
      }
    }

    /** `setInterval(interval)`. */
    method SetSendInterval(newInterval: int)
      requires Valid()
      modifies this
      ensures Valid() && Timer() == SetInterval(old(Timer()), newInterval)
      ensures isSending == old(isSending) && requests == old(requests) && deviceId == old(deviceId)
    {
      interval := newInterval;
      if timerId.Some? {
        StopTimer();
        StartTimer();
      }
    }

    /** The repeating timer's callback. */
    method TimerFired()
      requires Valid()
      modifies this
      ensures Valid() && Timer() == Tick(old(Timer()))
      ensures isSending == old(isSending) && requests == old(requests) && deviceId == old(deviceId)
    {
      if timerId.Some? {
        events := events + [CycleStarted];
      }
    }

    /** `trigger()`: one cycle on demand, whether or not the timer runs. */
    method Trigger()
      modifies this
      ensures Timer() == old(Timer()).(events := old(events) + [CycleStarted])
      ensures isSending == old(isSending) && requests == old(requests) && deviceId == old(deviceId)
    {
      events := events + [CycleStarted];
    }
  }

  /**
    Single flight: a send of a non-null snapshot begun while another is in
    flight is dropped and issues no request; once the first settles, the next
    one goes out. A null first snapshot would throw before its `await` and
    leave nothing in flight (`NullSendLeavesNothingInFlight`).
   */
  method OverlappingSends(store: Storage, first: IdSeed, second: IdSeed, a: Value, b: Value, t: Transport)
    returns (dropped: Option<SendResult>, settled: SendResult, issued: nat)
    requires !a.Null? && !b.Null?
    modifies store
    ensures dropped == Some(NotSent(BusyMessage))
    ensures settled == Classify(t)
    ensures issued == 2
  {
    var sender := new DataSender(store, false, false, first, second);
    var none := sender.BeginSend(a, 1);
    dropped := sender.BeginSend(b, 2);
    settled := sender.SettleSend(t);
    var again := sender.BeginSend(b, 3);
    issued := |sender.requests|;
  }

  /**
    A null snapshot never blocks the sender: the first call answers with the
    thrown error and issues nothing, and a following send goes out at once.
   */
  method NullSendLeavesNothingInFlight(store: Storage, first: IdSeed, second: IdSeed, b: Value)
    returns (failed: Option<SendResult>, next: Option<SendResult>, issued: nat)
    requires !b.Null?
    modifies store
    ensures failed == Some(NotSent(NullReadMessage))
    ensures next.None?
    ensures issued == 1
  {
    var sender := new DataSender(store, false, false, first, second);
    failed := sender.BeginSend(Null, 1);
    next := sender.BeginSend(b, 2);
    issued := |sender.requests|;
  }
}
