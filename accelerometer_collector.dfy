/**
  `AccelerometerCollector`: registers a reading listener, starts the sensor,
  stops it 500 ms after it started, deregisters the listener and resolves with
  the last reading; the whole flow is raced against 3 s, and any rejection
  triggers a best-effort global cleanup before it is rethrown. Only the
  cleanup checks that its platform functions exist; a missing function
  called by the flow itself throws, which leaves the flow to the timeout.

  The platform is described by when its callbacks arrive (ms from the call
  of `collect()`), and the collector's effect on the sensor API by the trace
  of calls it makes, each stamped with its time.
 */
module AccelerometerCollector {
  import opened Json
  import opened Collectors

  const Name := "accelerometer"
  const Deadline: nat := 3000
  const SampleWindow: nat := 500
  const TimeoutMessage := "收集加速度计信息超时（3秒）"
  const Unavailable := "加速度计API不可用"
  const NoSample := "未获取到加速度数据"
  const StopFailed := "停止加速度计失败"
  const StartFailed := "启动加速度计失败"
  /** The `message` of the TypeError that calling a missing `uni.onAccelerometerChange` throws. */
  const OnChangeMissing := "uni.onAccelerometerChange is not a function"

  /** A reading the platform delivers: its arrival time, `x`, `y`, `z`, and `Date.now()` when the listener ran. */
  datatype Reading = Reading(time: nat, x: Value, y: Value, z: Value, clock: int)

  /**
    The platform. `startAvailable`: `uni` exists and `uni.startAccelerometer`
    is a function; `onAvailable`, `offAvailable`, `stopAvailable`: the same
    for `onAccelerometerChange`, `offAccelerometerChange` and
    `stopAccelerometer`. Only the start and the catch's cleanup test for
    their function; the flow calls the others unguarded, and a call to a
    missing one throws. `start` is timed from the call of `collect()`, `stop`
    from the call of `stopAccelerometer`. `readings` are listed in the order
    they arrive.
   */
  datatype Env = Env(
    startAvailable: bool,
    onAvailable: bool,
    offAvailable: bool,
    stopAvailable: bool,
    start: Settlement<PlatformResult>,
    stop: Settlement<PlatformResult>,
    readings: seq<Reading>)

  /** The sensor API calls the collector makes. */
  datatype SensorCall =
    | OnChange        // uni.onAccelerometerChange(listener)
    | StartSensor     // uni.startAccelerometer({...})
    | StopSensor      // uni.stopAccelerometer({...})
    | OffListener     // uni.offAccelerometerChange(listener)
    | OffAll          // uni.offAccelerometerChange(), in the cleanup
    | StopAll         // uni.stopAccelerometer(), in the cleanup

  datatype Call = Call(time: nat, call: SensorCall)

  /**
    The time at which the flow deregisters its own listener, if it ever does.
    It never does without `offAccelerometerChange`, nor when the 500 ms timer
    throws on a missing `stopAccelerometer`.
   */
  function OwnOffTime(env: Env): (r: Option<nat>) {
    if !env.offAvailable then None
    else
      match env.start
      case SettledAt(ts, Err(_)) => Some(ts)
      case SettledAt(ts, Ok(_)) =>
        if !env.stopAvailable then None
        else
          (match env.stop
           case SettledAt(d, _) => Some(ts + SampleWindow + d)
           case Pending => None)
      case Pending => None
  }

  /**
    The time from which the listener no longer runs: its own deregistration
    when that happens by the deadline; otherwise the cleanup's global
    `offAccelerometerChange()` at the deadline, when that function exists;
    without it the listener stays registered for good.
   */
  function Removal(env: Env): (r: Option<nat>) {
    var own := OwnOffTime(env);
    if own.Some? && own.value <= Deadline then own
    else if env.offAvailable then Some(Deadline)
    else None
  }

  predicate Before(t: nat, r: Option<nat>) {
    r.None? || t < r.value
  }

  /** The sample the listener holds, `accelerometerData`: the last reading that arrived while it was registered. */
  function LastBefore(rs: seq<Reading>, r: Option<nat>): (last: Option<Reading>)
    ensures last.Some? ==> last.value in rs && Before(last.value.time, r)
    ensures last.None? <==> forall i :: 0 <= i < |rs| ==> !Before(rs[i].time, r)
  {
    if rs == [] then None
    else if Before(rs[|rs| - 1].time, r) then Some(rs[|rs| - 1])
    else LastBefore(rs[..|rs| - 1], r)
  }

  /** `{x, y, z, timestamp}` built by the listener. */
  function SampleRecord(r: Reading): (v: Value) {
    Obj(map["x" := r.x, "y" := r.y, "z" := r.z, "timestamp" := Num(r.clock)])
  }

  /**
    `collectPromise`. A missing `onAccelerometerChange` throws in the
    executor, which rejects it at once. A missing `offAccelerometerChange`
    throws in the callback that would settle it, and a missing
    `stopAccelerometer` throws in the 500 ms timer; either way the promise
    stays pending.
   */
  function Collection(env: Env): (r: Settlement<Outcome>) {
    if !env.startAvailable then SettledAt(0, Rejected(Unavailable))
    else if !env.onAvailable then SettledAt(0, Rejected(OnChangeMissing))
    else
      match env.start
      case Pending => Pending
      case SettledAt(ts, Err(m)) =>
        if env.offAvailable then SettledAt(ts, Rejected(ErrMsgOr(m, StartFailed))) else Pending
      case SettledAt(ts, Ok(_)) =>
        if !env.stopAvailable then Pending
        else
          match env.stop
          case Pending => Pending
          case SettledAt(d, Err(m)) =>
            if env.offAvailable then SettledAt(ts + SampleWindow + d, Rejected(ErrMsgOr(m, StopFailed))) else Pending
          case SettledAt(d, Ok(_)) =>
            var sample := LastBefore(env.readings, Removal(env));
            if !env.offAvailable then Pending
            else SettledAt(ts + SampleWindow + d, if sample.Some? then Fulfilled(SampleRecord(sample.value)) else Rejected(NoSample))
  }

  /** What `collect()` settles with: the race, whose rejection the `.catch` rethrows unchanged. */
  function Outcome(env: Env): (r: Settlement<Outcome>) {
    WithDeadline(Collection(env), Deadline, TimeoutMessage)
  }

  /** The flow's own deregistration, made only when `offAccelerometerChange` exists. */
  function OwnOff(env: Env, t: nat): (r: seq<Call>) {
    if env.offAvailable then [Call(t, OffListener)] else []
  }

  /** The calls of the flow itself, in the order it makes them; a call to a missing function makes none. */
  function FlowCalls(env: Env): (r: seq<Call>) {
    if !env.startAvailable || !env.onAvailable then []
    else
      [Call(0, OnChange), Call(0, StartSensor)] +
      match env.start
      case Pending => []
      case SettledAt(ts, Err(_)) => OwnOff(env, ts)
      case SettledAt(ts, Ok(_)) =>
        if !env.stopAvailable then []
        else
          [Call(ts + SampleWindow, StopSensor)] +
          match env.stop
          case Pending => []
          case SettledAt(d, _) => OwnOff(env, ts + SampleWindow + d)
  }

  /** The `.catch` handler's calls, made at the moment the race rejects. */
  function CleanupCalls(env: Env): (r: seq<Call>) {
    var o := Outcome(env);
    if o.result.Rejected? then
      (if env.offAvailable then [Call(o.time, OffAll)] else []) +
      (if env.stopAvailable then [Call(o.time, StopAll)] else [])
    else []
  }

  function UpTo(calls: seq<Call>, t: nat): (r: seq<Call>)
    ensures forall c :: c in r ==> c in calls && c.time <= t
    ensures forall c :: c in calls && c.time <= t ==> c in r
  {
    if calls == [] then []
    else (if calls[0].time <= t then [calls[0]] else []) + UpTo(calls[1..], t)
  }

  function After(calls: seq<Call>, t: nat): (r: seq<Call>)
    ensures forall c :: c in r ==> c in calls && c.time > t
    ensures forall c :: c in calls && c.time > t ==> c in r
  {
    if calls == [] then []
    else (if calls[0].time > t then [calls[0]] else []) + After(calls[1..], t)
  }

  /** Every sensor call, in order: the flow's calls up to the settle time, the cleanup, then the flow's later calls. */
  function Trace(env: Env): (r: seq<Call>) {
    var s := Outcome(env).time;
    UpTo(FlowCalls(env), s) + CleanupCalls(env) + After(FlowCalls(env), s)
  }

  /** The cache once every callback has run: the last reading the listener saw, if it was ever registered and ran. */
  function Cached(env: Env, previous: Value): (r: Value) {
    var sample := LastBefore(env.readings, Removal(env));
    if env.startAvailable && env.onAvailable && sample.Some? then SampleRecord(sample.value) else previous
  }

  /** The listener's work: each reading that arrives while it is registered overwrites the sample and `this.data`. */
  method Listen(c: Collector, readings: seq<Reading>, removal: Option<nat>) returns (sample: Option<Reading>)
    modifies c
    ensures sample == LastBefore(readings, removal)
    ensures c.data == (if sample.Some? then SampleRecord(sample.value) else old(c.data))
  {
    sample := None;
    for i := 0 to |readings|
      invariant sample == LastBefore(readings[..i], removal)
      invariant c.data == (if sample.Some? then SampleRecord(sample.value) else old(c.data))
    {
      assert readings[..i + 1][..i] == readings[..i];
      if Before(readings[i].time, removal) {
        sample := Some(readings[i]);
        c.data := SampleRecord(readings[i]);
      }
    }
    assert readings[..|readings|] == readings;
  }

  /**
    What happens once `stopAccelerometer` has been called: the flow's last
    call, and how it settles. Without `offAccelerometerChange` the callback
    throws before it can settle the promise.
   */
  method AfterStop(env: Env, ts: nat, sample: Option<Reading>) returns (tail: seq<Call>, collection: Settlement<Outcome>)
    requires env.startAvailable && env.onAvailable && env.stopAvailable
    requires env.start.SettledAt? && env.start.result.Ok? && env.start.time == ts
    requires sample == LastBefore(env.readings, Removal(env))
    ensures FlowCalls(env) == [Call(0, OnChange), Call(0, StartSensor), Call(ts + SampleWindow, StopSensor)] + tail
    ensures collection == Collection(env)
  {
    match env.stop {
      case Pending =>
        tail := [];
        collection := Pending;
      case SettledAt(d, result) =>
        var t := ts + SampleWindow + d;
        if !env.offAvailable {
          tail := [];
          collection := Pending;
        } else {
          tail := [Call(t, OffListener)];
          match result {
            case Err(m) =>
              collection := SettledAt(t, Rejected(ErrMsgOr(m, StopFailed)));
            case Ok(_) =>
              if sample.Some? {
                collection := SettledAt(t, Fulfilled(SampleRecord(sample.value)));
              } else {
                collection := SettledAt(t, Rejected(NoSample));
              }
          }
        }
    }
  }

  /** `collectPromise`'s executor and the callbacks it arms, returning their calls and how the promise settles. */
  method RunFlow(c: Collector, env: Env) returns (flow: seq<Call>, collection: Settlement<Outcome>)
    modifies c
    ensures flow == FlowCalls(env)
    ensures collection == Collection(env)
    ensures c.data == Cached(env, old(c.data))
  {
    flow := [];
    if !env.startAvailable {
      collection := SettledAt(0, Rejected(Unavailable));
      return;
    }
    if !env.onAvailable {
      collection := SettledAt(0, Rejected(OnChangeMissing));
      return;
    }
    flow := flow + [Call(0, OnChange)];
    flow := flow + [Call(0, StartSensor)];
    var sample := Listen(c, env.readings, Removal(env));
    match env.start {
      case Pending =>
        collection := Pending;
      case SettledAt(ts, Err(m)) =>
        if env.offAvailable {
          flow := flow + [Call(ts, OffListener)];
          collection := SettledAt(ts, Rejected(ErrMsgOr(m, StartFailed)));
        } else {
          collection := Pending;
        }
      case SettledAt(ts, Ok(_)) =>
        if !env.stopAvailable {
          collection := Pending;
        } else {
          flow := flow + [Call(ts + SampleWindow, StopSensor)];
          var tail;
          tail, collection := AfterStop(env, ts, sample);
          flow := flow + tail;
        }
    }
  }

  /** `collect()`, returning the settled race and the calls made on the sensor API. */
  method Collect(c: Collector, env: Env) returns (o: Settlement<Outcome>, calls: seq<Call>)
    modifies c
    ensures o == Outcome(env)
    ensures calls == Trace(env)
    ensures c.data == Cached(env, old(c.data))
  {
    var flow, collection := RunFlow(c, env);
    o := Race(collection, TimeoutPromise(Deadline, TimeoutMessage));
    var cleanup: seq<Call> := [];
    if o.result.Rejected? {
      if env.offAvailable {
        cleanup := cleanup + [Call(o.time, OffAll)];
      }
      if env.stopAvailable {
        cleanup := cleanup + [Call(o.time, StopAll)];
      }
    }
    calls := UpTo(flow, o.time) + cleanup + After(flow, o.time);
  }

  /** Without `startAccelerometer` no listener is registered and no sensor started; it rejects at once. */
  lemma UnavailableRejectsFirst(env: Env, previous: Value)
    requires !env.startAvailable
    ensures Outcome(env) == SettledAt(0, Rejected(Unavailable))
    ensures forall c :: c in Trace(env) ==> c.call != OnChange && c.call != StartSensor
    ensures Cached(env, previous) == previous
  {
  }

  /** Without `onAccelerometerChange` the executor throws before starting the sensor, so the race rejects at once with that error. */
  lemma MissingOnChangeRejectsAtOnce(env: Env, previous: Value)
    requires env.startAvailable && !env.onAvailable
    ensures Outcome(env) == SettledAt(0, Rejected(OnChangeMissing))
    ensures forall c :: c in Trace(env) ==> c.call != OnChange && c.call != StartSensor
    ensures Cached(env, previous) == previous
  {
  }

  /**
    The listener is registered, at index 0, before the sensor is started,
    whatever the platform does; the sensor is never started without a
    registered listener.
   */
  lemma {:induction false} ListenerBeforeSensor(env: Env)
    requires env.startAvailable
    ensures env.onAvailable ==> Trace(env)[0] == Call(0, OnChange)
    ensures forall i :: 0 <= i < |Trace(env)| && Trace(env)[i].call == StartSensor ==> i > 0 && env.onAvailable
  {
    var flow := FlowCalls(env);
    var s := Outcome(env).time;
    if env.onAvailable {
      assert flow[0] == Call(0, OnChange) && flow[1] == Call(0, StartSensor);
      assert UpTo(flow, s)[0] == Call(0, OnChange);
    } else {
      assert flow == [];
      assert forall c :: c in Trace(env) ==> c.call == OffAll || c.call == StopAll;
    }
  }

  /**
    The flow settles on its own only when `offAccelerometerChange` exists,
    and every such exit deregisters its listener at the moment it settles; a
    fulfilled outcome comes after the sensor was stopped, at least 500 ms
    after the listener was registered.
   */
  lemma FlowDeregistersOnSettle(env: Env)
    requires env.startAvailable && env.onAvailable && Collection(env).SettledAt?
    ensures env.offAvailable
    ensures Call(Collection(env).time, OffListener) in FlowCalls(env)
    ensures Collection(env).result.Fulfilled? ==> exists t: nat :: SampleWindow <= t <= Collection(env).time && Call(t, StopSensor) in FlowCalls(env)
  {
    if Collection(env).result.Fulfilled? {
      var ts := env.start.time;
      assert Call(ts + SampleWindow, StopSensor) in FlowCalls(env);
    }
  }

  /**
    Without `offAccelerometerChange` the flow throws wherever it would settle,
    so only the timeout settles `collect()`: it rejects at 3 s, nothing ever
    deregisters the listener, and every reading reaches the cache.
   */
  lemma MissingOffOnlyTimesOut(env: Env, previous: Value)
    requires env.startAvailable && env.onAvailable && !env.offAvailable
    ensures Collection(env) == Pending
    ensures Outcome(env) == SettledAt(Deadline, Rejected(TimeoutMessage))
    ensures forall c :: c in Trace(env) ==> c.call != OffListener && c.call != OffAll
    ensures Removal(env) == None
    ensures Cached(env, previous) == if env.readings == [] then previous else SampleRecord(env.readings[|env.readings| - 1])
  {
  }

  /**
    Without `stopAccelerometer` the 500 ms timer throws: the sensor is never
    stopped by the flow, only the timeout settles `collect()`, and readings
    keep reaching the cache until the cleanup removes the listener at 3 s.
   */
  lemma MissingStopOnlyTimesOut(env: Env)
    requires env.startAvailable && env.onAvailable && !env.stopAvailable
    requires env.start.SettledAt? && env.start.result.Ok?
    ensures Collection(env) == Pending
    ensures Outcome(env) == SettledAt(Deadline, Rejected(TimeoutMessage))
    ensures forall c :: c in Trace(env) ==> c.call != StopSensor && c.call != StopAll && c.call != OffListener
    ensures Removal(env) == if env.offAvailable then Some(Deadline) else None
  {
  }

  /**
    Cleanup on every exit: a rejection of any kind, the timeout included,
    is followed at once by the global `offAccelerometerChange()` and
    `stopAccelerometer()` when those functions exist.
   */
  lemma RejectionCleansUp(env: Env)
    requires Outcome(env).result.Rejected?
    ensures env.offAvailable ==> Call(Outcome(env).time, OffAll) in Trace(env)
    ensures env.stopAvailable ==> Call(Outcome(env).time, StopAll) in Trace(env)
  {
    var t := Outcome(env).time;
    var cleanup := CleanupCalls(env);
    assert Trace(env) == UpTo(FlowCalls(env), t) + cleanup + After(FlowCalls(env), t);
    if env.offAvailable {
      assert cleanup[0] == Call(t, OffAll);
    }
    if env.stopAvailable {
      assert cleanup[|cleanup| - 1] == Call(t, StopAll);
    }
  }

  /**
    A resolved value is the last reading that arrived before the listener
    was removed, and it is also the record left cached.
   */
  lemma FulfilledIsLatestReading(env: Env, previous: Value)
    requires Outcome(env).result.Fulfilled?
    ensures var sample := LastBefore(env.readings, Some(Outcome(env).time));
      && sample.Some?
      && Outcome(env).result.value == SampleRecord(sample.value)
      && Cached(env, previous) == Outcome(env).result.value
  {
  }

  /** A flow that has not settled by 3 s is cut off: the timeout rejects and the listener stops at 3 s if it can be removed. */
  lemma TimeoutCutsOffListener(env: Env)
    requires !(Collection(env).SettledAt? && Collection(env).time <= Deadline)
    ensures Outcome(env) == SettledAt(Deadline, Rejected(TimeoutMessage))
    ensures env.offAvailable ==> Removal(env) == Some(Deadline)
  {
  }
}
