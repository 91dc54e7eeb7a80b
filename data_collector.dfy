/**
  `DataCollector`: the registry of the eleven built-in collectors, the cache
  slot per name, and `collectAll`, which joins every collector's outcome into
  one snapshot record.

  The collectors' outcomes are inputs here (each collector's own module says
  how it arrives at one). `collectAll` is split at its `await`: `Begin` is
  what runs before it (writing `data.timestamp`), `Settle` what runs after
  every collector has settled (the slot writes and the snapshot record).
 */
module Registry {
  import opened Json
  import opened Collectors

  /** The built-in names, in the order `collectAll` starts their collectors and lists their results. */
  const Builtins: seq<string> := ["battery", "location", "foregroundApp", "deviceInfo", "networkInfo", "storageInfo",
                                  "appInfo", "screenInfo", "systemInfo", "accelerometer", "pushNotification"]
  const TimestampKey := "timestamp"
  const CollectFailed := "收集失败"

  lemma BuiltinsDistinct()
    ensures forall i, j :: 0 <= i < j < |Builtins| ==> Builtins[i] != Builtins[j]
    ensures TimestampKey !in Builtins
  {
  }

  /** The `data` object of the constructor and of `clear()`: every built-in slot and `timestamp` null. */
  function InitialData(): (d: map<string, Value>)
    ensures d.Keys == (set n | n in Builtins) + {TimestampKey}
    ensures forall k :: k in d ==> d[k] == Null
  {
    (map n | n in Builtins :: Null)[TimestampKey := Null]
  }

  /** One entry of the snapshot: the fulfilled value, or `{error: reason.message}`. */
  function Entry(o: Outcome): (r: Value) {
    if o.Fulfilled? then o.value else ErrorRecord(o.message)
  }

  /** `collectedData`: an entry per built-in name, plus the given `timestamp`. */
  function Snapshot(outcomes: seq<Outcome>, timestamp: Value): (r: Value)
    requires |outcomes| == |Builtins|
  {
    Obj((map i | 0 <= i < |Builtins| :: Builtins[i] := Entry(outcomes[i]))[TimestampKey := timestamp])
  }

  /** The slots after the `collectX` wrappers have run: a fulfilled outcome overwrites its slot, a rejection leaves it. */
  function AfterOutcomes(data: map<string, Value>, names: seq<string>, outcomes: seq<Outcome>): (r: map<string, Value>)
    requires |names| == |outcomes|
    decreases |names|
  {
    if names == [] then data
    else
      var d := AfterOutcomes(data, names[..|names| - 1], outcomes[..|names| - 1]);
      var o := outcomes[|names| - 1];
      if o.Fulfilled? then d[names[|names| - 1] := o.value] else d
  }

  /** One more join on top of the first `i`. */
  lemma AfterOutcomesStep(data: map<string, Value>, names: seq<string>, outcomes: seq<Outcome>, i: nat)
    requires |names| == |outcomes| && i < |names|
    ensures var d := AfterOutcomes(data, names[..i], outcomes[..i]);
      AfterOutcomes(data, names[..i + 1], outcomes[..i + 1]) == if outcomes[i].Fulfilled? then d[names[i] := outcomes[i].value] else d
  {
    assert names[..i + 1][..i] == names[..i];
    assert outcomes[..i + 1][..i] == outcomes[..i];
  }

  /** The catch branch's `partialData`: each cached value, or `{error: '收集失败'}` when it is falsy. */
  function PartialData(data: map<string, Value>, now: int): (r: Value) {
    Obj((map n | n in Builtins :: JsOr(Get(data, n), ErrorRecord(CollectFailed)))[TimestampKey := JsOr(Get(data, TimestampKey), Num(now))])
  }

  class DataCollector {
    var collectors: map<string, Collector>
    var data: map<string, Value>

    /** Every built-in name stays registered and keeps its slot; slots exist only for registered names and `timestamp`. */
    ghost predicate Valid()
      reads this
    {
      && (forall n :: n in Builtins ==> n in collectors && n in data)
      && TimestampKey in data
      && data.Keys <= collectors.Keys + {TimestampKey}
    }

    /** `new DataCollector()`: the eleven collectors under their names, every slot null. */
    constructor ()
      ensures Valid()
      ensures collectors.Keys == set n | n in Builtins
      ensures forall n :: n in collectors ==> collectors[n].name == n && collectors[n].data == Null
      ensures forall n :: n in collectors ==> fresh(collectors[n])
      ensures data == InitialData()
    {
      var m: map<string, Collector> := map[];
      for i := 0 to |Builtins|
        invariant m.Keys == set j | 0 <= j < i :: Builtins[j]
        invariant forall n :: n in m ==> m[n].name == n && m[n].data == Null
        invariant forall n :: n in m ==> fresh(m[n])
      {
        var c := new Collector(Builtins[i]);
        m := m[Builtins[i] := c];
      }
      assert (set j | 0 <= j < |Builtins| :: Builtins[j]) == set n | n in Builtins;
      collectors := m;
      data := InitialData();
    }

    /** A `collectX` wrapper's continuation: a fulfilled result is written to the slot; a rejection changes nothing. */
    method SettleOne(name: string, o: Outcome)
      requires Valid() && name in Builtins
      modifies this
      ensures Valid()
      ensures collectors == old(collectors)
      ensures data == (if o.Fulfilled? then old(data)[name := o.value] else old(data))
    {
      if o.Fulfilled? {
        data := data[name := o.value];
      }
    }

    /** `collectAll()` up to its `await`: `this.data.timestamp = Date.now()`. */
    method Begin(now: int) returns (timestamp: Value)
      requires Valid()
      modifies this
      ensures Valid()
      ensures collectors == old(collectors)
      ensures data == old(data)[TimestampKey := Num(now)]
      ensures timestamp == Num(now)
    {
      data := data[TimestampKey := Num(now)];
      timestamp := Num(now);
    }

    /** Every `collectX` continuation, in order. */
    method SettleAll(outcomes: seq<Outcome>)
      requires Valid() && |outcomes| == |Builtins|
      modifies this
      ensures Valid()
      ensures collectors == old(collectors)
      ensures data == AfterOutcomes(old(data), Builtins, outcomes)
    {
      for i := 0 to |Builtins|
        invariant Valid()
        invariant collectors == old(collectors)
        invariant data == AfterOutcomes(old(data), Builtins[..i], outcomes[..i])
      {
        AfterOutcomesStep(old(data), Builtins, outcomes, i);
        SettleOne(Builtins[i], outcomes[i]);
      }
      assert Builtins[..|Builtins|] == Builtins;
      assert outcomes[..|outcomes|] == outcomes;
    }

    /**
      `collectAll()` after its `await`, as written: the snapshot's `timestamp`
      is `this.data.timestamp` read now, not the value `Begin` wrote.
     */
    method SettleAsWritten(outcomes: seq<Outcome>) returns (snapshot: Value)
      requires Valid() && |outcomes| == |Builtins|
      modifies this
      ensures Valid()
      ensures collectors == old(collectors)
      ensures data == AfterOutcomes(old(data), Builtins, outcomes)
      ensures snapshot == Snapshot(outcomes, old(data)[TimestampKey])
    {
      SettleAll(outcomes);
      AfterOutcomesKeepsTimestamp(old(data), Builtins, outcomes);
      snapshot := Snapshot(outcomes, data[TimestampKey]);
    }

    /** `collectAll()` after its `await`, with the timestamp `Begin` returned passed through. */
    method Settle(timestamp: Value, outcomes: seq<Outcome>) returns (snapshot: Value)
      requires Valid() && |outcomes| == |Builtins|
      modifies this
      ensures Valid()
      ensures collectors == old(collectors)
      ensures data == AfterOutcomes(old(data), Builtins, outcomes)
      ensures snapshot == Snapshot(outcomes, timestamp)
    {
      SettleAll(outcomes);
      snapshot := Snapshot(outcomes, timestamp);
    }

    /** A whole `collectAll()` with nothing else running during its `await`. */
    method CollectAll(now: int, outcomes: seq<Outcome>) returns (snapshot: Value)
      requires Valid() && |outcomes| == |Builtins|
      modifies this
      ensures Valid()
      ensures collectors == old(collectors)
      ensures data == AfterOutcomes(old(data)[TimestampKey := Num(now)], Builtins, outcomes)
      ensures snapshot == Snapshot(outcomes, Num(now))
    {
      var timestamp := Begin(now);
      snapshot := Settle(timestamp, outcomes);
    }

    /** `getData()`: the live slots. */
    method GetData() returns (d: map<string, Value>)
      ensures d == data
    {
      d := data;
    }

    /** `clear()`: fresh slots (dropping those of added collectors), and every registered collector cleared. */
    method Clear()
      requires Valid()
      modifies this, collectors.Values
      ensures Valid()
      ensures collectors == old(collectors)
      ensures data == InitialData()
      ensures forall c :: c in collectors.Values ==> c.data == Null
    {
      data := InitialData();
      forall c | c in collectors.Values {
        c.data := Null;
      }
    }

    /** `getCollector(name)`: the registered collector, or null. */
    method GetCollector(name: string) returns (c: Option<Collector>)
      ensures name in collectors ==> c == Some(collectors[name])
      ensures name !in collectors ==> c == None
    {
      if name in collectors {
        c := Some(collectors[name]);
      } else {
        c := None;
      }
    }

    /** `addCollector(name, collector)`: registers or replaces the name and nulls its slot. */
    method AddCollector(name: string, c: Collector)
      requires Valid()
      modifies this
      ensures Valid()
      ensures collectors == old(collectors)[name := c]
      ensures data == old(data)[name := Null]
    {
      collectors := collectors[name := c];
      data := data[name := Null];
    }
  }

  /** The slot writes never touch `timestamp`, and a rejected collector's slot keeps its previous value. */
  lemma {:induction false} AfterOutcomesKeepsTimestamp(data: map<string, Value>, names: seq<string>, outcomes: seq<Outcome>)
    requires |names| == |outcomes| && TimestampKey !in names
    ensures AfterOutcomes(data, names, outcomes).Keys == data.Keys + (set i | 0 <= i < |names| && outcomes[i].Fulfilled? :: names[i])
    ensures TimestampKey in data ==> AfterOutcomes(data, names, outcomes)[TimestampKey] == data[TimestampKey]
    decreases |names|
  {
    if names != [] {
      var k := |names| - 1;
      AfterOutcomesKeepsTimestamp(data, names[..k], outcomes[..k]);
      assert forall i :: 0 <= i < k ==> names[..k][i] == names[i] && outcomes[..k][i] == outcomes[i];
      assert (set i | 0 <= i < |names| && outcomes[i].Fulfilled? :: names[i])
          == (set i | 0 <= i < k && outcomes[..k][i].Fulfilled? :: names[..k][i]) + (if outcomes[k].Fulfilled? then {names[k]} else {});
    }
  }

  /**
    After the joins, a slot holds the collector's fulfilled value, or its
    previous value when the collector rejected.
   */
  lemma {:induction false} AfterOutcomesSlot(data: map<string, Value>, outcomes: seq<Outcome>, i: nat)
    requires |outcomes| == |Builtins| && i < |Builtins| && Builtins[i] in data
    ensures var d := AfterOutcomes(data, Builtins, outcomes);
      && Builtins[i] in d
      && d[Builtins[i]] == (if outcomes[i].Fulfilled? then outcomes[i].value else data[Builtins[i]])
  {
    BuiltinsDistinct();
    SlotAt(data, Builtins, outcomes, i);
  }

  lemma {:induction false} SlotAt(data: map<string, Value>, names: seq<string>, outcomes: seq<Outcome>, i: nat)
    requires |names| == |outcomes| && i < |names| && names[i] in data
    requires forall a, b :: 0 <= a < b < |names| ==> names[a] != names[b]
    ensures names[i] in AfterOutcomes(data, names, outcomes)
    ensures AfterOutcomes(data, names, outcomes)[names[i]] == (if outcomes[i].Fulfilled? then outcomes[i].value else data[names[i]])
    decreases |names|
  {
    var k := |names| - 1;
    if i < k {
      SlotAt(data, names[..k], outcomes[..k], i);
      UntouchedSlot(data, names[..k], outcomes[..k], names[i]);
    } else {
      UntouchedSlot(data, names[..k], outcomes[..k], names[i]);
    }
  }

  /** A name the joins do not list keeps its slot. */
  lemma {:induction false} UntouchedSlot(data: map<string, Value>, names: seq<string>, outcomes: seq<Outcome>, n: string)
    requires |names| == |outcomes|
    ensures n in data ==> n in AfterOutcomes(data, names, outcomes)
    ensures n in data && n !in names ==> AfterOutcomes(data, names, outcomes)[n] == data[n]
    decreases |names|
  {
    if names != [] {
      var k := |names| - 1;
      UntouchedSlot(data, names[..k], outcomes[..k], n);
      assert n !in names ==> n !in names[..k];
    }
  }

  /**
    The snapshot has exactly the eleven built-in keys and `timestamp`,
    whatever each collector did; each entry is the fulfilled value or
    `{error: message}`.
   */
  lemma SnapshotCoversBuiltins(outcomes: seq<Outcome>, timestamp: Value)
    requires |outcomes| == |Builtins|
    ensures Snapshot(outcomes, timestamp).fields.Keys == (set n | n in Builtins) + {TimestampKey}
    ensures forall i :: 0 <= i < |Builtins| ==> Snapshot(outcomes, timestamp).fields[Builtins[i]] == Entry(outcomes[i])
    ensures Snapshot(outcomes, timestamp).fields[TimestampKey] == timestamp
  {
    BuiltinsDistinct();
    EntriesMap(Builtins, outcomes, timestamp);
  }

  /** The keyed entries of distinct names, plus the `timestamp` key they do not use. */
  lemma EntriesMap(names: seq<string>, outcomes: seq<Outcome>, timestamp: Value)
    requires |names| == |outcomes| && TimestampKey !in names
    requires forall i, j :: 0 <= i < j < |names| ==> names[i] != names[j]
    ensures var f := (map i | 0 <= i < |names| :: names[i] := Entry(outcomes[i]))[TimestampKey := timestamp];
      && f.Keys == (set n | n in names) + {TimestampKey}
      && (forall i :: 0 <= i < |names| ==> f[names[i]] == Entry(outcomes[i]))
      && f[TimestampKey] == timestamp
  {
    var m := map i | 0 <= i < |names| :: names[i] := Entry(outcomes[i]);
    assert m.Keys == set n | n in names by {
      forall n | n in names
        ensures n in m
      {
        var i :| 0 <= i < |names| && names[i] == n;
      }
    }
  }

  /** The catch branch keeps every built-in key and a `timestamp`: the cached value when truthy, else `{error: '收集失败'}`. */
  lemma PartialDataCoversBuiltins(data: map<string, Value>, now: int)
    ensures PartialData(data, now).fields.Keys == (set n | n in Builtins) + {TimestampKey}
    ensures forall n :: n in Builtins ==>
      PartialData(data, now).fields[n] == (if JsTruthy(Get(data, n)) then data[n] else ErrorRecord(CollectFailed))
    ensures PartialData(data, now).fields[TimestampKey] ==
      (if JsTruthy(Get(data, TimestampKey)) then data[TimestampKey] else Num(now))
  {
    BuiltinsDistinct();
  }

  /** A collector added after construction never appears in `collectAll`'s snapshot: only the eleven built-in names do. */
  method AddedCollectorNotCollected(custom: Collector, now: int, outcomes: seq<Outcome>) returns (snapshot: Value)
    requires |outcomes| == |Builtins| && custom.name !in Builtins && custom.name != TimestampKey
    modifies custom
    ensures snapshot.Obj? && custom.name !in snapshot.fields
  {
    var dc := new DataCollector();
    dc.AddCollector(custom.name, custom);
    snapshot := dc.CollectAll(now, outcomes);
    SnapshotCoversBuiltins(outcomes, Num(now));
  }

  /**
    Two overlapping `collectAll()` calls, as the timer and a manual trigger
    can start them: the first call's snapshot, as written, carries the
    second call's timestamp.
   */
  method OverlappingCollectAll(outcomes: seq<Outcome>) returns (first: Value, firstStamp: Value)
    requires |outcomes| == |Builtins|
    ensures firstStamp == Num(1000)
    ensures first.Obj? && TimestampKey in first.fields && first.fields[TimestampKey] == Num(2000)
  {
    var dc := new DataCollector();
    firstStamp := dc.Begin(1000);
    var _ := dc.Begin(2000);
    first := dc.SettleAsWritten(outcomes);
    SnapshotCoversBuiltins(outcomes, Num(2000));
  }

  /** `clear()` during a `collectAll()`: as written, the snapshot's timestamp is null. */
  method ClearDuringCollectAll(outcomes: seq<Outcome>) returns (snapshot: Value)
    requires |outcomes| == |Builtins|
    ensures snapshot.Obj? && TimestampKey in snapshot.fields && snapshot.fields[TimestampKey] == Null
  {
    var dc := new DataCollector();
    var _ := dc.Begin(1000);
    dc.Clear();
    snapshot := dc.SettleAsWritten(outcomes);
    SnapshotCoversBuiltins(outcomes, Null);
  }

  /** With the timestamp passed through, the same interleaving keeps each call's own timestamp. */
  method OverlappingCollectAllCorrected(outcomes: seq<Outcome>) returns (first: Value, second: Value)
    requires |outcomes| == |Builtins|
    ensures first.Obj? && TimestampKey in first.fields && first.fields[TimestampKey] == Num(1000)
    ensures second.Obj? && TimestampKey in second.fields && second.fields[TimestampKey] == Num(2000)
  {
    var dc := new DataCollector();
    var t1 := dc.Begin(1000);
    var t2 := dc.Begin(2000);
    dc.Clear();
    first := dc.Settle(t1, outcomes);
    second := dc.Settle(t2, outcomes);
    SnapshotCoversBuiltins(outcomes, t1);
    SnapshotCoversBuiltins(outcomes, t2);
  }
}
