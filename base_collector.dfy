/**
  The collector contract of `BaseCollector`: a named source with a cache slot
  `data`, an outcome per `collect()` call, and the timeout race every timed
  collector runs its platform query against.

  Time is measured in integer milliseconds from the moment `collect()` is
  called. A platform callback, a timer or a whole promise is described by a
  `Settlement`: either it never settles, or it settles at a known time with a
  known result.
 */
module Collectors {
  import opened Json

  /** How a `collect()` promise settles: fulfilled with its record, or rejected with an Error's message. */
  datatype Outcome = Fulfilled(value: Value) | Rejected(message: string)

  /** When an asynchronous step settles, if ever, and with what. */
  datatype Settlement<T> = Pending | SettledAt(time: nat, result: T)

  /** The reply of a callback-style platform API: the `success` payload or the `fail` callback's `errMsg`. */
  datatype PlatformResult = Ok(payload: Value) | Err(errMsg: string)

  /** `err.errMsg || fallback`: an empty `errMsg` stands for a missing one. */
  function ErrMsgOr(errMsg: string, fallback: string): (r: string) {
    if errMsg != "" then errMsg else fallback
  }

  /**
    `Promise.race([a, b])`: the first of the two to settle. When both settle at
    the same millisecond the first argument wins, as it does for two promises
    that are already settled when the race subscribes to them in order.
   */
  function Race<T>(a: Settlement<T>, b: Settlement<T>): (r: Settlement<T>)
    ensures r == a || r == b
    ensures r.SettledAt? <==> a.SettledAt? || b.SettledAt?
    ensures r.SettledAt? && a.SettledAt? ==> r.time <= a.time
    ensures r.SettledAt? && b.SettledAt? ==> r.time <= b.time
    ensures a.SettledAt? && (b.SettledAt? ==> a.time <= b.time) ==> r == a
  {
    match a
    case Pending => b
    case SettledAt(ta, _) => if b.SettledAt? && b.time < ta then b else a
  }

  /** `createTimeoutPromise(timeout, message)`: never fulfils, rejects with `message` after `timeout` ms. */
  function TimeoutPromise(timeout: nat, message: string): (r: Settlement<Outcome>) {
    SettledAt(timeout, Rejected(message))
  }

  /**
    `Promise.race([collectPromise, this.createTimeoutPromise(deadline, message)])`.
    The race always settles, no later than the deadline; it carries the
    collection's outcome exactly when the collection settles by the deadline.
   */
  function WithDeadline(collection: Settlement<Outcome>, deadline: nat, message: string): (r: Settlement<Outcome>)
    ensures r.SettledAt? && r.time <= deadline
    ensures collection.SettledAt? && collection.time <= deadline ==> r == collection
    ensures !(collection.SettledAt? && collection.time <= deadline) ==> r == SettledAt(deadline, Rejected(message))
  {
    Race(collection, TimeoutPromise(deadline, message))
  }

  /**
    `Promise.allSettled`: settles once every input has settled, at the latest
    of their times, with their results in order; never, if any input never does.
   */
  function AllSettled<T>(ps: seq<Settlement<T>>): (r: Settlement<seq<T>>)
    ensures r.SettledAt? <==> forall i :: 0 <= i < |ps| ==> ps[i].SettledAt?
    ensures r.SettledAt? ==> |r.result| == |ps|
    ensures r.SettledAt? ==> forall i :: 0 <= i < |ps| ==> r.result[i] == ps[i].result && ps[i].time <= r.time
    ensures r.SettledAt? && ps != [] ==> exists i :: 0 <= i < |ps| && ps[i].time == r.time
    decreases |ps|
  {
    if ps == [] then SettledAt(0, [])
    else
      var rest := AllSettled(ps[1..]);
      if ps[0].Pending? || rest.Pending? then
        assert ps[0].Pending? || exists j :: 1 <= j < |ps| && ps[j].Pending? by {
          if !ps[0].Pending? {
            var j :| 0 <= j < |ps| - 1 && ps[1..][j].Pending?;
            assert ps[j + 1].Pending?;
          }
        }
        Pending
      else
        var t := if ps[0].time >= rest.time then ps[0].time else rest.time;
        assert forall i :: 1 <= i < |ps| ==> ps[i] == ps[1..][i - 1];
        SettledAt(t, [ps[0].result] + rest.result)
  }

  /**
    The join over collectors that each race a deadline settles, and no later
    than the largest deadline: its cost is the maximum of the deadlines, not their sum.
   */
  lemma {:induction false} JoinOfRacedCollectorsIsBounded(collections: seq<Settlement<Outcome>>, deadlines: seq<nat>, messages: seq<string>, bound: nat)
    requires |collections| == |deadlines| == |messages|
    requires forall i :: 0 <= i < |deadlines| ==> deadlines[i] <= bound
    ensures var raced := seq(|collections|, i requires 0 <= i < |collections| => WithDeadline(collections[i], deadlines[i], messages[i]));
      AllSettled(raced).SettledAt? && AllSettled(raced).time <= bound
  {
    var raced := seq(|collections|, i requires 0 <= i < |collections| => WithDeadline(collections[i], deadlines[i], messages[i]));
    var r := AllSettled(raced);
    assert r.SettledAt?;
    if raced != [] {
      var i :| 0 <= i < |raced| && raced[i].time == r.time;
    }
  }

  const NotImplementedMessage := "collect() 方法必须在子类中实现"

  /** A data source with a name and the record it collected last (`null` until then). */
  class Collector {
    const name: string
    var data: Value

    /** `new BaseCollector(name)`. */
    constructor (name: string)
      ensures this.name == name && data == Null
    {
      this.name := name;
      data := Null;
    }

    /** `getData()`: the record currently cached. */
    method GetData() returns (d: Value)
      ensures d == data
    {
      d := data;
    }

    /** `clear()`: forget the cached record. */
    method Clear()
      modifies this
      ensures data == Null
    {
      data := Null;
    }

    /** The base `collect()`: always rejects, and leaves the cache alone. */
    method Collect() returns (o: Settlement<Outcome>)
      ensures o == SettledAt(0, Rejected(NotImplementedMessage))
    {
      o := SettledAt(0, Rejected(NotImplementedMessage));
    }
  }
}
