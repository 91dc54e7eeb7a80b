/**
  `LocationCollector`: one `uni.getLocation` query raced against a 15 s timeout.
 */
module LocationCollector {
  import opened Json
  import opened Collectors

  const Name := "location"
  const Deadline: nat := 15000
  const TimeoutMessage := "收集位置信息超时（15秒）"
  const FailureMessage := "获取位置信息失败"

  /** `{latitude, longitude, accuracy, altitude, verticalAccuracy, address, timestamp}` from the query's result. */
  function LocationRecord(res: Value, now: int): (r: Value) {
    Obj(map[
      "latitude" := Prop(res, "latitude"),
      "longitude" := Prop(res, "longitude"),
      "accuracy" := Prop(res, "accuracy"),
      "altitude" := Prop(res, "altitude"),
      "verticalAccuracy" := Prop(res, "verticalAccuracy"),
      "address" := Prop(res, "address"),
      "timestamp" := Num(now)])
  }

  /**
    `collectPromise`: resolves with the record, or rejects with `err.errMsg`
    or the default message. A null reply throws in the success callback before
    `resolve`, so the promise stays pending.
   */
  function Collection(reply: Settlement<PlatformResult>, now: int): (r: Settlement<Outcome>) {
    match reply
    case Pending => Pending
    case SettledAt(t, Ok(res)) => if Nullish(res) then Pending else SettledAt(t, Fulfilled(LocationRecord(res, now)))
    case SettledAt(t, Err(m)) => SettledAt(t, Rejected(ErrMsgOr(m, FailureMessage)))
  }

  function Outcome(reply: Settlement<PlatformResult>, now: int): (r: Settlement<Outcome>) {
    WithDeadline(Collection(reply, now), Deadline, TimeoutMessage)
  }

  /** The cache once the callback has run: a readable success writes it whether or not the race was lost. */
  function Cached(reply: Settlement<PlatformResult>, now: int, previous: Value): (r: Value) {
    if reply.SettledAt? && reply.result.Ok? && !Nullish(reply.result.payload) then LocationRecord(reply.result.payload, now) else previous
  }

  /** `collect()`. */
  method Collect(c: Collector, reply: Settlement<PlatformResult>, now: int) returns (o: Settlement<Outcome>)
    modifies c
    ensures o == Outcome(reply, now)
    ensures c.data == Cached(reply, now, old(c.data))
  {
    var collection: Settlement<Outcome>;
    match reply {
      case Pending =>
        collection := Pending;
      case SettledAt(t, Ok(res)) =>
        if Nullish(res) {
          collection := Pending;
        } else {
          c.data := LocationRecord(res, now);
          collection := SettledAt(t, Fulfilled(c.data));
        }
      case SettledAt(t, Err(m)) =>
        collection := SettledAt(t, Rejected(ErrMsgOr(m, FailureMessage)));
    }
    o := Race(collection, TimeoutPromise(Deadline, TimeoutMessage));
  }

  /**
    The outcome is the query's when it replies within 15 s: the record on
    success, `errMsg` or the default on failure; otherwise, and for a null
    success reply, whose callback throws, the timeout.
   */
  lemma OutcomeCases(reply: Settlement<PlatformResult>, now: int)
    ensures reply.SettledAt? && reply.time <= Deadline && reply.result.Ok? && !Nullish(reply.result.payload) ==>
      Outcome(reply, now) == SettledAt(reply.time, Fulfilled(LocationRecord(reply.result.payload, now)))
    ensures reply.SettledAt? && reply.time <= Deadline && reply.result.Err? ==>
      Outcome(reply, now) == SettledAt(reply.time, Rejected(ErrMsgOr(reply.result.errMsg, FailureMessage)))
    ensures !(reply.SettledAt? && reply.time <= Deadline) || (reply.result.Ok? && Nullish(reply.result.payload)) ==>
      Outcome(reply, now) == SettledAt(Deadline, Rejected(TimeoutMessage))
  {
  }

  /**
    A success that arrives after the timeout has won still overwrites the
    cache, though `collect()` rejected, unless its reply is null and the
    callback throws first.
   */
  lemma LateSuccessStillCached(t: nat, res: Value, now: int, previous: Value)
    requires t > Deadline
    ensures Outcome(SettledAt(t, Ok(res)), now).result == Rejected(TimeoutMessage)
    ensures Cached(SettledAt(t, Ok(res)), now, previous) == if Nullish(res) then previous else LocationRecord(res, now)
  {
  }
}
