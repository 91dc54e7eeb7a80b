/**
  `AppInfoCollector`: one `uni.getSystemInfo` query, no timeout. On APP-PLUS
  builds the record is enriched from `plus.runtime` inside a `try` whose
  failures are swallowed.
 */
module AppInfoCollector {
  import opened Json
  import opened Collectors
  import FieldCopy

  const Name := "appInfo"
  const FailureMessage := "获取应用信息失败"

  const BaseKeys := ["appName", "appVersion", "appVersionCode", "appLanguage", "uniVersion", "uniCompileVersion"]

  /** The six `plus.runtime` properties, in the order the enrichment assigns them. */
  const RuntimeKeys := ["appid", "version", "versionCode", "name", "launcher", "origin"]

  /**
    The enrichment's environment: whether the build is APP-PLUS and
    `plus.runtime` exists, its properties, and the index of the first read of
    them that throws, if any.
   */
  datatype Plus = Plus(present: bool, runtime: Value, throwsAt: Option<nat>)

  /** How many of the six assignments complete before the `try` is left. */
  function Completed(p: Plus): (n: nat)
    ensures n <= |RuntimeKeys|
  {
    if !p.present then 0
    else if p.throwsAt.Some? && p.throwsAt.value < |RuntimeKeys| then p.throwsAt.value
    else |RuntimeKeys|
  }

  /** The record with the first `n` of `keys` assigned from the runtime. */
  function Enriched(base: map<string, Value>, runtime: Value, keys: seq<string>, n: nat): (r: map<string, Value>)
    requires n <= |keys|
  {
    if n == 0 then base
    else Enriched(base, runtime, keys, n - 1)[keys[n - 1] := Prop(runtime, keys[n - 1])]
  }

  function AppRecord(res: Value, now: int, p: Plus): (r: Value) {
    Obj(Enriched(FieldCopy.Record(BaseKeys, res, now), p.runtime, RuntimeKeys, Completed(p)))
  }

  function Outcome(reply: Settlement<PlatformResult>, now: int, p: Plus): (r: Settlement<Outcome>) {
    FieldCopy.Reply(reply, res => AppRecord(res, now, p), FailureMessage)
  }

  /** The `try` block: assigns the runtime properties one by one until one read throws. */
  method EnhanceByPlus(info: map<string, Value>, p: Plus) returns (enriched: map<string, Value>)
    ensures enriched == Enriched(info, p.runtime, RuntimeKeys, Completed(p))
  {
    enriched := info;
    var done := Completed(p);
    var rt := p.runtime;
    if done > 0 {
      enriched := enriched["appid" := Prop(rt, "appid")];
      assert enriched == Enriched(info, rt, RuntimeKeys, 1);
    }
    if done > 1 {
      enriched := enriched["version" := Prop(rt, "version")];
      assert enriched == Enriched(info, rt, RuntimeKeys, 2);
    }
    if done > 2 {
      enriched := enriched["versionCode" := Prop(rt, "versionCode")];
      assert enriched == Enriched(info, rt, RuntimeKeys, 3);
    }
    if done > 3 {
      enriched := enriched["name" := Prop(rt, "name")];
      assert enriched == Enriched(info, rt, RuntimeKeys, 4);
    }
    if done > 4 {
      enriched := enriched["launcher" := Prop(rt, "launcher")];
      assert enriched == Enriched(info, rt, RuntimeKeys, 5);
    }
    if done > 5 {
      enriched := enriched["origin" := Prop(rt, "origin")];
      assert enriched == Enriched(info, rt, RuntimeKeys, 6);
    }
  }

  /** `collect()`: builds the record, enriches it, caches it and resolves with it. */
  method Collect(c: Collector, reply: Settlement<PlatformResult>, now: int, p: Plus) returns (o: Settlement<Outcome>)
    modifies c
    ensures o == Outcome(reply, now, p)
    ensures c.data == FieldCopy.CachedAfter(o, old(c.data))
  {
    match reply {
      case Pending =>
        o := Pending;
      case SettledAt(t, Ok(res)) =>
        if Nullish(res) {
          return Pending;
        }
        var appInfo := FieldCopy.Record(BaseKeys, res, now);
        appInfo := EnhanceByPlus(appInfo, p);
        c.data := Obj(appInfo);
        o := SettledAt(t, Fulfilled(c.data));
      case SettledAt(t, Err(m)) =>
        o := SettledAt(t, Rejected(ErrMsgOr(m, FailureMessage)));
    }
  }

  /**
    The enrichment only adds: the first `n` keys hold the runtime's values,
    nothing else is added, and every base field is kept.
   */
  lemma EnrichedAddsPrefix(base: map<string, Value>, runtime: Value, keys: seq<string>, n: nat)
    requires n <= |keys|
    requires forall k :: k in keys ==> k !in base
    requires forall i, j :: 0 <= i < j < |keys| ==> keys[i] != keys[j]
    ensures var e := Enriched(base, runtime, keys, n);
      && (forall k :: k in base ==> k in e && e[k] == base[k])
      && (forall i :: 0 <= i < n ==> keys[i] in e && e[keys[i]] == Prop(runtime, keys[i]))
      && (forall k :: k in e ==> k in base || k in keys[..n])
  {
    EnrichedKeepsBase(base, runtime, keys, n);
    EnrichedAssigns(base, runtime, keys, n);
    EnrichedAddsOnlyKeys(base, runtime, keys, n);
  }

  lemma {:induction false} EnrichedKeepsBase(base: map<string, Value>, runtime: Value, keys: seq<string>, n: nat)
    requires n <= |keys|
    requires forall k :: k in keys ==> k !in base
    ensures forall k :: k in base ==> k in Enriched(base, runtime, keys, n) && Enriched(base, runtime, keys, n)[k] == base[k]
  {
    if n > 0 {
      EnrichedKeepsBase(base, runtime, keys, n - 1);
      assert keys[n - 1] !in base;
    }
  }

  lemma {:induction false} EnrichedAssigns(base: map<string, Value>, runtime: Value, keys: seq<string>, n: nat)
    requires n <= |keys|
    requires forall i, j :: 0 <= i < j < |keys| ==> keys[i] != keys[j]
    ensures forall i :: 0 <= i < n ==>
      keys[i] in Enriched(base, runtime, keys, n) && Enriched(base, runtime, keys, n)[keys[i]] == Prop(runtime, keys[i])
  {
    if n > 0 {
      EnrichedAssigns(base, runtime, keys, n - 1);
      var e := Enriched(base, runtime, keys, n);
      forall i | 0 <= i < n - 1
        ensures keys[i] in e && e[keys[i]] == Prop(runtime, keys[i])
      {
        assert keys[i] != keys[n - 1];
      }
    }
  }

  lemma {:induction false} EnrichedAddsOnlyKeys(base: map<string, Value>, runtime: Value, keys: seq<string>, n: nat)
    requires n <= |keys|
    ensures forall k :: k in Enriched(base, runtime, keys, n) ==> k in base || k in keys[..n]
  {
    if n > 0 {
      EnrichedAddsOnlyKeys(base, runtime, keys, n - 1);
      assert keys[..n] == keys[..n - 1] + [keys[n - 1]];
    }
  }

  lemma RuntimeKeysDistinct()
    ensures forall i, j :: 0 <= i < j < |RuntimeKeys| ==> RuntimeKeys[i] != RuntimeKeys[j]
  {
  }

  /**
    A successful query with a readable reply always resolves, whatever the
    enrichment does: the base fields and `timestamp` are there, and the
    runtime properties read before a throw are added. A null reply throws
    while the base record is built, before the enrichment, and never settles.
   */
  lemma EnrichmentNeverFails(t: nat, res: Value, now: int, p: Plus)
    ensures Nullish(res) ==> Outcome(SettledAt(t, Ok(res)), now, p).Pending?
    ensures !Nullish(res) ==> var o := Outcome(SettledAt(t, Ok(res)), now, p);
      && o.SettledAt? && o.time == t && o.result.Fulfilled?
      && (forall k :: k in BaseKeys ==> k in o.result.value.fields && o.result.value.fields[k] == Prop(res, k))
      && "timestamp" in o.result.value.fields && o.result.value.fields["timestamp"] == Num(now)
      && (forall i :: 0 <= i < Completed(p) ==>
            RuntimeKeys[i] in o.result.value.fields && o.result.value.fields[RuntimeKeys[i]] == Prop(p.runtime, RuntimeKeys[i]))
      && (p.present && p.throwsAt.None? ==> forall k :: k in RuntimeKeys ==> k in o.result.value.fields)
  {
    var base := FieldCopy.Record(BaseKeys, res, now);
    assert forall k :: k in RuntimeKeys ==> k !in base;
    RuntimeKeysDistinct();
    EnrichedAddsPrefix(base, p.runtime, RuntimeKeys, Completed(p));
  }

  /** Outside APP-PLUS, or without `plus.runtime`, the record is the base record alone. */
  lemma NoRuntimeNoEnrichment(res: Value, now: int, p: Plus)
    requires !p.present
    ensures AppRecord(res, now, p) == Obj(FieldCopy.Record(BaseKeys, res, now))
  {
  }
}
