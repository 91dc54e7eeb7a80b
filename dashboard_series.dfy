/**
  The in-memory part of the dashboard's battery, location and network
  endpoints. The database query is left out: each endpoint takes the rows
  it would have fetched, already filtered and ordered, and builds its
  response from them.

  Python's `d.get(k)`, `v is not None` and `if v and isinstance(v, dict)`
  are `Get`, `v != Null` and `PyDict` over `Json.Value`.
 */
module Dashboard {
  import opened Json

  const MaxPoints: nat := 100
  const MaxLocations: nat := 1000
  const NotAvailable := Str("N/A")

  /** A stored submission: `created_at` (already rendered, or `Null`), `timestamp` and the `data` column. */
  datatype Row = Row(createdAt: Value, timestamp: Value, data: Value)

  // ---------------------------------------------------------------- extraction

  /**
    The points a `for record in recent_data` loop appends: `pick` decides
    for one row whether it contributes a point and which one.
   */
  function Extracted(rows: seq<Row>, pick: Row -> Option<Value>): (r: seq<Value>)
    ensures |r| <= |rows|
  {
    if rows == [] then []
    else
      var init := Extracted(rows[..|rows| - 1], pick);
      match pick(rows[|rows| - 1])
      case Some(p) => init + [p]
      case None => init
  }

  /** The extraction loop itself. */
  method CollectPoints(rows: seq<Row>, pick: Row -> Option<Value>) returns (points: seq<Value>)
    ensures points == Extracted(rows, pick)
  {
    points := [];
    var i := 0;
    while i < |rows|
      invariant 0 <= i <= |rows|
      invariant points == Extracted(rows[..i], pick)
    {
      assert rows[..i + 1][..i] == rows[..i];
      match pick(rows[i]) {
        case Some(p) =>
          points := points + [p];
        case None =>
      }
      i := i + 1;
    }
    assert rows[..|rows|] == rows;
  }

  /** Extraction keeps the rows' order: it distributes over concatenation, one row giving at most one point. */
  lemma {:induction false} ExtractedAppend(a: seq<Row>, b: seq<Row>, pick: Row -> Option<Value>)
    ensures Extracted(a + b, pick) == Extracted(a, pick) + Extracted(b, pick)
    decreases |b|
  {
    if b == [] {
      assert a + b == a;
    } else {
      var b0 := b[..|b| - 1];
      assert (a + b)[..|a + b| - 1] == a + b0;
      assert (a + b)[|a + b| - 1] == b[|b| - 1];
      ExtractedAppend(a, b0, pick);
    }
  }

  lemma ExtractedSingle(r: Row, pick: Row -> Option<Value>)
    ensures Extracted([r], pick) == (if pick(r).Some? then [pick(r).value] else [])
  {
    assert [r][..0] == [];
  }

  /** A point is extracted exactly when some row picks it. */
  lemma {:induction false} ExtractedMembers(rows: seq<Row>, pick: Row -> Option<Value>, p: Value)
    ensures p in Extracted(rows, pick) <==> exists i :: 0 <= i < |rows| && pick(rows[i]) == Some(p)
  {
    if rows != [] {
      var init := rows[..|rows| - 1];
      ExtractedMembers(init, pick, p);
      if p in Extracted(rows, pick) && p !in Extracted(init, pick) {
        assert pick(rows[|rows| - 1]) == Some(p);
      }
      if exists i :: 0 <= i < |rows| && pick(rows[i]) == Some(p) {
        var i :| 0 <= i < |rows| && pick(rows[i]) == Some(p);
        if i < |rows| - 1 {
          assert init[i] == rows[i];
        }
      }
    }
  }

  // ---------------------------------------------------------------- the three series

  /** `get_battery_stats`: a point needs a dict `data`, a dict `battery` and a `level` that is not None; `isCharging` defaults to False. */
  function BatteryPick(r: Row): (picked: Option<Value>) {
    if !PyDict(r.data) then None
    else
      var battery := Get(r.data.fields, "battery");
      if !PyDict(battery) || Get(battery.fields, "level") == Null then None
      else Some(Obj(map["time" := r.createdAt, "timestamp" := r.timestamp, "level" := Get(battery.fields, "level"),
                        "isCharging" := GetOr(battery.fields, "isCharging", Bool(false))]))
  }

  /** `get_location_stats`: a location needs both coordinates not None. */
  function LocationPick(r: Row): (picked: Option<Value>) {
    if !PyDict(r.data) then None
    else
      var location := Get(r.data.fields, "location");
      if !PyDict(location) then None
      else
        var lat := Get(location.fields, "latitude");
        var lng := Get(location.fields, "longitude");
        if lat == Null || lng == Null then None
        else Some(Obj(map["latitude" := lat, "longitude" := lng, "timestamp" := r.timestamp]))
  }

  /** `get_network_stats`: a point needs dict `networkInfo` and `wifiInfo` and a `signalStrength` that is not None. */
  function NetworkPick(r: Row): (picked: Option<Value>) {
    if !PyDict(r.data) then None
    else
      var net := Get(r.data.fields, "networkInfo");
      if !PyDict(net) then None
      else
        var wifi := Get(net.fields, "wifiInfo");
        if !PyDict(wifi) || Get(wifi.fields, "signalStrength") == Null then None
        else Some(Obj(map["time" := r.createdAt, "timestamp" := r.timestamp,
                          "signalStrength" := Get(wifi.fields, "signalStrength"),
                          "ssid" := GetOr(wifi.fields, "ssid", NotAvailable),
                          "networkType" := GetOr(net.fields, "networkType", NotAvailable)]))
  }

  /** A battery level of 0 is a reading, and `isCharging` is copied from the record when present. */
  lemma BatteryZeroLevelCounts(time: Value, stamp: Value, charging: Value)
    ensures var p := BatteryPick(Row(time, stamp, Obj(map["battery" := Obj(map["level" := Num(0), "isCharging" := charging])])));
      p.Some? && p.value.fields["level"] == Num(0) && p.value.fields["isCharging"] == charging
  {
    var battery := map["level" := Num(0), "isCharging" := charging];
    var data := map["battery" := Obj(battery)];
    assert "battery" in data && "level" in battery && "isCharging" in battery;
  }

  /** A missing `isCharging` reads False; a None level is no reading. */
  lemma BatteryDefaults(time: Value, stamp: Value)
    ensures var p := BatteryPick(Row(time, stamp, Obj(map["battery" := Obj(map["level" := Num(5)])])));
      p.Some? && p.value.fields["isCharging"] == Bool(false)
    ensures BatteryPick(Row(time, stamp, Obj(map["battery" := Obj(map["level" := Null])]))).None?
  {
    var battery := map["level" := Num(5)];
    var data := map["battery" := Obj(battery)];
    assert "battery" in data && "level" in battery && "isCharging" !in battery;
    var battery2 := map["level" := Null];
    var data2 := map["battery" := Obj(battery2)];
    assert "battery" in data2 && "level" in battery2;
  }

  /** `ssid` and `networkType` fall back to 'N/A' only when the key is missing; a None value is kept. */
  lemma NetworkDefaultsOnlyForMissingKeys(r: Row)
    requires NetworkPick(r).Some?
    ensures var net := r.data.fields["networkInfo"].fields;
      var wifi := net["wifiInfo"].fields;
      var p := NetworkPick(r).value.fields;
      && p["signalStrength"] != Null
      && p["ssid"] == (if "ssid" in wifi then wifi["ssid"] else NotAvailable)
      && p["networkType"] == (if "networkType" in net then net["networkType"] else NotAvailable)
  {
  }

  // ---------------------------------------------------------------- downsampling

  /** Python's `s[::k]`: the elements at indices 0, k, 2k, … */
  function EveryKth(s: seq<Value>, k: nat): (r: seq<Value>)
    requires k >= 1
    decreases |s|
  {
    if |s| == 0 then []
    else if |s| <= k then [s[0]]
    else [s[0]] + EveryKth(s[k..], k)
  }

  lemma MulStep(j: nat, k: nat)
    requires j >= 1
    ensures (j - 1) * k + k == j * k
  {
  }

  /** The `j`-th element of `s[::k]` is `s[j * k]`. */
  lemma {:induction false} EveryKthAt(s: seq<Value>, k: nat, j: nat)
    requires k >= 1 && j < |EveryKth(s, k)|
    ensures j * k < |s| && EveryKth(s, k)[j] == s[j * k]
    decreases |s|
  {
    if j > 0 {
      assert |s| > k;
      var t := s[k..];
      EveryKthAt(t, k, j - 1);
      var m := (j - 1) * k;
      MulStep(j, k);
      assert EveryKth(s, k)[j] == EveryKth(t, k)[j - 1] == t[m] == s[m + k];
    }
  }

  /** `s[::k]` has ⌈|s|/k⌉ elements. */
  lemma {:induction false} EveryKthLength(s: seq<Value>, k: nat)
    requires k >= 1
    ensures var r := EveryKth(s, k);
      && (|r| == 0 <==> |s| == 0)
      && (|r| > 0 ==> (|r| - 1) * k < |s| <= |r| * k)
    decreases |s|
  {
    if |s| > k {
      var t := s[k..];
      EveryKthLength(t, k);
      var n := |EveryKth(t, k)|;
      assert |EveryKth(s, k)| == n + 1;
      MulStep(n, k);
      MulStep(n + 1, k);
    }
  }

  /** The sampling of lines 224-228 and 319-323: above 100 points, every `n // 100`-th point. */
  function Downsample(points: seq<Value>): (r: seq<Value>) {
    if |points| > MaxPoints then EveryKth(points, |points| / MaxPoints) else points
  }

  lemma MulMono(a: int, b: int, k: nat)
    requires a <= b
    ensures a * k <= b * k
  {
    assert b * k - a * k == (b - a) * k;
  }

  /**
    Up to 100 points pass unchanged. Above, the result keeps the points at
    multiples of the step, in order, starting with the first, and has
    between 100 and 199 of them: the sampling does not cap at 100.
   */
  lemma DownsampleBounds(points: seq<Value>)
    ensures |points| <= MaxPoints ==> Downsample(points) == points
    ensures |points| > MaxPoints ==> var r := Downsample(points); var step := |points| / MaxPoints;
      && step >= 1
      && 100 <= |r| <= 199
      && r[0] == points[0]
      && (forall j :: 0 <= j < |r| ==> j * step < |points| && r[j] == points[j * step])
  {
    if |points| > MaxPoints {
      var n := |points|;
      var k := n / 100;
      assert 100 * k <= n < 100 * k + 100;
      assert k >= 1;
      var r := EveryKth(points, k);
      EveryKthLength(points, k);
      forall j | 0 <= j < |r|
        ensures j * k < n && r[j] == points[j * k]
      {
        EveryKthAt(points, k, j);
      }
      if |r| < 100 {
        MulMono(|r|, 99, k);
        assert false;
      }
      if |r| > 199 {
        MulMono(199, |r| - 1, k);
        assert false;
      }
    }
  }

  // ---------------------------------------------------------------- statistics

  /** `[p[key] for p in points]`. */
  function Levels(points: seq<Value>, key: string): (vs: seq<Value>)
    ensures |vs| == |points| && forall i :: 0 <= i < |points| ==> vs[i] == Prop(points[i], key)
  {
    if points == [] then [] else [Prop(points[0], key)] + Levels(points[1..], key)
  }

  predicate AllNum(vs: seq<Value>) {
    forall i :: 0 <= i < |vs| ==> vs[i].Num?
  }

  function MinOf(vs: seq<Value>): (m: int)
    requires |vs| > 0 && AllNum(vs)
  {
    if |vs| == 1 then vs[0].n
    else var m := MinOf(vs[1..]); if vs[0].n <= m then vs[0].n else m
  }

  function MaxOf(vs: seq<Value>): (m: int)
    requires |vs| > 0 && AllNum(vs)
  {
    if |vs| == 1 then vs[0].n
    else var m := MaxOf(vs[1..]); if vs[0].n >= m then vs[0].n else m
  }

  /** `min` and `max` are attained and bound every value. */
  lemma {:induction false} MinMaxAttained(vs: seq<Value>)
    requires |vs| > 0 && AllNum(vs)
    ensures exists i :: 0 <= i < |vs| && vs[i] == Num(MinOf(vs))
    ensures exists i :: 0 <= i < |vs| && vs[i] == Num(MaxOf(vs))
    ensures forall i :: 0 <= i < |vs| ==> MinOf(vs) <= vs[i].n <= MaxOf(vs)
  {
    if |vs| > 1 {
      var tail := vs[1..];
      MinMaxAttained(tail);
      var a :| 0 <= a < |tail| && tail[a] == Num(MinOf(tail));
      var b :| 0 <= b < |tail| && tail[b] == Num(MaxOf(tail));
      assert MinOf(vs) == if vs[0].n <= MinOf(tail) then vs[0].n else MinOf(tail);
      assert MaxOf(vs) == if vs[0].n >= MaxOf(tail) then vs[0].n else MaxOf(tail);
      var lo := if vs[0].n <= MinOf(tail) then 0 else a + 1;
      var hi := if vs[0].n >= MaxOf(tail) then 0 else b + 1;
      assert vs[lo] == Num(MinOf(vs));
      assert vs[hi] == Num(MaxOf(vs));
      forall i | 1 <= i < |vs|
        ensures MinOf(vs) <= vs[i].n <= MaxOf(vs)
      {
        assert vs[i] == tail[i - 1];
      }
    } else {
      assert vs[0] == Num(MinOf(vs)) == Num(MaxOf(vs));
    }
  }

  /**
    `min`/`max` of the levels, 0 for no points. `None` when the levels are
    not all integers: the model's stand-in for a comparison that raises.
   */
  function Stats(points: seq<Value>, key: string): (r: Option<(int, int)>) {
    if points == [] then Some((0, 0))
    else
      var vs := Levels(points, key);
      if AllNum(vs) then Some((MinOf(vs), MaxOf(vs))) else None
  }

  /** Sampling picks among the points, so integer levels stay integer levels. */
  lemma DownsampleKeepsNum(points: seq<Value>, key: string)
    requires AllNum(Levels(points, key))
    ensures AllNum(Levels(Downsample(points), key))
  {
    if |points| > MaxPoints {
      DownsampleBounds(points);
      var shown := Downsample(points);
      var step := |points| / MaxPoints;
      forall i | 0 <= i < |shown|
        ensures Levels(shown, key)[i].Num?
      {
        assert shown[i] == points[i * step];
        assert Levels(points, key)[i * step].Num?;
      }
    }
  }

  /** The body of the battery and network responses, without `avg`. */
  function SeriesResponse(points: seq<Value>, key: string): (r: Option<Value>) {
    var shown := Downsample(points);
    match Stats(shown, key)
    case None => None
    case Some((lo, hi)) =>
      Some(Obj(map["points" := Arr(shown), "count" := Num(|shown|),
                   "stats" := Obj(map["min" := Num(lo), "max" := Num(hi)])]))
  }

  /**
    `count` is the number of points returned; `min` and `max` are levels of
    returned points bounding all of them, or 0 with no points. With integer
    levels throughout the response always exists.
   */
  lemma SeriesResponseMeaning(points: seq<Value>, key: string)
    ensures AllNum(Levels(points, key)) ==> SeriesResponse(points, key).Some?
    ensures SeriesResponse(points, key).Some? ==>
      var resp := SeriesResponse(points, key).value;
      var shown := Downsample(points);
      var vs := Levels(shown, key);
      var lo := resp.fields["stats"].fields["min"].n;
      var hi := resp.fields["stats"].fields["max"].n;
      && resp.fields["points"] == Arr(shown)
      && resp.fields["count"] == Num(|shown|)
      && (shown == [] ==> lo == 0 && hi == 0)
      && (shown != [] ==> Num(lo) in vs && Num(hi) in vs)
      && (forall i :: 0 <= i < |vs| ==> lo <= vs[i].n <= hi)
  {
    var shown := Downsample(points);
    if AllNum(Levels(points, key)) {
      DownsampleKeepsNum(points, key);
    }
    var vs := Levels(shown, key);
    if shown != [] && AllNum(vs) {
      MinMaxAttained(vs);
    }
  }

  /** `get_location_stats`' response: `count` before truncation, and the first 1000 locations. */
  function LocationResponse(valid: seq<Value>): (r: Value) {
    Obj(map["count" := Num(|valid|), "locations" := Arr(if |valid| <= MaxLocations then valid else valid[..MaxLocations])])
  }

  lemma LocationResponseMeaning(valid: seq<Value>)
    ensures var resp := LocationResponse(valid).fields;
      && resp["count"] == Num(|valid|)
      && resp["locations"].Arr?
      && |resp["locations"].items| == (if |valid| <= MaxLocations then |valid| else MaxLocations)
      && resp["locations"].items <= valid
  {
  }

  // ---------------------------------------------------------------- endpoints

  method BatteryStats(rows: seq<Row>) returns (resp: Option<Value>)
    ensures resp == SeriesResponse(Extracted(rows, BatteryPick), "level")
  {
    var points := CollectPoints(rows, BatteryPick);
    resp := SeriesResponse(points, "level");
  }

  method LocationStats(rows: seq<Row>) returns (resp: Value)
    ensures resp == LocationResponse(Extracted(rows, LocationPick))
  {
    var locations := CollectPoints(rows, LocationPick);
    resp := LocationResponse(locations);
  }

  method NetworkStats(rows: seq<Row>) returns (resp: Option<Value>)
    ensures resp == SeriesResponse(Extracted(rows, NetworkPick), "signalStrength")
  {
    var points := CollectPoints(rows, NetworkPick);
    resp := SeriesResponse(points, "signalStrength");
  }
}
