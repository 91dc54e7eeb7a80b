/**
  The in-memory part of the dashboard's `/apps` endpoint: the app name read
  from each row's `foregroundApp`, the tally into an insertion-ordered dict,
  the stable sort by count, highest first, and the `[:limit]` slice.
 */
module DashboardApps {
  import opened Json
  import opened Dashboard

  /** The fields tried for the app name, in priority order. */
  const NameKeys := ["packageName", "package_name", "appName", "name", "app_name"]

  /** Python's `a or b`. */
  function PyOr(a: Value, b: Value): (r: Value) {
    if PyTruthy(a) then a else b
  }

  /** `fg.get(keys[0]) or fg.get(keys[1]) or …`: the last operand when none is truthy. */
  function FirstTruthy(fg: map<string, Value>, keys: seq<string>): (r: Value)
    requires |keys| > 0
  {
    if |keys| == 1 then Get(fg, keys[0]) else PyOr(Get(fg, keys[0]), FirstTruthy(fg, keys[1..]))
  }

  /** The `or` chain yields the field of the first key whose value is truthy, and a falsy value when there is none. */
  lemma {:induction false} FirstTruthyIsFirst(fg: map<string, Value>, keys: seq<string>)
    requires |keys| > 0
    ensures PyTruthy(FirstTruthy(fg, keys)) <==> exists i :: 0 <= i < |keys| && PyTruthy(Get(fg, keys[i]))
    ensures forall i :: 0 <= i < |keys| && PyTruthy(Get(fg, keys[i])) && (forall j :: 0 <= j < i ==> !PyTruthy(Get(fg, keys[j]))) ==>
      FirstTruthy(fg, keys) == Get(fg, keys[i])
  {
    if |keys| > 1 {
      var rest := keys[1..];
      FirstTruthyIsFirst(fg, rest);
      assert forall i :: 1 <= i < |keys| ==> keys[i] == rest[i - 1];
      if exists i :: 0 <= i < |keys| && PyTruthy(Get(fg, keys[i])) {
        var i :| 0 <= i < |keys| && PyTruthy(Get(fg, keys[i]));
        if i > 0 {
          assert PyTruthy(Get(fg, rest[i - 1]));
        }
      }
      forall i | 0 <= i < |keys| && PyTruthy(Get(fg, keys[i])) && (forall j :: 0 <= j < i ==> !PyTruthy(Get(fg, keys[j])))
        ensures FirstTruthy(fg, keys) == Get(fg, keys[i])
      {
        if i > 0 {
          assert !PyTruthy(Get(fg, keys[0]));
          assert forall j :: 0 <= j < i - 1 ==> !PyTruthy(Get(fg, rest[j])) by {
            forall j | 0 <= j < i - 1
              ensures !PyTruthy(Get(fg, rest[j]))
            {
              assert rest[j] == keys[j + 1];
            }
          }
          assert Get(fg, rest[i - 1]) == Get(fg, keys[i]);
        }
      }
    }
  }

  /** A row counts for its app when `data` and `foregroundApp` are dicts and the name is truthy and not 'N/A'. */
  function AppPick(r: Row): (v: Option<Value>) {
    if !PyDict(r.data) then None
    else
      var fg := Get(r.data.fields, "foregroundApp");
      if !PyDict(fg) then None
      else
        var name := FirstTruthy(fg.fields, NameKeys);
        if PyTruthy(name) && name != NotAvailable then Some(name) else None
  }

  /** A placeholder record from a non-APP build (`packageName` 'N/A') is not an app visit, unless a later key names one. */
  lemma PlaceholderNotCounted(time: Value, stamp: Value)
    ensures AppPick(Row(time, stamp, Obj(map["foregroundApp" := Obj(map["packageName" := NotAvailable, "className" := NotAvailable])]))).None?
    ensures AppPick(Row(time, stamp, Obj(map["foregroundApp" := Obj(map["packageName" := Str(""), "name" := Str("mail")])]))) == Some(Str("mail"))
  {
    var fg := map["packageName" := NotAvailable, "className" := NotAvailable];
    assert "foregroundApp" in map["foregroundApp" := Obj(fg)];
    FirstTruthyIsFirst(fg, NameKeys);
    assert FirstTruthy(fg, NameKeys) == Get(fg, NameKeys[0]);
    var fg2 := map["packageName" := Str(""), "name" := Str("mail")];
    assert "foregroundApp" in map["foregroundApp" := Obj(fg2)];
    FirstTruthyIsFirst(fg2, NameKeys);
    assert Get(fg2, NameKeys[1]) == Null && Get(fg2, NameKeys[2]) == Null;
    assert FirstTruthy(fg2, NameKeys) == Get(fg2, NameKeys[3]);
  }

  // ---------------------------------------------------------------- the tally

  /** One entry of `app_usage`. */
  datatype AppCount = AppCount(name: Value, count: nat)

  /** Where `name` sits in the dict, or `|usage|` when it is not there. */
  function Position(usage: seq<AppCount>, name: Value): (i: nat)
    ensures i <= |usage|
    ensures i < |usage| ==> usage[i].name == name
    ensures forall j :: 0 <= j < i ==> usage[j].name != name
  {
    if usage == [] then 0
    else if usage[0].name == name then 0
    else 1 + Position(usage[1..], name)
  }

  /** `app_usage[name] = app_usage.get(name, 0) + 1`: an existing key keeps its place, a new one goes last. */
  function Bump(usage: seq<AppCount>, name: Value): (r: seq<AppCount>) {
    var i := Position(usage, name);
    if i < |usage| then usage[i := AppCount(name, usage[i].count + 1)] else usage + [AppCount(name, 1)]
  }

  /** The dict after counting `names` in order. */
  function Tally(names: seq<Value>): (r: seq<AppCount>) {
    if names == [] then [] else Bump(Tally(names[..|names| - 1]), names[|names| - 1])
  }

  /** The counting loop of lines 360-375. */
  method TallyApps(rows: seq<Row>) returns (usage: seq<AppCount>)
    ensures usage == Tally(Extracted(rows, AppPick))
  {
    usage := [];
    var i := 0;
    while i < |rows|
      invariant 0 <= i <= |rows|
      invariant usage == Tally(Extracted(rows[..i], AppPick))
    {
      assert rows[..i + 1][..i] == rows[..i];
      var name := AppPick(rows[i]);
      if name.Some? {
        usage := Bump(usage, name.value);
      }
      i := i + 1;
    }
    assert rows[..|rows|] == rows;
  }

  /** How often `x` occurs in `s`. */
  function Occurrences(s: seq<Value>, x: Value): (r: nat) {
    if s == [] then 0 else Occurrences(s[..|s| - 1], x) + (if s[|s| - 1] == x then 1 else 0)
  }

  /** The distinct elements of `s`, in order of first appearance. */
  function FirstSeen(s: seq<Value>): (r: seq<Value>) {
    if s == [] then []
    else
      var init := FirstSeen(s[..|s| - 1]);
      if s[|s| - 1] in init then init else init + [s[|s| - 1]]
  }

  lemma {:induction false} FirstSeenDistinct(s: seq<Value>)
    ensures forall i, j :: 0 <= i < j < |FirstSeen(s)| ==> FirstSeen(s)[i] != FirstSeen(s)[j]
    ensures forall x :: x in FirstSeen(s) <==> x in s
  {
    if s != [] {
      FirstSeenDistinct(s[..|s| - 1]);
      assert s == s[..|s| - 1] + [s[|s| - 1]];
    }
  }

  lemma {:induction false} OccurrencesAbsent(s: seq<Value>, x: Value)
    requires x !in s
    ensures Occurrences(s, x) == 0
  {
    if s != [] {
      assert s[..|s| - 1] <= s;
      OccurrencesAbsent(s[..|s| - 1], x);
    }
  }

  /**
    The dict holds one entry per distinct name, in first-seen order, whose
    count is the number of rows naming it.
   */
  lemma {:induction false} TallyCounts(names: seq<Value>)
    ensures |Tally(names)| == |FirstSeen(names)|
    ensures forall i :: 0 <= i < |Tally(names)| ==>
      Tally(names)[i] == AppCount(FirstSeen(names)[i], Occurrences(names, FirstSeen(names)[i]))
  {
    if names != [] {
      var init := names[..|names| - 1];
      var x := names[|names| - 1];
      TallyCounts(init);
      FirstSeenDistinct(init);
      var u := Tally(init);
      var keys := FirstSeen(init);
      var t := Tally(names);
      var fs := FirstSeen(names);
      assert t == Bump(u, x);
      assert forall y :: Occurrences(names, y) == Occurrences(init, y) + (if x == y then 1 else 0);
      var p := Position(u, x);
      if x in keys {
        var k :| 0 <= k < |keys| && keys[k] == x;
        assert u[k].name == x;
        assert p == k;
        assert fs == keys;
        assert t == u[k := AppCount(x, u[k].count + 1)];
        forall i | 0 <= i < |t|
          ensures t[i] == AppCount(fs[i], Occurrences(names, fs[i]))
        {
          if i != k {
            assert keys[i] != x;
          }
        }
      } else {
        assert p == |u|;
        assert fs == keys + [x];
        assert t == u + [AppCount(x, 1)];
        OccurrencesAbsent(init, x);
        forall i | 0 <= i < |t|
          ensures t[i] == AppCount(fs[i], Occurrences(names, fs[i]))
        {
          if i < |u| {
            assert keys[i] != x;
          }
        }
      }
    }
  }

  // ---------------------------------------------------------------- the ranking

  /** Inserts `a` before the first entry whose count is not above its own. */
  function Insert(a: AppCount, s: seq<AppCount>): (r: seq<AppCount>) {
    if s == [] || s[0].count <= a.count then [a] + s else [s[0]] + Insert(a, s[1..])
  }

  /** `sorted(items, key=count, reverse=True)`: a stable sort, highest count first. */
  function SortByCount(s: seq<AppCount>): (r: seq<AppCount>) {
    if s == [] then [] else Insert(s[0], SortByCount(s[1..]))
  }

  predicate Descending(s: seq<AppCount>) {
    forall i, j :: 0 <= i < j < |s| ==> s[i].count >= s[j].count
  }

  /** The entries with count `c`, in order. */
  function WithCount(s: seq<AppCount>, c: nat): (r: seq<AppCount>) {
    if s == [] then [] else (if s[0].count == c then [s[0]] else []) + WithCount(s[1..], c)
  }

  lemma {:induction false} InsertPermutes(a: AppCount, s: seq<AppCount>)
    ensures multiset(Insert(a, s)) == multiset([a] + s)
  {
    if s != [] && s[0].count > a.count {
      InsertPermutes(a, s[1..]);
      assert s == [s[0]] + s[1..];
    }
  }

  lemma {:induction false} InsertDescending(a: AppCount, s: seq<AppCount>)
    requires Descending(s)
    ensures Descending(Insert(a, s))
  {
    if s != [] && s[0].count > a.count {
      var rest := s[1..];
      InsertDescending(a, rest);
      var r := Insert(a, rest);
      assert r[0] == a || r[0] == rest[0];
      assert Insert(a, s) == [s[0]] + r;
    }
  }

  lemma WithCountCons(x: AppCount, t: seq<AppCount>, c: nat)
    ensures WithCount([x] + t, c) == (if x.count == c then [x] else []) + WithCount(t, c)
  {
    assert ([x] + t)[1..] == t;
  }

  /** Two entries of different counts can trade places without changing any count's filter. */
  lemma SwapHeads(x: AppCount, y: AppCount, t: seq<AppCount>, c: nat)
    requires x.count != y.count
    ensures WithCount([x] + ([y] + t), c) == WithCount([y] + ([x] + t), c)
  {
    WithCountCons(x, [y] + t, c);
    WithCountCons(y, t, c);
    WithCountCons(y, [x] + t, c);
    WithCountCons(x, t, c);
  }

  /** Insertion puts `a` before every entry of its own count, and moves no other entry past one of equal count. */
  lemma {:induction false} InsertStable(a: AppCount, s: seq<AppCount>, c: nat)
    ensures WithCount(Insert(a, s), c) == WithCount([a] + s, c)
  {
    if s != [] && s[0].count > a.count {
      var rest := s[1..];
      assert WithCount(Insert(a, s), c) == WithCount([s[0]] + ([a] + rest), c) by {
        var r := Insert(a, rest);
        assert Insert(a, s) == [s[0]] + r;
        InsertStable(a, rest, c);
        WithCountCons(s[0], r, c);
        WithCountCons(s[0], [a] + rest, c);
      }
      SwapHeads(s[0], a, rest, c);
      assert [s[0]] + rest == s;
    }
  }

  /** The ranking is highest first, a permutation of the tally, and stable: equal counts keep their tally order. */
  lemma {:induction false} SortByCountCorrect(s: seq<AppCount>)
    ensures Descending(SortByCount(s))
    ensures multiset(SortByCount(s)) == multiset(s)
    ensures forall c :: WithCount(SortByCount(s), c) == WithCount(s, c)
  {
    if s != [] {
      var rest := SortByCount(s[1..]);
      SortByCountCorrect(s[1..]);
      InsertDescending(s[0], rest);
      InsertPermutes(s[0], rest);
      forall c
        ensures WithCount(SortByCount(s), c) == WithCount(s, c)
      {
        InsertStable(s[0], rest, c);
        WithCountCons(s[0], rest, c);
        WithCountCons(s[0], s[1..], c);
        assert s == [s[0]] + s[1..];
      }
      assert s == [s[0]] + s[1..];
    }
  }

  /** Python's `s[:limit]`, negative limits counting from the end. */
  function PyPrefix(s: seq<AppCount>, limit: int): (r: seq<AppCount>)
    ensures r <= s
    ensures limit >= 0 ==> |r| == if limit <= |s| then limit else |s|
    ensures limit < 0 ==> |r| == if -limit <= |s| then |s| + limit else 0
  {
    if limit >= 0 then (if limit <= |s| then s[..limit] else s)
    else if -limit <= |s| then s[..|s| + limit] else []
  }

  function Entry(a: AppCount): (r: Value) {
    Obj(map["name" := a.name, "count" := Num(a.count)])
  }

  function Entries(s: seq<AppCount>): (r: seq<Value>)
    ensures |r| == |s| && forall i :: 0 <= i < |s| ==> r[i] == Entry(s[i])
  {
    if s == [] then [] else [Entry(s[0])] + Entries(s[1..])
  }

  function TopApps(usage: seq<AppCount>, limit: int): (r: seq<AppCount>) {
    PyPrefix(SortByCount(usage), limit)
  }

  function AppsResponse(usage: seq<AppCount>, limit: int): (r: Value) {
    Obj(map["apps" := Arr(Entries(TopApps(usage, limit)))])
  }

  /** `get_apps_stats`, from the fetched rows. */
  method AppsStats(rows: seq<Row>, limit: int) returns (resp: Value)
    ensures resp == AppsResponse(Tally(Extracted(rows, AppPick)), limit)
  {
    var usage := TallyApps(rows);
    resp := AppsResponse(usage, limit);
  }

  /**
    What the endpoint returns: at most `limit` apps, the leaders in
    descending count order, each counted once per qualifying row, ties in
    first-seen order, and nothing left out above a listed count.
   */
  lemma TopAppsMeaning(rows: seq<Row>, limit: int)
    ensures var names := Extracted(rows, AppPick);
      var usage := Tally(names);
      var top := TopApps(usage, limit);
      var ranked := SortByCount(usage);
      && (limit >= 0 ==> |top| <= limit)
      && top <= ranked
      && Descending(top)
      && multiset(ranked) == multiset(usage)
      && (forall c :: WithCount(ranked, c) == WithCount(usage, c))
      && (forall i :: 0 <= i < |top| ==> top[i].name in names && top[i].count == Occurrences(names, top[i].name))
  {
    var names := Extracted(rows, AppPick);
    var usage := Tally(names);
    TallyCounts(names);
    FirstSeenDistinct(names);
    SortByCountCorrect(usage);
    var ranked := SortByCount(usage);
    var top := TopApps(usage, limit);
    forall i | 0 <= i < |top|
      ensures top[i].name in names && top[i].count == Occurrences(names, top[i].name)
    {
      assert top[i] == ranked[i];
      assert ranked[i] in multiset(usage);
      var k :| 0 <= k < |usage| && usage[k] == ranked[i];
      assert FirstSeen(names)[k] in FirstSeen(names);
    }
  }
}
