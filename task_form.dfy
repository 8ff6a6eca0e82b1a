/**
 * The two task views of main.py that work on a form's values: `get_task`, which turns
 * a stored search back into the filter form's fields, and `create_new_task`, which
 * reads the client out of the "name - email - id" string the user field posts.
 */
module TaskForm {
  import opened Wrappers
  import opened Text
  import opened Values
  import opened Dicts
  import opened Store

  // ---------------------------------------------------------------------------
  // get_task: the `_handler` expansion
  // ---------------------------------------------------------------------------

  /** A range bound of the filter form: its key ends in `_min` or `_max`. */
  predicate RangeKey(k: string)
  {
    EndsWith(k, "_min") || EndsWith(k, "_max")
  }

  /** The key of the slider handle that shows a range bound. */
  function Handler(k: string): (h: string)
    ensures EndsWith(h, "_handler")
  {
    var h := k + "_handler";
    assert h[|h| - |"_handler"|..] == "_handler";
    h
  }

  /** One pass of the loop: a range bound is stored as its `str`, twice, under the
      handle's key and then under its own; anything else is copied as it is. */
  function ExpandStep(acc: Dict<string, Value>, e: (string, Value)): Dict<string, Value>
  {
    if RangeKey(e.0) then Put(Put(acc, Handler(e.0), Str(Show(e.1))), e.0, Str(Show(e.1)))
    else Put(acc, e.0, e.1)
  }

  /** `srch_d` after the loop over `d.items()`. */
  function Expand(d: Dict<string, Value>): Dict<string, Value>
    decreases |d|
  {
    if d == [] then [] else ExpandStep(Expand(d[..|d| - 1]), d[|d| - 1])
  }

  /** What a key contributes to the form, in the order the form lists it. */
  function Entry(e: (string, Value)): Dict<string, Value>
  {
    if RangeKey(e.0) then [(Handler(e.0), Str(Show(e.1))), (e.0, Str(Show(e.1)))] else [e]
  }

  /** The form laid out key by key: each key's entries, in the stored row's order. */
  function Entries(d: Dict<string, Value>): Dict<string, Value>
    decreases |d|
  {
    if d == [] then [] else Entries(d[..|d| - 1]) + Entry(d[|d| - 1])
  }

  /** The row's keys are distinct and none is itself a handle's key. */
  predicate PlainKeys(d: Dict<string, Value>)
  {
    DistinctKeys(d) && forall i :: 0 <= i < |d| ==> !EndsWith(d[i].0, "_handler")
  }

  /** Every key of the laid-out form is a key of the row or the handle of one. */
  lemma {:induction false} EntriesKeys(d: Dict<string, Value>, k: string)
    requires k in Keys(Entries(d))
    ensures exists j :: 0 <= j < |d| && (k == d[j].0 || k == Handler(d[j].0))
    decreases |d|
  {
    var p := d[..|d| - 1];
    var e := d[|d| - 1];
    KeysConcat(Entries(p), Entry(e));
    if k in Keys(Entries(p)) {
      EntriesKeys(p, k);
      var j :| 0 <= j < |p| && (k == p[j].0 || k == Handler(p[j].0));
      assert p[j] == d[j];
    } else {
      assert k in Keys(Entry(e));
      assert k == e.0 || k == Handler(e.0);
    }
  }

  /** Two keys with the same handle are the same key. */
  lemma HandlerInjective(a: string, b: string)
    requires Handler(a) == Handler(b)
    ensures a == b
  {
    assert a == Handler(a)[..|a|];
    assert b == Handler(b)[..|b|];
  }

  /** No key of the row's first n entries collides with the last entry's key or handle. */
  lemma FreshKeys(d: Dict<string, Value>)
    requires |d| > 0 && PlainKeys(d)
    ensures d[|d| - 1].0 !in Keys(Entries(d[..|d| - 1]))
    ensures Handler(d[|d| - 1].0) !in Keys(Entries(d[..|d| - 1]))
  {
    var p := d[..|d| - 1];
    var k := d[|d| - 1].0;
    if k in Keys(Entries(p)) {
      EntriesKeys(p, k);
      assert false;
    }
    if Handler(k) in Keys(Entries(p)) {
      EntriesKeys(p, Handler(k));
      var j :| 0 <= j < |p| && (Handler(k) == p[j].0 || Handler(k) == Handler(p[j].0));
      assert p[j] == d[j];
      if Handler(k) == Handler(p[j].0) {
        HandlerInjective(k, p[j].0);
      }
      assert false;
    }
  }

  /** With plain keys, the loop builds exactly the laid-out form: every key is copied in
      order, each range bound becomes its `str` preceded by its handle with the same
      string, every other value is unchanged, and no other key appears. */
  lemma {:induction false} ExpandEntries(d: Dict<string, Value>)
    requires PlainKeys(d)
    ensures Expand(d) == Entries(d)
    decreases |d|
  {
    if d != [] {
      var p := d[..|d| - 1];
      var e := d[|d| - 1];
      assert PlainKeys(p) by {
        forall i | 0 <= i < |p| ensures p[i] == d[i] { }
      }
      ExpandEntries(p);
      FreshKeys(d);
      if RangeKey(e.0) {
        var v := Str(Show(e.1));
        PutAbsent(Entries(p), Handler(e.0), v);
        KeysConcat(Entries(p), [(Handler(e.0), v)]);
        assert e.0 != Handler(e.0);
        PutAbsent(Entries(p) + [(Handler(e.0), v)], e.0, v);
      } else {
        PutAbsent(Entries(p), e.0, e.1);
      }
    }
  }

  /** The `for k, v in d.items()` loop of `get_task`. */
  method ExpandKeys(d: Dict<string, Value>) returns (srch: Dict<string, Value>)
    ensures srch == Expand(d)
  {
    srch := [];
    var i := 0;
    while i < |d|
      invariant 0 <= i <= |d|
      invariant srch == Expand(d[..i])
    {
      var (k, v) := d[i];
      assert d[..i + 1][..i] == d[..i];
      if RangeKey(k) {
        srch := Put(srch, Handler(k), Str(Show(v)));
        srch := Put(srch, k, Str(Show(v)));
      } else {
        srch := Put(srch, k, v);
      }
      i := i + 1;
    }
    assert d[..|d|] == d;
  }

  // ---------------------------------------------------------------------------
  // get_task: the stored search
  // ---------------------------------------------------------------------------

  /** `d.get(k)`, with None read as NULL. */
  function GetOr(d: Dict<string, Value>, k: string): (v: Value)
    ensures k !in Keys(d) ==> v == Null
  {
    match Get(d, k)
    case Some(v) => v
    case None => Null
  }

  /** The first row of a name table whose id is `id` (SQLite compares a bound text
      with the integer key as a number). */
  function RowById(rows: seq<NameRow>, id: Value): (r: Option<nat>)
    ensures r.Some? ==> r.value < |rows| && IntOf(id) == Some(rows[r.value].id)
    ensures r.Some? ==> forall j :: 0 <= j < r.value ==> IntOf(id) != Some(rows[j].id)
    ensures r.None? ==> forall j :: 0 <= j < |rows| ==> IntOf(id) != Some(rows[j].id)
  {
    if rows == [] then None
    else if IntOf(id) == Some(rows[0].id) then Some(0)
    else match RowById(rows[1..], id)
      case None => None
      case Some(j) => Some(j + 1)
  }

  /** `s.<tbl>[id]['name']`: a missing id is NotFoundError. */
  function NameById(names: NameDb, tbl: string, id: Value): (r: Result<Value>)
    ensures r.Ok? <==> tbl in names && RowById(names[tbl], id).Some?
  {
    if tbl !in names then Err(SqlError("no such table: " + tbl))
    else match RowById(names[tbl], id)
      case None => Err(NotFound)
      case Some(j) =>
        match names[tbl][j].name
        case Some(n) => Ok(Str(n))
        case None => Ok(Null)
  }

  /** The keys `get_task` replaces by their `str`. */
  const ShownKeys: seq<string> := ["in_conodminium", "under_construction", "ad_type", "ppt_type", "avcb"]

  /** `d[k] = str(d.get(k))` for the keys in turn. */
  function ShowKeys(d: Dict<string, Value>, ks: seq<string>): Dict<string, Value>
    decreases |ks|
  {
    if ks == [] then d else ShowKeys(Put(d, ks[0], Str(Show(GetOr(d, ks[0])))), ks[1..])
  }

  /** The first row the query found, with the names of its city, region and district
      looked up, each under the table's own name. */
  function PlacesOf(names: NameDb, d: Dict<string, Value>): Result<Dict<string, Value>>
  {
    match NameById(names, "cities", GetOr(d, "city_id"))
    case Err(e) => Err(e)
    case Ok(c) =>
      var d1 := Put(d, "cities", c);
      match NameById(names, "regions", GetOr(d1, "region_id"))
      case Err(e) => Err(e)
      case Ok(r) =>
        var d2 := Put(d1, "regions", r);
        match NameById(names, "districts", GetOr(d2, "district_id"))
        case Err(e) => Err(e)
        case Ok(t) => Ok(Put(d2, "districts", t))
  }

  /** The stored search as the form shows it, before the expansion: the places looked up
      and five values turned into strings. No row is an IndexError. */
  function TaskFormOf(names: NameDb, found: seq<Dict<string, Value>>): Result<Dict<string, Value>>
  {
    if found == [] then Err(IndexError)
    else
      match PlacesOf(names, found[0])
      case Err(e) => Err(e)
      case Ok(d) => Ok(ShowKeys(d, ShownKeys))
  }

  /** The city is the name of the row's city id, and the columns other than the three
      places keep their values. */
  lemma PlacesGet(names: NameDb, d: Dict<string, Value>)
    requires PlacesOf(names, d).Ok?
    ensures Get(PlacesOf(names, d).value, "cities") == Some(NameById(names, "cities", GetOr(d, "city_id")).value)
    ensures forall k :: k !in ["cities", "regions", "districts"] ==> Get(PlacesOf(names, d).value, k) == Get(d, k)
  {
    var c := NameById(names, "cities", GetOr(d, "city_id")).value;
    var d1 := Put(d, "cities", c);
    PutGet(d, "cities", c);
    var r := NameById(names, "regions", GetOr(d1, "region_id")).value;
    var d2 := Put(d1, "regions", r);
    PutGet(d1, "regions", r);
    var t := NameById(names, "districts", GetOr(d2, "district_id")).value;
    PutGet(d2, "districts", t);
  }

  /** After `ShowKeys`, each listed key holds the string of what it held before, and every
      other key is as it was. */
  lemma {:induction false} ShowKeysGet(d: Dict<string, Value>, ks: seq<string>, k: string)
    requires Distinct(ks)
    ensures k in ks ==> Get(ShowKeys(d, ks), k) == Some(Str(Show(GetOr(d, k))))
    ensures k !in ks ==> Get(ShowKeys(d, ks), k) == Get(d, k)
    decreases |ks|
  {
    if ks != [] {
      var d' := Put(d, ks[0], Str(Show(GetOr(d, ks[0]))));
      PutGet(d, ks[0], Str(Show(GetOr(d, ks[0]))));
      assert Distinct(ks[1..]) by {
        forall i, j | 0 <= i < j < |ks[1..]| ensures ks[1..][i] != ks[1..][j] {
          assert ks[1..][i] == ks[i + 1] && ks[1..][j] == ks[j + 1];
        }
      }
      ShowKeysGet(d', ks[1..], k);
      if k == ks[0] {
        assert k !in ks[1..] by {
          forall i | 0 <= i < |ks[1..]| ensures ks[1..][i] != k {
            assert ks[1..][i] == ks[i + 1];
          }
        }
      }
    }
  }

  /** Reading the search back: the city is the name of the row's city id, the five flags
      and types are strings of the stored values, and every other column is kept. */
  lemma TaskFormFields(names: NameDb, found: seq<Dict<string, Value>>)
    requires TaskFormOf(names, found).Ok?
    ensures var f := TaskFormOf(names, found).value;
            var d := found[0];
            && Get(f, "cities") == Some(NameById(names, "cities", GetOr(d, "city_id")).value)
            && (forall k :: k in ShownKeys ==> Get(f, k) == Some(Str(Show(GetOr(d, k)))))
            && (forall k :: k !in ShownKeys && k !in ["cities", "regions", "districts"] ==> Get(f, k) == Get(d, k))
  {
    var d := found[0];
    var p := PlacesOf(names, d).value;
    PlacesGet(names, d);
    ShownKeysApart();
    forall k ensures k in ShownKeys ==> Get(ShowKeys(p, ShownKeys), k) == Some(Str(Show(GetOr(d, k))))
      ensures k !in ShownKeys && k !in ["cities", "regions", "districts"] ==> Get(ShowKeys(p, ShownKeys), k) == Get(d, k)
      ensures k == "cities" ==> Get(ShowKeys(p, ShownKeys), k) == Get(p, k)
    {
      ShowKeysGet(p, ShownKeys, k);
      if k in ShownKeys {
        assert Get(p, k) == Get(d, k);
      }
    }
  }

  /** The shown keys are distinct, and none is a place. */
  lemma ShownKeysApart()
    ensures Distinct(ShownKeys)
    ensures forall k :: k in ShownKeys ==> k !in ["cities", "regions", "districts"]
  {
  }

  /** `get_task(task_id)`: the form `get_locations` is called with. `found` is what
      `rows_where('task_id = ?', (task_id,))` returns. */
  method GetTask(db: Db, found: seq<Dict<string, Value>>) returns (r: Result<Dict<string, Value>>)
    ensures TaskFormOf(db.names, found).Err? ==> r == TaskFormOf(db.names, found)
    ensures TaskFormOf(db.names, found).Ok? ==> r == Ok(Expand(TaskFormOf(db.names, found).value))
  {
    var d := TaskFormOf(db.names, found);
    if d.Err? {
      return d;
    }
    var srch := ExpandKeys(d.value);
    r := Ok(srch);
  }

  // ---------------------------------------------------------------------------
  // create_new_task
  // ---------------------------------------------------------------------------

  /** The separator of the user field's "name - email - id". */
  const UserSep: string := " - "

  /** The task row `create_new_task` inserts for the posted form, or None when the user
      field does not split into exactly three parts. A missing user field is a KeyError
      and a non-string one has no `split`. */
  function NewTaskRow(d: Dict<string, Value>, now: string): (r: Result<Option<Row>>)
    ensures r.Ok? <==> Get(d, "users").Some? && Get(d, "users").value.Str?
    ensures r.Ok? && r.value.Some? ==>
              var l := Split(Get(d, "users").value.s, UserSep);
              && |l| == 3 && r.value.value.Keys == {"client_id", "broker_id", "initial_dscr", "date"}
              && r.value.value["client_id"] == Str(l[2]) && r.value.value["date"] == Str(now)
              && r.value.value["broker_id"] == GetOr(d, "broker")
              && r.value.value["initial_dscr"] == GetOr(d, "initial_dscr")
    ensures r.Ok? && r.value.None? ==> |Split(Get(d, "users").value.s, UserSep)| != 3
  {
    match Get(d, "users")
    case None => Err(KeyError("users"))
    case Some(u) =>
      if !u.Str? then Err(AttributeError("split"))
      else
        var l := Split(u.s, UserSep);
        if |l| == 3 then
          Ok(Some(map["client_id" := Str(l[2]), "broker_id" := GetOr(d, "broker"),
                      "initial_dscr" := GetOr(d, "initial_dscr"), "date" := Str(now)]))
        else Ok(None)
  }

  /** The client of a "name - email - id" string is its id, as long as no part holds a
      dash. */
  lemma NewTaskClient(d: Dict<string, Value>, now: string, name: string, email: string, id: string)
    requires '-' !in name && '-' !in email && '-' !in id
    requires Get(d, "users") == Some(Str(name + UserSep + email + UserSep + id))
    ensures NewTaskRow(d, now).Ok? && NewTaskRow(d, now).value.Some?
    ensures NewTaskRow(d, now).value.value["client_id"] == Str(id)
  {
    var parts := [name, email, id];
    UserSplit(name, email, id);
    assert Split(Get(d, "users").value.s, UserSep) == parts;
  }

  /** A user string with dash-free parts splits back into them. */
  lemma UserSplit(name: string, email: string, id: string)
    requires '-' !in name && '-' !in email && '-' !in id
    ensures Split(name + UserSep + email + UserSep + id, UserSep) == [name, email, id]
  {
    var parts := [name, email, id];
    UserSepMarker();
    assert UserSep[1] == '-';
    JoinSplit(parts, UserSep, 1);
    JoinThree(UserSep, name, email, id);
  }

  lemma JoinThree(sep: string, a: string, b: string, c: string)
    ensures Join(sep, [a, b, c]) == a + sep + b + sep + c
  {
    var parts := [a, b, c];
    assert parts[1..] == [b, c] && parts[1..][1..] == [c];
    assert Join(sep, [c]) == c;
    assert Join(sep, [b, c]) == b + sep + c;
    assert Join(sep, parts) == a + sep + (b + sep + c);
  }

  /** The dash occurs once in the separator. */
  lemma UserSepMarker()
    ensures Marker(UserSep, 1)
  {
  }

  /** A user string with no dash is a single part, so no task is made. */
  lemma NewTaskNeedsSeparator(d: Dict<string, Value>, now: string, users: string)
    requires '-' !in users && Get(d, "users") == Some(Str(users))
    ensures NewTaskRow(d, now) == Ok(None)
  {
    UserSepMarker();
    SplitWithoutMarker(users, UserSep, 1);
  }

  /** `create_new_task(sess, d)`: the new task's id, or None when no task is made. */
  method CreateNewTask(db: Db, d: Dict<string, Value>, now: string) returns (r: Result<Option<int>>)
    modifies db`tables
    ensures NewTaskRow(d, now).Err? ==> r == Err(NewTaskRow(d, now).error) && db.tables == old(db.tables)
    ensures NewTaskRow(d, now) == Ok(None) ==> r == Ok(None) && db.tables == old(db.tables)
    ensures NewTaskRow(d, now).Ok? && NewTaskRow(d, now).value.Some? ==>
              if "tasks" in old(db.tables) then
                var ins := InsertRow(old(db.tables)["tasks"], NewTaskRow(d, now).value.value);
                r == Ok(Some(ins.0)) && db.tables == old(db.tables)["tasks" := ins.1]
              else r.Err? && db.tables == old(db.tables)
  {
    var row := NewTaskRow(d, now);
    if row.Err? {
      return Err(row.error);
    }
    if row.value.None? {
      return Ok(None);
    }
    if "tasks" !in db.tables {
      return Err(SqlError("no such table: tasks"));
    }
    var id := db.Insert("tasks", row.value.value);
    r := Ok(Some(id));
  }
}
