/**
 * `create_cmp(data, unit_ids)` in components.py: a new comparison row with the form's
 * fields, then one row per selected unit in the junction table of the property type,
 * and a link to the comparisons page carrying the form as its query string.
 */
module CmpStore {
  import opened Wrappers
  import opened Text
  import opened Values
  import opened Config
  import opened Dicts
  import opened Store

  /** `"&".join(f"{k}={v}" for k, v in data.items())`. */
  function QueryString(data: Dict<string, Value>): string
  {
    Join("&", seq(|data|, i requires 0 <= i < |data| => data[i].0 + "=" + Show(data[i].1)))
  }

  /** The query string gives the form's fields back, in order, when no key and no
      printed value holds "&" or "=". */
  lemma QueryStringRoundTrip(data: Dict<string, Value>)
    requires |data| >= 1
    requires forall i :: 0 <= i < |data| ==> '&' !in data[i].0 && '&' !in Show(data[i].1)
    requires forall i :: 0 <= i < |data| ==> '=' !in data[i].0 && '=' !in Show(data[i].1)
    ensures |Split(QueryString(data), "&")| == |data|
    ensures forall i :: 0 <= i < |data| ==>
              Split(Split(QueryString(data), "&")[i], "=") == [data[i].0, Show(data[i].1)]
  {
    var pairs := seq(|data|, i requires 0 <= i < |data| => data[i].0 + "=" + Show(data[i].1));
    assert Marker("&", 0) && Marker("=", 0);
    forall i | 0 <= i < |data| ensures '&' !in pairs[i] {
      assert forall k :: 0 <= k < |data[i].0| ==> pairs[i][k] == data[i].0[k];
      assert forall k :: |data[i].0| + 1 <= k < |pairs[i]| ==> pairs[i][k] == Show(data[i].1)[k - |data[i].0| - 1];
    }
    JoinSplit(pairs, "&", 0);
    forall i | 0 <= i < |data| ensures Split(pairs[i], "=") == [data[i].0, Show(data[i].1)] {
      SplitPair(data[i].0, "=", Show(data[i].1), 0);
    }
  }

  /** `{**data, "status": Status.NEW, "date": now}` after `data.pop("ppt_type")`. */
  function CmpFields(s: Settings, data: Dict<string, Value>, now: string): (f: Row)
    ensures "ppt_type" !in f && "status" in f && "date" in f && f["status"] == Int(s.statusNew) && f["date"] == Str(now)
    ensures forall k :: k in ToMap(data) && k !in {"ppt_type", "status", "date"} ==> k in f && f[k] == ToMap(data)[k]
  {
    (ToMap(data) - {"ppt_type"})["status" := Int(s.statusNew)]["date" := Str(now)]
  }

  /** A junction row: `comparison_id` and `unit_id`. */
  function JunctionFields(cmpId: int, unit: int): Row
  {
    map["comparison_id" := Int(cmpId), "unit_id" := Int(unit)]
  }

  /** The junction rows the loop over `unit_ids` inserts, in order, and the ValueError
      that stops it at the first id `int()` refuses. */
  function UnitFields(cmpId: int, ids: seq<string>): (r: (seq<Row>, Option<Error>))
    ensures |r.0| <= |ids|
    ensures forall i :: 0 <= i < |r.0| ==>
              ParseInt(ids[i]).Some? && r.0[i] == JunctionFields(cmpId, ParseInt(ids[i]).value)
    ensures r.1.None? <==> |r.0| == |ids|
    ensures r.1.Some? ==> r.1.value == ValueError("int") && ParseInt(ids[|r.0|]).None?
  {
    if ids == [] then ([], None)
    else
      match ParseInt(ids[0])
      case None => ([], Some(ValueError("int")))
      case Some(u) =>
        var rest := UnitFields(cmpId, ids[1..]);
        ([JunctionFields(cmpId, u)] + rest.0, rest.1)
  }

  /** The table after inserting the rows of fs one after another. */
  function InsertAll(rows: seq<Row>, fs: seq<Row>): (r: seq<Row>)
    ensures |r| == |rows| + |fs|
    decreases |fs|
  {
    if fs == [] then rows else InsertRow(InsertAll(rows, fs[..|fs| - 1]), fs[|fs| - 1]).1
  }

  /** Row `at` of table t is f with an id added. */
  predicate RowInserted(t: seq<Row>, at: nat, f: Row)
  {
    at < |t| && "id" in t[at] && t[at] == f["id" := t[at]["id"]]
  }

  /** The rows already there stay, and each inserted row keeps its columns and gets an id. */
  lemma {:induction false} InsertAllRows(rows: seq<Row>, fs: seq<Row>)
    ensures InsertAll(rows, fs)[..|rows|] == rows
    ensures forall i :: 0 <= i < |fs| ==> RowInserted(InsertAll(rows, fs), |rows| + i, fs[i])
    decreases |fs|
  {
    if fs != [] {
      var q := fs[..|fs| - 1];
      var p := InsertAll(rows, q);
      InsertAllRows(rows, q);
      var ins := InsertRow(p, fs[|fs| - 1]);
      var r := ins.1;
      assert r == InsertAll(rows, fs);
      forall i | 0 <= i < |fs| ensures RowInserted(r, |rows| + i, fs[i]) {
        if i < |fs| - 1 {
          assert q[i] == fs[i];
          assert RowInserted(p, |rows| + i, q[i]);
          assert r[|rows| + i] == p[|rows| + i];
        } else {
          assert r[|rows| + i] == fs[i]["id" := Int(ins.0)];
        }
      }
      assert r[..|rows|] == p[..|rows|];
    }
  }

  /** Inserting one more row after a batch. */
  lemma InsertAllStep(rows: seq<Row>, done: seq<Row>, f: Row)
    ensures InsertAll(rows, done + [f]) == InsertRow(InsertAll(rows, done), f).1
  {
    assert (done + [f])[..|done|] == done;
  }

  /** One step of the loop over the ids: the first id is inserted, or it stops the loop. */
  lemma UnitFieldsStep(cmpId: int, ids: seq<string>, k: nat)
    requires k < |ids|
    ensures ParseInt(ids[k]).None? ==> UnitFields(cmpId, ids[k..]) == ([], Some(ValueError("int")))
    ensures ParseInt(ids[k]).Some? ==>
              UnitFields(cmpId, ids[k..])
              == ([JunctionFields(cmpId, ParseInt(ids[k]).value)] + UnitFields(cmpId, ids[k + 1..]).0,
                  UnitFields(cmpId, ids[k + 1..]).1)
  {
    assert ids[k..][0] == ids[k] && ids[k..][1..] == ids[k + 1..];
  }

  /** The loop over `unit_ids` on `PPT_CMP_TABLES.get(ppt_type)`: with no ids nothing
      happens; otherwise a missing table (None) fails on `.insert`, and the ids are
      inserted until the first one `int()` refuses. */
  function UnitsOf(tables: map<string, seq<Row>>, cmpTable: Option<string>, cmpId: int, ids: seq<string>)
    : (Option<Error>, map<string, seq<Row>>)
  {
    if ids == [] then (None, tables)
    else if cmpTable.None? then (Some(AttributeError("insert")), tables)
    else if cmpTable.value !in tables then (Some(SqlError("no such table: " + cmpTable.value)), tables)
    else
      var u := UnitFields(cmpId, ids);
      (u.1, tables[cmpTable.value := InsertAll(tables[cmpTable.value], u.0)])
  }

  /** The whole handler: the link it returns (or the error it raises) and the tables
      after it. A missing `ppt_type` fails before anything is written; once the
      comparison row is in, later failures leave it (and the junction rows before the
      failure) in place. */
  function CreateCmpOf(s: Settings, tables: map<string, seq<Row>>, data: Dict<string, Value>,
                       unitIds: seq<string>, now: string): (Result<string>, map<string, seq<Row>>)
    requires "comparisons" in tables
  {
    var qry := QueryString(data);
    match Get(data, "ppt_type")
    case None => (Err(KeyError("ppt_type")), tables)
    case Some(pptType) =>
      var ins := InsertRow(tables["comparisons"], CmpFields(s, data, now));
      var t1 := tables["comparisons" := ins.1];
      match PyInt(pptType)
      case Err(e) => (Err(e), t1)
      case Ok(pt) =>
        var units := UnitsOf(t1, if pt in s.cmpTables then Some(s.cmpTables[pt]) else None, ins.0, unitIds);
        (if units.0.Some? then Err(units.0.value) else Ok("/comparisons?" + qry), units.1)
  }

  /** The loop over `unit_ids`. */
  method InsertUnits(db: Db, cmpTable: Option<string>, cmpId: int, unitIds: seq<string>) returns (e: Option<Error>)
    modifies db`tables
    ensures (e, db.tables) == UnitsOf(old(db.tables), cmpTable, cmpId, unitIds)
  {
    if unitIds == [] {
      return None;
    }
    if cmpTable.None? {
      return Some(AttributeError("insert"));
    }
    var tbl := cmpTable.value;
    if tbl !in db.tables {
      return Some(SqlError("no such table: " + tbl));
    }
    e := InsertEach(db, tbl, cmpId, unitIds);
  }

  /** The loop's invariant: the rows inserted so far, then those the rest of the ids give,
      are all the rows the ids give. */
  ghost predicate UnitsSoFar(cmpId: int, ids: seq<string>, k: nat, done: seq<Row>)
    requires k <= |ids|
  {
    UnitFields(cmpId, ids) == (done + UnitFields(cmpId, ids[k..]).0, UnitFields(cmpId, ids[k..]).1)
  }

  lemma UnitsAdvance(cmpId: int, ids: seq<string>, k: nat, done: seq<Row>)
    requires k < |ids| && UnitsSoFar(cmpId, ids, k, done) && ParseInt(ids[k]).Some?
    ensures UnitsSoFar(cmpId, ids, k + 1, done + [JunctionFields(cmpId, ParseInt(ids[k]).value)])
  {
    UnitFieldsStep(cmpId, ids, k);
    var j := JunctionFields(cmpId, ParseInt(ids[k]).value);
    var rest := UnitFields(cmpId, ids[k + 1..]);
    assert UnitFields(cmpId, ids[k..]) == ([j] + rest.0, rest.1);
    assert done + ([j] + rest.0) == (done + [j]) + rest.0;
  }

  lemma UnitsStop(cmpId: int, ids: seq<string>, k: nat, done: seq<Row>)
    requires k < |ids| && UnitsSoFar(cmpId, ids, k, done) && ParseInt(ids[k]).None?
    ensures UnitFields(cmpId, ids) == (done, Some(ValueError("int")))
  {
    UnitFieldsStep(cmpId, ids, k);
    assert done + [] == done;
  }

  lemma UnitsDone(cmpId: int, ids: seq<string>, done: seq<Row>)
    requires UnitsSoFar(cmpId, ids, |ids|, done)
    ensures UnitFields(cmpId, ids) == (done, None)
  {
    assert ids[|ids|..] == [] && done + [] == done;
  }

  /** The tables after one more insert into `tbl`. */
  lemma TablesStep(t0: map<string, seq<Row>>, tbl: string, done: seq<Row>, f: Row)
    requires tbl in t0
    ensures t0[tbl := InsertAll(t0[tbl], done)][tbl := InsertRow(InsertAll(t0[tbl], done), f).1]
            == t0[tbl := InsertAll(t0[tbl], done + [f])]
  {
    InsertAllStep(t0[tbl], done, f);
  }

  /** One more insert into `tbl`, which already holds the rows of `done`. */
  method InsertNext(db: Db, tbl: string, f: Row, ghost t0: map<string, seq<Row>>, ghost done: seq<Row>)
    requires tbl in t0 && db.tables == t0[tbl := InsertAll(t0[tbl], done)]
    modifies db`tables
    ensures db.tables == t0[tbl := InsertAll(t0[tbl], done + [f])]
  {
    var _ := db.Insert(tbl, f);
    TablesStep(t0, tbl, done, f);
  }

  /** `cmp_table.insert(comparison_id=cmp["id"], unit_id=int(id))` for each id in turn. */
  method InsertEach(db: Db, tbl: string, cmpId: int, unitIds: seq<string>) returns (e: Option<Error>)
    requires tbl in db.tables
    modifies db`tables
    ensures e == UnitFields(cmpId, unitIds).1
    ensures db.tables == old(db.tables)[tbl := InsertAll(old(db.tables)[tbl], UnitFields(cmpId, unitIds).0)]
  {
    ghost var t0 := db.tables;
    ghost var done: seq<Row> := [];
    assert unitIds[0..] == unitIds && done + UnitFields(cmpId, unitIds).0 == UnitFields(cmpId, unitIds).0;
    var k := 0;
    while k < |unitIds| && ParseInt(unitIds[k]).Some?
      invariant 0 <= k <= |unitIds|
      invariant tbl in t0 && db.tables == t0[tbl := InsertAll(t0[tbl], done)]
      invariant UnitsSoFar(cmpId, unitIds, k, done)
    {
      var f := JunctionFields(cmpId, ParseInt(unitIds[k]).value);
      InsertNext(db, tbl, f, t0, done);
      UnitsAdvance(cmpId, unitIds, k, done);
      done := done + [f];
      k := k + 1;
    }
    if k < |unitIds| {
      UnitsStop(cmpId, unitIds, k, done);
      e := Some(ValueError("int"));
    } else {
      UnitsDone(cmpId, unitIds, done);
      e := None;
    }
  }

  /** `create_cmp(data, unit_ids)`; `now` is the timestamp `dt.now()` formats. */
  method CreateCmp(db: Db, s: Settings, data: Dict<string, Value>, unitIds: seq<string>, now: string)
    returns (r: Result<string>)
    requires "comparisons" in db.tables
    modifies db`tables
    ensures (r, db.tables) == CreateCmpOf(s, old(db.tables), data, unitIds, now)
  {
    var qry := QueryString(data);
    var pptType := Get(data, "ppt_type");
    if pptType.None? {
      return Err(KeyError("ppt_type"));
    }
    var cmpId := db.Insert("comparisons", CmpFields(s, data, now));
    var pt := PyInt(pptType.value);
    if pt.Err? {
      return Err(pt.error);
    }
    var cmpTable := if pt.value in s.cmpTables then Some(s.cmpTables[pt.value]) else None;
    var e := InsertUnits(db, cmpTable, cmpId, unitIds);
    r := if e.Some? then Err(e.value) else Ok("/comparisons?" + qry);
  }

  /** When the form names a property type with a junction table and every unit id is an
      integer, `create_cmp` adds exactly one comparison row (the form without
      `ppt_type`, status NEW, the date) under a fresh id, and one junction row per unit
      id, in order, each pointing at that new comparison and at its unit. */
  lemma CreateCmpRows(s: Settings, tables: map<string, seq<Row>>, data: Dict<string, Value>,
                      unitIds: seq<string>, units: seq<int>, now: string)
    requires "comparisons" in tables
    requires Get(data, "ppt_type").Some? && PyInt(Get(data, "ppt_type").value).Ok?
    requires PyInt(Get(data, "ppt_type").value).value in s.cmpTables
    requires var tbl := s.cmpTables[PyInt(Get(data, "ppt_type").value).value];
             tbl in tables && tbl != "comparisons"
    requires |units| == |unitIds| && forall i :: 0 <= i < |unitIds| ==> ParseInt(unitIds[i]) == Some(units[i])
    ensures CreateCmpOf(s, tables, data, unitIds, now).0 == Ok("/comparisons?" + QueryString(data))
    ensures var after := CreateCmpOf(s, tables, data, unitIds, now).1;
            var before := tables["comparisons"];
            && "comparisons" in after && |after["comparisons"]| == |before| + 1
            && after["comparisons"][..|before|] == before
            && after["comparisons"][|before|] == CmpFields(s, data, now)["id" := Int(RowId(after["comparisons"][|before|]))]
            && forall i :: 0 <= i < |before| ==> RowId(before[i]) != RowId(after["comparisons"][|before|])
    ensures var after := CreateCmpOf(s, tables, data, unitIds, now).1;
            var tbl := s.cmpTables[PyInt(Get(data, "ppt_type").value).value];
            var cmpId := RowId(after["comparisons"][|tables["comparisons"]|]);
            tbl in after && JunctionsAdded(after[tbl], tables[tbl], cmpId, units)
  {
    CreateCmpOutcome(s, tables, data, unitIds, now);
    CmpRowAdded(tables["comparisons"], CmpFields(s, data, now));
    var ins := InsertRow(tables["comparisons"], CmpFields(s, data, now));
    var tbl := s.cmpTables[PyInt(Get(data, "ppt_type").value).value];
    var after := CreateCmpOf(s, tables, data, unitIds, now).1;
    assert after["comparisons"] == ins.1;
    assert after[tbl] == InsertAll(tables[tbl], UnitFields(ins.0, unitIds).0);
    JunctionRows(tables[tbl], ins.0, unitIds, units);
  }

  /** The comparisons table gains the new row, last, under a fresh id. */
  lemma CmpRowAdded(before: seq<Row>, fields: Row)
    ensures var ins := InsertRow(before, fields);
            && |ins.1| == |before| + 1 && ins.1[..|before|] == before
            && RowId(ins.1[|before|]) == ins.0
            && ins.1[|before|] == fields["id" := Int(ins.0)]
  {
    var ins := InsertRow(before, fields);
    assert ins.1[|before|] == fields["id" := Int(ins.0)];
    assert ins.1[..|before|] == before;
  }

  /** The outcome of `create_cmp` when nothing fails. */
  lemma CreateCmpOutcome(s: Settings, tables: map<string, seq<Row>>, data: Dict<string, Value>,
                         unitIds: seq<string>, now: string)
    requires "comparisons" in tables
    requires Get(data, "ppt_type").Some? && PyInt(Get(data, "ppt_type").value).Ok?
    requires PyInt(Get(data, "ppt_type").value).value in s.cmpTables
    requires var tbl := s.cmpTables[PyInt(Get(data, "ppt_type").value).value];
             tbl in tables && tbl != "comparisons"
    requires forall i :: 0 <= i < |unitIds| ==> ParseInt(unitIds[i]).Some?
    ensures var tbl := s.cmpTables[PyInt(Get(data, "ppt_type").value).value];
            var ins := InsertRow(tables["comparisons"], CmpFields(s, data, now));
            CreateCmpOf(s, tables, data, unitIds, now)
            == (Ok("/comparisons?" + QueryString(data)),
                tables["comparisons" := ins.1][tbl := InsertAll(tables[tbl], UnitFields(ins.0, unitIds).0)])
  {
    var tbl := s.cmpTables[PyInt(Get(data, "ppt_type").value).value];
    var ins := InsertRow(tables["comparisons"], CmpFields(s, data, now));
    var t1 := tables["comparisons" := ins.1];
    var u := UnitFields(ins.0, unitIds);
    assert |u.0| == |unitIds| && u.1.None?;
    if unitIds == [] {
      assert t1[tbl := InsertAll(t1[tbl], u.0)] == t1;
    }
    assert UnitsOf(t1, Some(tbl), ins.0, unitIds) == (None, t1[tbl := InsertAll(t1[tbl], u.0)]);
  }

  /** A junction row pointing at comparison cmpId and unit `unit`. */
  predicate JunctionRow(row: Row, cmpId: int, unit: int)
  {
    && "comparison_id" in row && "unit_id" in row
    && row["comparison_id"] == Int(cmpId) && row["unit_id"] == Int(unit)
  }

  /** Table `after` is `rows` followed by one junction row per unit, in order, each
      pointing at comparison cmpId. */
  predicate JunctionsAdded(after: seq<Row>, rows: seq<Row>, cmpId: int, units: seq<int>)
  {
    && |after| == |rows| + |units| && after[..|rows|] == rows
    && forall i :: 0 <= i < |units| ==> JunctionRow(after[|rows| + i], cmpId, units[i])
  }

  /** With every id an integer, the junction table gains one row per id, in order, each
      pointing at the comparison and at its unit. */
  lemma JunctionRows(rows: seq<Row>, cmpId: int, unitIds: seq<string>, units: seq<int>)
    requires |units| == |unitIds| && forall i :: 0 <= i < |unitIds| ==> ParseInt(unitIds[i]) == Some(units[i])
    ensures JunctionsAdded(InsertAll(rows, UnitFields(cmpId, unitIds).0), rows, cmpId, units)
  {
    var u := UnitFields(cmpId, unitIds).0;
    assert |u| == |unitIds|;
    InsertAllRows(rows, u);
    var after := InsertAll(rows, u);
    forall i | 0 <= i < |unitIds| ensures JunctionRow(after[|rows| + i], cmpId, units[i]) {
      UnitFieldAt(cmpId, unitIds, units, i);
      JunctionRowAt(after, |rows| + i, cmpId, units[i]);
    }
  }

  lemma UnitFieldAt(cmpId: int, unitIds: seq<string>, units: seq<int>, i: nat)
    requires |units| == |unitIds| && forall i :: 0 <= i < |unitIds| ==> ParseInt(unitIds[i]) == Some(units[i])
    requires i < |unitIds| && |UnitFields(cmpId, unitIds).0| == |unitIds|
    ensures UnitFields(cmpId, unitIds).0[i] == JunctionFields(cmpId, units[i])
  {
  }

  lemma JunctionRowAt(t: seq<Row>, at: nat, cmpId: int, unit: int)
    requires RowInserted(t, at, JunctionFields(cmpId, unit))
    ensures JunctionRow(t[at], cmpId, unit)
  {
  }
}
