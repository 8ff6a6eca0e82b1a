/**
 * `save_task_params` in components.py: a client's search is saved as one row of
 * junction tables per selected place (each place got or created by name) and one row
 * of the property type's parameter table, whose price bounds fall back from rent to
 * sale.
 */
module TaskParams {
  import opened Wrappers
  import opened Text
  import opened Values
  import opened Dicts
  import opened Config
  import opened Store

  /** A column converter of `PPT_TSK_PARAMS` (`int`, `str`, ...) applied to a form field. */
  type Converter = Field -> Result<Value>

  /** The settings `save_task_params` reads: `TSK_MULT_FK` (form field to junction table,
      in order), `PPT_TSK_TABLES` (type to parameter table) and `PPT_TSK_PARAMS` (type to
      the converter of each parameter column, in order). */
  datatype TaskSettings = TaskSettings(multFk: Dict<string, string>, pptTskTables: map<int, string>,
                                       pptTskParams: map<int, Dict<string, Converter>>)

  /** The tables the function writes. */
  datatype DbState = DbState(names: NameDb, tables: map<string, seq<Row>>)

  /** Python `int()` of a form field: a list is a TypeError. */
  function IntField(f: Field): (r: Result<Value>)
    ensures r.Ok? <==> f.One? && IntOf(f.v).Some?
    ensures r.Ok? ==> r.value == Int(IntOf(f.v).value)
  {
    match f
    case Many(_) => Err(TypeError("int"))
    case One(v) =>
      match PyInt(v)
      case Err(e) => Err(e)
      case Ok(i) => Ok(Int(i))
  }

  /** The form's task id, when it has one, is a single value, as the caller posts it. */
  predicate ScalarTaskId(d: Dict<string, Field>)
  {
    Get(d, "task_id").Some? ==> Get(d, "task_id").value.One?
  }

  // ---------------------------------------------------------------------------
  // The multi-valued foreign keys
  // ---------------------------------------------------------------------------

  /** `d[k] if isinstance(d.get(k), list) else [d[k]]`. */
  function Items(f: Field): seq<Value>
  {
    match f
    case One(v) => [v]
    case Many(vs) => vs
  }

  /** `if itm: tbl.insert({"task_id": d["task_id"], k: get_or_create(k, itm)})`: the task
      id is read before the lookup, the lookup may add a name, and the insert may then
      fail on a missing table with the name kept. */
  function LinkItem(s: Settings, st: DbState, d: Dict<string, Field>, k: string, tbl: string, itm: Value): (Option<Error>, DbState)
    requires ScalarTaskId(d)
  {
    if !Truthy(itm) then (None, st)
    else if Get(d, "task_id").None? then (Some(KeyError("task_id")), st)
    else if k !in s.fkTables then (Some(AttributeError("rows_where")), st)
    else if !itm.Str? then (Some(AttributeError("lower")), st)
    else
      match GetOrCreateFieldOf(s, st.names, k, Some(itm.s))
      case Err(e) => (Some(e), st)
      case Ok(hit) =>
        if tbl !in st.tables then (Some(SqlError("no such table: " + tbl)), DbState(hit.names, st.tables))
        else
          var row := map["task_id" := Get(d, "task_id").value.v, k := Int(hit.id)];
          (None, DbState(hit.names, st.tables[tbl := InsertRow(st.tables[tbl], row).1]))
  }

  /** The inner loop over the items of field k, from state st; the first error stops it. */
  function LinkItems(s: Settings, st: DbState, d: Dict<string, Field>, k: string, tbl: string, items: seq<Value>): (Option<Error>, DbState)
    requires ScalarTaskId(d)
    decreases |items|
  {
    if items == [] then (None, st)
    else
      var r := LinkItem(s, st, d, k, tbl, items[0]);
      if r.0.Some? then r else LinkItems(s, r.1, d, k, tbl, items[1..])
  }

  /** `if d.get(k): ...` for one entry of `TSK_MULT_FK`. */
  function LinkField(s: Settings, st: DbState, d: Dict<string, Field>, k: string, tbl: string): (Option<Error>, DbState)
    requires ScalarTaskId(d)
  {
    match Get(d, k)
    case None => (None, st)
    case Some(f) => if FieldTruthy(f) then LinkItems(s, st, d, k, tbl, Items(f)) else (None, st)
  }

  /** The outer loop over `TSK_MULT_FK`, from state st; the first error stops it. */
  function LinkFields(s: Settings, st: DbState, d: Dict<string, Field>, fks: Dict<string, string>): (Option<Error>, DbState)
    requires ScalarTaskId(d)
    decreases |fks|
  {
    if fks == [] then (None, st)
    else
      var r := LinkField(s, st, d, fks[0].0, fks[0].1);
      if r.0.Some? then r else LinkFields(s, r.1, d, fks[1..])
  }

  /** Table `before` became `after` by one more junction row, whose field k is `id` and
      whose "task_id" is `taskId` (unless the field is itself "task_id"). */
  predicate JunctionAdded(before: seq<Row>, after: seq<Row>, k: string, taskId: Value, id: int)
  {
    && |after| == |before| + 1 && after[..|before|] == before
    && "task_id" in after[|before|] && k in after[|before|] && after[|before|][k] == Int(id)
    && (k != "task_id" ==> after[|before|]["task_id"] == taskId)
  }

  /** Name table `rows` has a row with id `id` that holds `itm` as typed or matches it
      under SQLite's LOWER. */
  predicate NamedBy(rows: seq<NameRow>, id: int, itm: string)
  {
    exists j :: 0 <= j < |rows| && rows[j].id == id
      && (rows[j].name == Some(itm) || NameMatches(rows[j], PyLower(itm), SqlFolding))
  }

  /** The id `get_or_create(k, itm)` returns names a row of the field's table that holds
      the item or matches it. */
  lemma HitNamed(s: Settings, names: NameDb, k: string, itm: string)
    requires GetOrCreateFieldOf(s, names, k, Some(itm)).Ok?
    ensures k in s.fkTables && s.fkTables[k] in names
    ensures var h := GetOrCreateFieldOf(s, names, k, Some(itm)).value;
            s.fkTables[k] in h.names && NamedBy(h.names[s.fkTables[k]], h.id, itm)
  {
    var fk := s.fkTables[k];
    var h := GetOrCreateFieldOf(s, names, k, Some(itm)).value;
    match FindName(names[fk], PyLower(itm), SqlFolding)
    case Some(id) => {
      var j := FirstMatch(names[fk], PyLower(itm), SqlFolding).value;
      assert h.names == names && h.id == names[fk][j].id;
    }
    case None => {
      var n := |names[fk]|;
      assert h.names[fk] == names[fk] + [NameRow(h.id, Some(itm))];
      assert h.names[fk][n].id == h.id && h.names[fk][n].name == Some(itm);
    }
  }

  /** A saved item links the task to a row of the field's name table: the junction table
      gains one row holding the task id and the id of a name row that holds the item as
      typed or matches it under SQLite's LOWER. */
  lemma LinkItemPoints(s: Settings, st: DbState, d: Dict<string, Field>, k: string, tbl: string, itm: string)
    requires ScalarTaskId(d) && itm != "" && k != "id"
    requires LinkItem(s, st, d, k, tbl, Str(itm)).0.None?
    ensures "task_id" in Keys(d) && k in s.fkTables && tbl in st.tables
    ensures var after := LinkItem(s, st, d, k, tbl, Str(itm)).1;
            var h := GetOrCreateFieldOf(s, st.names, k, Some(itm)).value;
            && tbl in after.tables && s.fkTables[k] in after.names
            && JunctionAdded(st.tables[tbl], after.tables[tbl], k, Get(d, "task_id").value.v, h.id)
            && NamedBy(after.names[s.fkTables[k]], h.id, itm)
  {
    var h := GetOrCreateFieldOf(s, st.names, k, Some(itm)).value;
    HitNamed(s, st.names, k, itm);
    var row := map["task_id" := Get(d, "task_id").value.v, k := Int(h.id)];
    var ins := InsertRow(st.tables[tbl], row);
    assert LinkItem(s, st, d, k, tbl, Str(itm)).1 == DbState(h.names, st.tables[tbl := ins.1]);
    assert ins.1[..|st.tables[tbl]|] == st.tables[tbl];
    assert ins.1[|st.tables[tbl]|] == row["id" := Int(ins.0)];
  }

  // ---------------------------------------------------------------------------
  // The price fallback
  // ---------------------------------------------------------------------------

  /** `d.get(k)`, with None read as a NULL field. */
  function FieldOr(d: Dict<string, Field>, k: string): (f: Field)
    ensures k !in Keys(d) ==> f == One(Null)
  {
    match Get(d, k)
    case Some(f) => f
    case None => One(Null)
  }

  /** `d.get(f"rent_{m}") if d.get(f"rent_{m}") else d.get(f"sell_{m}")`. */
  function PriceFor(d: Dict<string, Field>, m: string): Field
  {
    if FieldTruthy(FieldOr(d, "rent_" + m)) then FieldOr(d, "rent_" + m) else FieldOr(d, "sell_" + m)
  }

  /** The bounds the price loop visits, in order. */
  const Bounds: seq<string> := ["min", "max"]

  /** `d` after the loop over the bounds ms, from the front. */
  function PricesOver(d: Dict<string, Field>, ms: seq<string>): Dict<string, Field>
    decreases |ms|
  {
    if ms == [] then d else PricesOver(Put(d, "price_" + ms[0], PriceFor(d, ms[0])), ms[1..])
  }

  /** The keys of the two bounds are apart. */
  lemma BoundKeysApart()
    ensures "price_min" != "rent_max" && "price_min" != "sell_max" && "price_min" != "price_max"
    ensures "price_" + "min" == "price_min" && "price_" + "max" == "price_max"
    ensures "rent_" + "max" == "rent_max" && "sell_" + "max" == "sell_max"
  {
  }

  /** Each price bound is the rent bound when that is set and the sale bound otherwise
      (None when neither key is posted); every other field is as posted. */
  lemma PriceFallback(d: Dict<string, Field>)
    ensures Get(PricesOver(d, Bounds), "price_min") == Some(PriceFor(d, "min"))
    ensures Get(PricesOver(d, Bounds), "price_max") == Some(PriceFor(d, "max"))
    ensures forall k :: k != "price_min" && k != "price_max" ==> Get(PricesOver(d, Bounds), k) == Get(d, k)
  {
    BoundKeysApart();
    var d1 := Put(d, "price_min", PriceFor(d, "min"));
    PutGet(d, "price_min", PriceFor(d, "min"));
    assert PriceFor(d1, "max") == PriceFor(d, "max");
    var d2 := Put(d1, "price_max", PriceFor(d1, "max"));
    PutGet(d1, "price_max", PriceFor(d1, "max"));
    assert Bounds[1..] == ["max"] && Bounds[1..][1..] == [];
    assert PricesOver(d, Bounds) == d2;
  }

  /** The `for m in ("min", "max")` loop. */
  method FillPrices(d: Dict<string, Field>) returns (d': Dict<string, Field>)
    ensures d' == PricesOver(d, Bounds)
  {
    d' := d;
    var i := 0;
    while i < |Bounds|
      invariant 0 <= i <= |Bounds|
      invariant PricesOver(d', Bounds[i..]) == PricesOver(d, Bounds)
    {
      var m := Bounds[i];
      assert Bounds[i..][1..] == Bounds[i + 1..];
      d' := Put(d', "price_" + m, PriceFor(d', m));
      i := i + 1;
    }
  }

  // ---------------------------------------------------------------------------
  // The parameter row
  // ---------------------------------------------------------------------------

  /** The entries of ps without key k, in order. */
  function Without(ps: Dict<string, Converter>, k: string): (r: Dict<string, Converter>)
    ensures k !in Keys(r)
    ensures forall i :: 0 <= i < |ps| && ps[i].0 != k ==> ps[i].0 in Keys(r)
    ensures forall i :: 0 <= i < |r| ==> r[i].0 in Keys(ps)
    decreases |ps|
  {
    if ps == [] then []
    else
      var rest := Without(ps[1..], k);
      assert Keys(ps) == [ps[0].0] + Keys(ps[1..]);
      assert forall i :: 1 <= i < |ps| ==> ps[i] == ps[1..][i - 1];
      if ps[0].0 == k then rest
      else
        KeysConcat([ps[0]], rest);
        assert Keys([ps[0]]) == [ps[0].0];
        [ps[0]] + rest
  }

  /** `ChainMap(first, {"task_id": int}).items()`: the keys of the last map come first,
      then those of `first` not already seen; each key takes its value from the first
      map that has it. */
  function ChainItems(first: Dict<string, Converter>): (r: Dict<string, Converter>)
    ensures |r| >= 1 && r[0].0 == "task_id"
    ensures forall i :: 1 <= i < |r| ==> r[i].0 != "task_id" && r[i].0 in Keys(first)
    ensures forall i :: 0 <= i < |first| ==> first[i].0 in Keys(r)
  {
    var found := Get<string, Converter>(first, "task_id");
    var conv: Converter := if found.Some? then found.value else IntField;
    var w := Without(first, "task_id");
    var r := [("task_id", conv)] + w;
    KeysConcat([("task_id", conv)], w);
    assert Keys([("task_id", conv)]) == ["task_id"];
    assert forall i :: 1 <= i < |r| ==> r[i] == w[i - 1] && w[i - 1].0 == Keys(w)[i - 1];
    r
  }

  /** `{k: v(d[k]) for k, v in params.items() if d.get(k)}`: the first failing converter,
      in order, raises. */
  function Convert(ps: Dict<string, Converter>, d: Dict<string, Field>): (r: Result<Row>)
    ensures r.Ok? ==> forall k :: k in r.value ==> k in Keys(ps) && Get(d, k).Some? && FieldTruthy(Get(d, k).value)
    ensures r.Ok? ==> forall i :: 0 <= i < |ps| && Get(d, ps[i].0).Some? && FieldTruthy(Get(d, ps[i].0).value) ==>
                        ps[i].0 in r.value
    ensures r.Ok? && DistinctKeys(ps) ==>
              forall i :: 0 <= i < |ps| && ps[i].0 in r.value ==> ps[i].1(Get(d, ps[i].0).value) == Ok(r.value[ps[i].0])
    decreases |ps|
  {
    if ps == [] then Ok(map[])
    else
      assert Keys(ps) == [ps[0].0] + Keys(ps[1..]);
      assert forall i :: 1 <= i < |ps| ==> ps[i] == ps[1..][i - 1];
      assert DistinctKeys(ps) ==> DistinctKeys(ps[1..]) && ps[0].0 !in Keys(ps[1..]);
      var (k, conv) := ps[0];
      match Get(d, k)
      case None => Convert(ps[1..], d)
      case Some(f) =>
        if !FieldTruthy(f) then Convert(ps[1..], d)
        else
          match conv(f)
          case Err(e) => Err(e)
          case Ok(v) =>
            match Convert(ps[1..], d)
            case Err(e) => Err(e)
            case Ok(rest) => Ok(rest[k := v])
  }

  /** What follows the loops: the type is read and its table chosen, the price bounds
      are filled in, the converters are chained and the row is inserted. The form comes
      back as the function leaves it. */
  function ParamsOf(ts: TaskSettings, tables: map<string, seq<Row>>, d: Dict<string, Field>): (Option<Error>, map<string, seq<Row>>, Dict<string, Field>)
  {
    match Get(d, "ppt_type")
    case None => (Some(KeyError("ppt_type")), tables, d)
    case Some(f) =>
      match IntField(f)
      case Err(e) => (Some(e), tables, d)
      case Ok(pt) =>
        if pt.i !in ts.pptTskTables then (Some(KeyError("ppt_type")), tables, d)
        else
          var tbl := ts.pptTskTables[pt.i];
          var d' := PricesOver(d, Bounds);
          if pt.i !in ts.pptTskParams then (Some(KeyError("ppt_type")), tables, d')
          else
            match Convert(ChainItems(ts.pptTskParams[pt.i]), d')
            case Err(e) => (Some(e), tables, d')
            case Ok(row) =>
              if tbl !in tables then (Some(SqlError("no such table: " + tbl)), tables, d')
              else (None, tables[tbl := InsertRow(tables[tbl], row).1], d')
  }

  /** `save_task_params(d)`: the error it raises, if any, the tables after it, and `d`. */
  function SaveTaskParamsOf(s: Settings, ts: TaskSettings, st: DbState, d: Dict<string, Field>): (Option<Error>, DbState, Dict<string, Field>)
    requires ScalarTaskId(d)
  {
    var links := LinkFields(s, st, d, ts.multFk);
    if links.0.Some? then (links.0, links.1, d)
    else
      var p := ParamsOf(ts, links.1.tables, d);
      (p.0, DbState(links.1.names, p.1), p.2)
  }

  /** With a posted task id and the price columns among the parameters, the converted
      row holds the task id and every price bound the fallback found set. */
  lemma ConvertedPrices(ps: Dict<string, Converter>, d: Dict<string, Field>)
    requires Convert(ps, PricesOver(d, Bounds)).Ok?
    requires |ps| >= 1 && ps[0].0 == "task_id" && Get(d, "task_id").Some? && FieldTruthy(Get(d, "task_id").value)
    ensures "task_id" in Convert(ps, PricesOver(d, Bounds)).value
    ensures "price_min" in Keys(ps) && FieldTruthy(PriceFor(d, "min")) ==> "price_min" in Convert(ps, PricesOver(d, Bounds)).value
    ensures "price_max" in Keys(ps) && FieldTruthy(PriceFor(d, "max")) ==> "price_max" in Convert(ps, PricesOver(d, Bounds)).value
  {
    var d' := PricesOver(d, Bounds);
    PriceFallback(d);
    BoundKeysApart();
    assert Get(d', "task_id") == Get(d, "task_id");
    assert Keys(ps)[0] == "task_id";
    ConvertKeeps(ps, d', "task_id");
    if "price_min" in Keys(ps) && FieldTruthy(PriceFor(d, "min")) {
      ConvertKeeps(ps, d', "price_min");
    }
    if "price_max" in Keys(ps) && FieldTruthy(PriceFor(d, "max")) {
      ConvertKeeps(ps, d', "price_max");
    }
  }

  /** A converted row holds every parameter the form posts with a truthy value. */
  lemma ConvertKeeps(ps: Dict<string, Converter>, d: Dict<string, Field>, key: string)
    requires Convert(ps, d).Ok? && key in Keys(ps)
    requires Get(d, key).Some? && FieldTruthy(Get(d, key).value)
    ensures key in Convert(ps, d).value
  {
    var i :| 0 <= i < |ps| && Keys(ps)[i] == key;
  }

  /** A saved search has a parameter row, in the type's table, with the task id and the
      price bounds as the fallback chose them. */
  lemma SavedParams(ts: TaskSettings, tables: map<string, seq<Row>>, d: Dict<string, Field>)
    requires ParamsOf(ts, tables, d).0.None?
    requires Get(d, "task_id").Some? && FieldTruthy(Get(d, "task_id").value)
    ensures Get(d, "ppt_type").Some? && IntField(Get(d, "ppt_type").value).Ok?
    ensures var pt := IntField(Get(d, "ppt_type").value).value.i;
            && pt in ts.pptTskTables && pt in ts.pptTskParams
            && var tbl := ts.pptTskTables[pt];
            var ps := ChainItems(ts.pptTskParams[pt]);
            var after := ParamsOf(ts, tables, d).1;
            && tbl in tables && tbl in after && |after[tbl]| == |tables[tbl]| + 1
            && var row := after[tbl][|tables[tbl]|];
            && "task_id" in row
            && ("price_min" in Keys(ps) && FieldTruthy(PriceFor(d, "min")) ==> "price_min" in row)
            && ("price_max" in Keys(ps) && FieldTruthy(PriceFor(d, "max")) ==> "price_max" in row)
  {
    var pt := IntField(Get(d, "ppt_type").value).value.i;
    var ps := ChainItems(ts.pptTskParams[pt]);
    ConvertedPrices(ps, d);
  }

  // ---------------------------------------------------------------------------
  // The methods
  // ---------------------------------------------------------------------------

  /** One item of the inner loop. */
  method LinkItemStep(db: Db, s: Settings, d: Dict<string, Field>, k: string, tbl: string, itm: Value) returns (e: Option<Error>)
    requires ScalarTaskId(d)
    modifies db`names, db`tables
    ensures (e, DbState(db.names, db.tables)) == LinkItem(s, DbState(old(db.names), old(db.tables)), d, k, tbl, itm)
  {
    if !Truthy(itm) {
      return None;
    }
    var taskId := Get(d, "task_id");
    if taskId.None? {
      return Some(KeyError("task_id"));
    }
    if k !in s.fkTables {
      return Some(AttributeError("rows_where"));
    }
    if !itm.Str? {
      return Some(AttributeError("lower"));
    }
    var id := db.GetOrCreateField(s, k, Some(itm.s));
    if id.Err? {
      return Some(id.error);
    }
    if tbl !in db.tables {
      return Some(SqlError("no such table: " + tbl));
    }
    var _ := db.Insert(tbl, map["task_id" := taskId.value.v, k := Int(id.value)]);
    e := None;
  }

  /** The inner loop: `for itm in items`. */
  method LinkItemsLoop(db: Db, s: Settings, d: Dict<string, Field>, k: string, tbl: string, items: seq<Value>) returns (e: Option<Error>)
    requires ScalarTaskId(d)
    modifies db`names, db`tables
    ensures (e, DbState(db.names, db.tables)) == LinkItems(s, DbState(old(db.names), old(db.tables)), d, k, tbl, items)
  {
    ghost var goal := LinkItems(s, DbState(db.names, db.tables), d, k, tbl, items);
    var i := 0;
    while i < |items|
      invariant 0 <= i <= |items|
      invariant LinkItems(s, DbState(db.names, db.tables), d, k, tbl, items[i..]) == goal
    {
      assert items[i..][0] == items[i] && items[i..][1..] == items[i + 1..];
      e := LinkItemStep(db, s, d, k, tbl, items[i]);
      if e.Some? {
        return;
      }
      i := i + 1;
    }
    e := None;
  }

  /** The outer loop: `for k, tbl in TSK_MULT_FK.items()`. */
  method LinkFieldsLoop(db: Db, s: Settings, d: Dict<string, Field>, fks: Dict<string, string>) returns (e: Option<Error>)
    requires ScalarTaskId(d)
    modifies db`names, db`tables
    ensures (e, DbState(db.names, db.tables)) == LinkFields(s, DbState(old(db.names), old(db.tables)), d, fks)
  {
    ghost var goal := LinkFields(s, DbState(db.names, db.tables), d, fks);
    var i := 0;
    while i < |fks|
      invariant 0 <= i <= |fks|
      invariant LinkFields(s, DbState(db.names, db.tables), d, fks[i..]) == goal
    {
      assert fks[i..][0] == fks[i] && fks[i..][1..] == fks[i + 1..];
      var (k, tbl) := fks[i];
      var f := Get(d, k);
      if f.Some? && FieldTruthy(f.value) {
        e := LinkItemsLoop(db, s, d, k, tbl, Items(f.value));
        if e.Some? {
          return;
        }
      }
      i := i + 1;
    }
    e := None;
  }

  /** Everything after the loops. */
  method InsertParams(db: Db, ts: TaskSettings, d: Dict<string, Field>) returns (e: Option<Error>, d': Dict<string, Field>)
    modifies db`tables
    ensures (e, db.tables, d') == ParamsOf(ts, old(db.tables), d)
  {
    var f := Get(d, "ppt_type");
    if f.None? {
      return Some(KeyError("ppt_type")), d;
    }
    var pt := IntField(f.value);
    if pt.Err? {
      return Some(pt.error), d;
    }
    if pt.value.i !in ts.pptTskTables {
      return Some(KeyError("ppt_type")), d;
    }
    var tbl := ts.pptTskTables[pt.value.i];
    d' := FillPrices(d);
    if pt.value.i !in ts.pptTskParams {
      return Some(KeyError("ppt_type")), d';
    }
    var row := Convert(ChainItems(ts.pptTskParams[pt.value.i]), d');
    if row.Err? {
      return Some(row.error), d';
    }
    if tbl !in db.tables {
      return Some(SqlError("no such table: " + tbl)), d';
    }
    var _ := db.Insert(tbl, row.value);
    e := None;
  }

  /** `save_task_params(d)`. */
  method SaveTaskParams(db: Db, s: Settings, ts: TaskSettings, d: Dict<string, Field>) returns (e: Option<Error>, d': Dict<string, Field>)
    requires ScalarTaskId(d)
    modifies db`names, db`tables
    ensures (e, DbState(db.names, db.tables), d') == SaveTaskParamsOf(s, ts, DbState(old(db.names), old(db.tables)), d)
  {
    e := LinkFieldsLoop(db, s, d, ts.multFk);
    if e.Some? {
      return e, d;
    }
    e, d' := InsertParams(db, ts, d);
  }
}
