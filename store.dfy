/**
 * The SQLite tables the handlers write to, and the lookup-or-insert of a name in a
 * name table (`get_or_create`, in utils.py and again in components.py). A name table
 * (streets, districts, cities, regions, infrastructures) holds rows of an id and a
 * name; every other table is a sequence of rows, each a map from column to value.
 * A new row gets the id SQLite gives an INTEGER PRIMARY KEY: one more than the
 * largest id in the table.
 */
module Store {
  import opened Wrappers
  import opened Text
  import opened Values
  import opened Config

  // ---------------------------------------------------------------------------
  // Row ids
  // ---------------------------------------------------------------------------

  function MaxOf(ids: seq<int>): (m: int)
    requires |ids| > 0
    ensures forall i :: 0 <= i < |ids| ==> ids[i] <= m
    ensures m in ids
  {
    if |ids| == 1 then ids[0]
    else
      var m := MaxOf(ids[1..]);
      assert forall i :: 1 <= i < |ids| ==> ids[i] == ids[1..][i - 1];
      if ids[0] >= m then ids[0] else m
  }

  /** The id of a new row: one more than the largest id, 1 in an empty table. It is
      larger than every id already there. */
  function NextId(ids: seq<int>): (n: int)
    ensures forall i :: 0 <= i < |ids| ==> ids[i] < n
  {
    if ids == [] then 1 else MaxOf(ids) + 1
  }

  /** The id column of a row (0 when it has none). */
  function RowId(r: Row): int
  {
    if "id" in r && r["id"].Int? then r["id"].i else 0
  }

  function RowIds(rows: seq<Row>): seq<int>
  {
    seq(|rows|, i requires 0 <= i < |rows| => RowId(rows[i]))
  }

  /** `tbl.insert(fields)`: the row is appended with a fresh id, which the insert
      returns; no row already in the table has that id. */
  function InsertRow(rows: seq<Row>, fields: Row): (r: (int, seq<Row>))
    ensures r.1 == rows + [fields["id" := Int(r.0)]]
    ensures forall i :: 0 <= i < |rows| ==> RowId(rows[i]) != r.0
  {
    var id := NextId(RowIds(rows));
    assert forall i :: 0 <= i < |rows| ==> RowIds(rows)[i] == RowId(rows[i]);
    (id, rows + [fields["id" := Int(id)]])
  }

  // ---------------------------------------------------------------------------
  // Name tables
  // ---------------------------------------------------------------------------

  /** A row of a name table; a NULL name is None. */
  datatype NameRow = NameRow(id: int, name: Option<string>)

  function NameIds(rows: seq<NameRow>): seq<int>
  {
    seq(|rows|, i requires 0 <= i < |rows| => rows[i].id)
  }

  /** How the stored names are lower-cased before they are compared with the key:
      by SQLite's LOWER(), as the code does, or by Python's str.lower(), as the key is. */
  datatype Folding = SqlFolding | PyFolding

  function Fold(how: Folding, s: string): string
  {
    match how
    case SqlFolding => SqlLower(s)
    case PyFolding => PyLower(s)
  }

  /** `LOWER(name) = key` on one row: a NULL name never matches. */
  predicate NameMatches(r: NameRow, key: string, how: Folding)
  {
    r.name.Some? && Fold(how, r.name.value) == key
  }

  /** The position of the first row that matches, as `LIMIT 1` returns it. */
  function FirstMatch(rows: seq<NameRow>, key: string, how: Folding): (r: Option<nat>)
    ensures r.Some? ==> r.value < |rows| && NameMatches(rows[r.value], key, how)
    ensures r.Some? ==> forall j :: 0 <= j < r.value ==> !NameMatches(rows[j], key, how)
    ensures r.None? ==> forall i :: 0 <= i < |rows| ==> !NameMatches(rows[i], key, how)
  {
    if rows == [] then None
    else if NameMatches(rows[0], key, how) then Some(0)
    else
      match FirstMatch(rows[1..], key, how)
      case None => None
      case Some(i) => Some(i + 1)
  }

  /** `SELECT id FROM tbl WHERE LOWER(name) = key LIMIT 1`. */
  function FindName(rows: seq<NameRow>, key: string, how: Folding): Option<int>
  {
    match FirstMatch(rows, key, how)
    case None => None
    case Some(i) => Some(rows[i].id)
  }

  type NameDb = map<string, seq<NameRow>>

  /** The id `get_or_create` returns and the name tables after it. */
  datatype Hit = Hit(id: int, names: NameDb)

  /** `tbl.insert(name=name)`: one row with a fresh id at the end of the table. */
  function AddName(names: NameDb, tbl: string, name: Option<string>): (h: Hit)
    requires tbl in names
    ensures h.names == names[tbl := names[tbl] + [NameRow(h.id, name)]]
    ensures forall i :: 0 <= i < |names[tbl]| ==> names[tbl][i].id != h.id
  {
    var id := NextId(NameIds(names[tbl]));
    assert forall i :: 0 <= i < |names[tbl]| ==> NameIds(names[tbl])[i] == names[tbl][i].id;
    Hit(id, names[tbl := names[tbl] + [NameRow(id, name)]])
  }

  /** The tables utils.py's `get_or_create` can insert into. */
  const NameTables: set<string> := {"streets", "districts", "cities", "regions", "infrastructures"}

  /** utils.py's `get_or_create(tbl, name)`: the first row whose lower-cased name equals
      `name.lower()` gives the id; otherwise the name is inserted, which only the five
      name tables allow (any other table name is a KeyError). The code folds the stored
      names with SQLite's LOWER() (`SqlFolding`); `PyFolding` is the intended lookup. */
  function GetOrCreateOf(names: NameDb, tbl: string, name: string, how: Folding): Result<Hit>
  {
    if tbl !in names then Err(SqlError("no such table: " + tbl))
    else
      match FindName(names[tbl], PyLower(name), how)
      case Some(id) => Ok(Hit(id, names))
      case None => if tbl in NameTables then Ok(AddName(names, tbl, Some(name))) else Err(KeyError(tbl))
  }

  /** When some row matches, `get_or_create` inserts nothing and returns the id of the
      first matching row. */
  lemma GetOrCreateFinds(names: NameDb, tbl: string, name: string, how: Folding, i: nat)
    requires tbl in names && i < |names[tbl]| && NameMatches(names[tbl][i], PyLower(name), how)
    ensures GetOrCreateOf(names, tbl, name, how).Ok?
    ensures var h := GetOrCreateOf(names, tbl, name, how).value;
            && h.names == names
            && exists j :: 0 <= j <= i && NameMatches(names[tbl][j], PyLower(name), how) && h.id == names[tbl][j].id
  {
    var j := FirstMatch(names[tbl], PyLower(name), how).value;
    assert j <= i;
  }

  /** When no row matches, a name table gets exactly one new row, holding the name as
      given (not lower-cased) under an id no other row has, and the id is returned. */
  lemma GetOrCreateAdds(names: NameDb, tbl: string, name: string, how: Folding)
    requires tbl in names && tbl in NameTables
    requires forall i :: 0 <= i < |names[tbl]| ==> !NameMatches(names[tbl][i], PyLower(name), how)
    ensures GetOrCreateOf(names, tbl, name, how).Ok?
    ensures var h := GetOrCreateOf(names, tbl, name, how).value;
            && h.names == names[tbl := names[tbl] + [NameRow(h.id, Some(name))]]
            && forall i :: 0 <= i < |names[tbl]| ==> names[tbl][i].id != h.id
  {
    assert FirstMatch(names[tbl], PyLower(name), how).None?;
  }

  /** Appending a row to a table with no match: the new row is the first match if it
      matches at all. */
  lemma FirstMatchAppend(rows: seq<NameRow>, r: NameRow, key: string, how: Folding)
    requires FirstMatch(rows, key, how).None?
    ensures FirstMatch(rows + [r], key, how) == if NameMatches(r, key, how) then Some(|rows|) else None
  {
    var s := rows + [r];
    assert forall i :: 0 <= i < |rows| ==> s[i] == rows[i];
    match FirstMatch(s, key, how)
    case None =>
      assert !NameMatches(s[|rows|], key, how);
    case Some(j) =>
      assert j == |rows|;
  }

  /** Asking again with a name that lower-cases the same returns the same id and changes
      nothing, once the first call has gone through. */
  lemma GetOrCreateAgain(names: NameDb, tbl: string, n1: string, n2: string, how: Folding)
    requires PyLower(n1) == PyLower(n2) && Fold(how, n1) == PyLower(n1)
    requires GetOrCreateOf(names, tbl, n1, how).Ok?
    ensures GetOrCreateOf(GetOrCreateOf(names, tbl, n1, how).value.names, tbl, n2, how)
            == GetOrCreateOf(names, tbl, n1, how)
  {
    var key := PyLower(n1);
    var h := GetOrCreateOf(names, tbl, n1, how).value;
    if FirstMatch(names[tbl], key, how).None? {
      var r := NameRow(h.id, Some(n1));
      FirstMatchAppend(names[tbl], r, key, how);
      assert h.names[tbl] == names[tbl] + [r];
      assert FindName(h.names[tbl], key, how) == Some(h.id);
    }
  }

  /** The lookup as written (SQLite's LOWER() on the stored name) is stable for names
      that SQLite lower-cases as Python does, which holds for every ASCII name. */
  lemma GetOrCreateRepeat(names: NameDb, tbl: string, n1: string, n2: string)
    requires PyLower(n1) == PyLower(n2) && SqlLower(n1) == PyLower(n1)
    requires GetOrCreateOf(names, tbl, n1, SqlFolding).Ok?
    ensures GetOrCreateOf(GetOrCreateOf(names, tbl, n1, SqlFolding).value.names, tbl, n2, SqlFolding)
            == GetOrCreateOf(names, tbl, n1, SqlFolding)
  {
    GetOrCreateAgain(names, tbl, n1, n2, SqlFolding);
  }

  /** As written, a name with an accented capital is never found again: SQLite leaves
      "Á" as it is while Python lowers the key to "á", so every call with "Água"
      inserts another "Água" row under a new id. */
  lemma GetOrCreateDuplicates()
    ensures var first := GetOrCreateOf(map["cities" := []], "cities", "\U{00C1}gua", SqlFolding);
            && first.Ok?
            && var second := GetOrCreateOf(first.value.names, "cities", "\U{00C1}gua", SqlFolding);
            && second.Ok? && second.value.id != first.value.id
            && "cities" in second.value.names && |second.value.names["cities"]| == 2
  {
    var name := "\U{00C1}gua";
    var first := GetOrCreateOf(map["cities" := []], "cities", name, SqlFolding);
    assert first.value.names["cities"] == [NameRow(1, Some(name))];
    assert PyLower(name)[0] == '\U{00E1}';
    assert SqlLower(name)[0] == '\U{00C1}';
    assert !NameMatches(NameRow(1, Some(name)), PyLower(name), SqlFolding);
  }

  /** The intended lookup folds both sides with Python's lower-casing, and is then
      stable for every name: asking again with any name equal up to case returns the
      same id and inserts nothing. */
  lemma GetOrCreateFoldedRepeat(names: NameDb, tbl: string, n1: string, n2: string)
    requires PyLower(n1) == PyLower(n2)
    requires GetOrCreateOf(names, tbl, n1, PyFolding).Ok?
    ensures GetOrCreateOf(GetOrCreateOf(names, tbl, n1, PyFolding).value.names, tbl, n2, PyFolding)
            == GetOrCreateOf(names, tbl, n1, PyFolding)
  {
    GetOrCreateAgain(names, tbl, n1, n2, PyFolding);
  }

  /** components.py's `get_or_create(field, name)`: the name table is `FK_TABLES.get(field)`
      (an unknown field leaves None, whose `rows_where` is an AttributeError); the key is
      the name, or "" for None or ""; a miss inserts the name as given, NULL included. */
  function GetOrCreateFieldOf(s: Settings, names: NameDb, field: string, name: Option<string>): Result<Hit>
  {
    if field !in s.fkTables then Err(AttributeError("rows_where"))
    else
      var tbl := s.fkTables[field];
      var srch := if name.Some? then name.value else "";
      if tbl !in names then Err(SqlError("no such table: " + tbl))
      else
        match FindName(names[tbl], PyLower(srch), SqlFolding)
        case Some(id) => Ok(Hit(id, names))
        case None => Ok(AddName(names, s.fkTables[field], name))
  }

  /** A missing name is looked up as "" but inserted as NULL, which no lookup matches:
      every call without a name, on a table with no empty name, adds one more NULL row. */
  lemma GetOrCreateFieldNull(s: Settings, names: NameDb, field: string)
    requires field in s.fkTables && s.fkTables[field] in names
    requires forall i :: 0 <= i < |names[s.fkTables[field]]| ==> names[s.fkTables[field]][i].name != Some("")
    ensures var r := GetOrCreateFieldOf(s, names, field, None);
            && r.Ok?
            && r.value.names == names[s.fkTables[field] := names[s.fkTables[field]] + [NameRow(r.value.id, None)]]
            && var tbl := s.fkTables[field];
               forall i :: 0 <= i < |r.value.names[tbl]| ==> r.value.names[tbl][i].name != Some("")
  {
    var tbl := s.fkTables[field];
    assert PyLower("") == "";
    forall i | 0 <= i < |names[tbl]| ensures !NameMatches(names[tbl][i], "", SqlFolding) {
      var r := names[tbl][i];
      if r.name.Some? {
        assert |SqlLower(r.name.value)| == |r.name.value| && r.name.value != "";
      }
    }
    assert FirstMatch(names[tbl], "", SqlFolding).None?;
  }

  /** Projections of a lookup's outcome. */
  function IdOf(h: Result<Hit>): Result<int>
  {
    match h
    case Ok(hit) => Ok(hit.id)
    case Err(e) => Err(e)
  }

  function NamesAfter(names: NameDb, h: Result<Hit>): NameDb
  {
    match h
    case Ok(hit) => hit.names
    case Err(_) => names
  }

  // ---------------------------------------------------------------------------
  // File tables
  // ---------------------------------------------------------------------------

  /** A row of `ppt_images` or of a `FILE_TABLES` table: the property and the stored
      path of the uploaded file. */
  datatype FileRow = FileRow(id: int, pptId: int, name: string)

  function FileIds(rows: seq<FileRow>): seq<int>
  {
    seq(|rows|, i requires 0 <= i < |rows| => rows[i].id)
  }

  /** `tbl.insert({"ppt_id": pptId, "name": name})`. */
  function AddFile(rows: seq<FileRow>, pptId: int, name: string): (r: seq<FileRow>)
    ensures |r| == |rows| + 1 && r[..|rows|] == rows
    ensures r[|rows|].pptId == pptId && r[|rows|].name == name
    ensures forall i :: 0 <= i < |rows| ==> rows[i].id != r[|rows|].id
  {
    var id := NextId(FileIds(rows));
    assert forall i :: 0 <= i < |rows| ==> FileIds(rows)[i] == rows[i].id;
    rows + [FileRow(id, pptId, name)]
  }

  // ---------------------------------------------------------------------------
  // The database
  // ---------------------------------------------------------------------------

  /** The tables of `mysettings.db` the handlers write to. */
  class Db {
    var names: NameDb
    var files: map<string, seq<FileRow>>
    var tables: map<string, seq<Row>>

    /** utils.py's `get_or_create(tbl, name)` as written. */
    method GetOrCreate(tbl: string, name: string) returns (r: Result<int>)
      modifies this`names
      ensures r == IdOf(GetOrCreateOf(old(names), tbl, name, SqlFolding))
      ensures names == NamesAfter(old(names), GetOrCreateOf(old(names), tbl, name, SqlFolding))
    {
      r := LookupOrInsert(tbl, name, SqlFolding);
    }

    /** `get_or_create` with the stored names lower-cased as Python lower-cases the key. */
    method GetOrCreateFolded(tbl: string, name: string) returns (r: Result<int>)
      modifies this`names
      ensures r == IdOf(GetOrCreateOf(old(names), tbl, name, PyFolding))
      ensures names == NamesAfter(old(names), GetOrCreateOf(old(names), tbl, name, PyFolding))
    {
      r := LookupOrInsert(tbl, name, PyFolding);
    }

    method LookupOrInsert(tbl: string, name: string, how: Folding) returns (r: Result<int>)
      modifies this`names
      ensures r == IdOf(GetOrCreateOf(old(names), tbl, name, how))
      ensures names == NamesAfter(old(names), GetOrCreateOf(old(names), tbl, name, how))
    {
      if tbl !in names {
        return Err(SqlError("no such table: " + tbl));
      }
      var itm := FindName(names[tbl], PyLower(name), how);
      if itm.Some? {
        return Ok(itm.value);
      }
      if tbl !in NameTables {
        return Err(KeyError(tbl));
      }
      var h := AddName(names, tbl, Some(name));
      names := h.names;
      r := Ok(h.id);
    }

    /** components.py's `get_or_create(field, name)`. */
    method GetOrCreateField(s: Settings, field: string, name: Option<string>) returns (r: Result<int>)
      modifies this`names
      ensures r == IdOf(GetOrCreateFieldOf(s, old(names), field, name))
      ensures names == NamesAfter(old(names), GetOrCreateFieldOf(s, old(names), field, name))
    {
      if field !in s.fkTables {
        return Err(AttributeError("rows_where"));
      }
      var tbl := s.fkTables[field];
      var srch := if name.Some? then name.value else "";
      if tbl !in names {
        return Err(SqlError("no such table: " + tbl));
      }
      var itm := FindName(names[tbl], PyLower(srch), SqlFolding);
      if itm.Some? {
        return Ok(itm.value);
      }
      var h := AddName(names, tbl, name);
      names := h.names;
      r := Ok(h.id);
    }

    /** `tbl.insert(fields)` on a table other than a name or file table. */
    method Insert(tbl: string, fields: Row) returns (id: int)
      requires tbl in tables
      modifies this`tables
      ensures tbl in tables && (id, tables[tbl]) == InsertRow(old(tables[tbl]), fields)
      ensures tables == old(tables)[tbl := tables[tbl]]
    {
      var ins := InsertRow(tables[tbl], fields);
      tables := tables[tbl := ins.1];
      id := ins.0;
    }
  }
}
