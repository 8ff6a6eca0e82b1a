/**
 * `add_archive` in main.py: the ids the form posts are bound, one `?` each, into an
 * UPDATE that sets the status of those rows to 'archive'. An empty form issues nothing.
 */
module Archive {
  import opened Wrappers
  import opened Text
  import opened Values
  import opened Dicts
  import opened Sql
  import opened Store

  /** A statement handed to SQLite: its text and its bound parameters. */
  datatype Statement = Statement(sql: string, params: seq<Value>)

  /** The fixed text of the UPDATE, whitespace as the f-string writes it. */
  const UpdateHead: string := "\n        UPDATE "
  const SetClause: string := "\n        SET " + "status = 'archive'" + "\n        WHERE " + "id IN ("
  const CloseClause: string := ");\n        "

  /** The UPDATE text for `table` and n ids. */
  function ArchiveSql(table: string, n: nat): string
  {
    UpdateHead + table + SetClause + Placeholders(n) + CloseClause
  }

  /** The statement `add_archive` issues for the posted form `d`, if any: none for an
      empty form, otherwise one whose parameters are the form's values in order. */
  function ArchiveStatement(table: string, d: Dict<string, Value>): (r: Option<Statement>)
    ensures r.Some? <==> |d| > 0
    ensures r.Some? ==> r.value.params == DictValues(d) && |r.value.params| == |d|
  {
    if d == [] then None else Some(Statement(ArchiveSql(table, |d|), DictValues(d)))
  }

  /** The statement binds every parameter: as many `?` in its text as values, as long as
      the table name itself holds no `?`. */
  lemma ArchiveStatementBinds(table: string, d: Dict<string, Value>)
    requires '?' !in table && ArchiveStatement(table, d).Some?
    ensures CountChar(ArchiveStatement(table, d).value.sql, '?') == |ArchiveStatement(table, d).value.params|
  {
    ArchiveSqlCount(table, |d|);
  }

  /** ArchiveSql for n ids holds exactly n `?`. */
  lemma ArchiveSqlCount(table: string, n: nat)
    requires '?' !in table
    ensures CountChar(ArchiveSql(table, n), '?') == n
  {
    var head := UpdateHead + table + SetClause;
    FixedTextFree();
    assert ArchiveSql(table, n) == (head + Placeholders(n)) + CloseClause;
    CountCharConcat(head + Placeholders(n), CloseClause, '?');
    CountCharConcat(head, Placeholders(n), '?');
    CountCharAbsent(head, '?');
    CountCharAbsent(CloseClause, '?');
    PlaceholdersCount(n);
  }

  /** The fixed text holds no `?` of its own. */
  lemma FixedTextFree()
    ensures '?' !in UpdateHead && '?' !in SetClause && '?' !in CloseClause
  {
    SetClauseFree();
  }

  lemma SetClauseFree()
    ensures '?' !in SetClause
  {
    assert '?' !in "\n        SET " && '?' !in "status = 'archive'";
    assert '?' !in "\n        WHERE " && '?' !in "id IN (";
  }

  /** `id IN (...)` on an INTEGER PRIMARY KEY: SQLite applies the column's integer
      affinity to each bound value, so `5` and `'5'` both select the row with id 5, and
      NULL selects nothing. */
  predicate Listed(row: Row, ps: seq<Value>)
  {
    "id" in row && row["id"].Int? && exists p :: p in ps && IntOf(p) == Some(row["id"].i)
  }

  /** The table after `SET status = 'archive'` on the listed rows. */
  function Archived(rows: seq<Row>, ps: seq<Value>): (r: seq<Row>)
    ensures |r| == |rows|
    ensures forall i :: 0 <= i < |rows| && Listed(rows[i], ps) ==>
              "status" in r[i] && r[i]["status"] == Str("archive")
    ensures forall i :: 0 <= i < |rows| && !Listed(rows[i], ps) ==> r[i] == rows[i]
    ensures forall i :: 0 <= i < |rows| ==>
              forall k :: k != "status" ==> (k in r[i] <==> k in rows[i]) && (k in rows[i] ==> r[i][k] == rows[i][k])
  {
    seq(|rows|, i requires 0 <= i < |rows| =>
      if Listed(rows[i], ps) then rows[i]["status" := Str("archive")] else rows[i])
  }

  /** Archiving the same ids again changes nothing: the ids, and so the selection, stay. */
  lemma ArchiveIdempotent(rows: seq<Row>, ps: seq<Value>)
    ensures Archived(Archived(rows, ps), ps) == Archived(rows, ps)
  {
    var once := Archived(rows, ps);
    forall i | 0 <= i < |rows| ensures Archived(once, ps)[i] == once[i] {
      if Listed(once[i], ps) {
        assert Listed(rows[i], ps);
        assert once[i]["status" := Str("archive")] == once[i];
      }
    }
  }

  /** The tables after `add_archive(table, d)`, or the error SQLite raises for a table
      that does not exist. An empty form leaves every table, even a missing one, alone. */
  function AddArchiveOf(tables: map<string, seq<Row>>, table: string, d: Dict<string, Value>): (r: Result<map<string, seq<Row>>>)
    ensures d == [] ==> r == Ok(tables)
    ensures d != [] && table !in tables ==> r.Err? && r.error.SqlError?
    ensures r.Ok? && d != [] ==> table in tables && r.value == tables[table := Archived(tables[table], DictValues(d))]
  {
    if d == [] then Ok(tables)
    else if table !in tables then Err(SqlError("no such table: " + table))
    else Ok(tables[table := Archived(tables[table], DictValues(d))])
  }

  /** `add_archive(user_id, table, d)`: returns "Done" and the statement it issued. */
  method AddArchive(db: Db, table: string, d: Dict<string, Value>) returns (r: Result<string>, issued: Option<Statement>)
    modifies db`tables
    ensures issued == ArchiveStatement(table, d)
    ensures AddArchiveOf(old(db.tables), table, d).Ok? ==>
              r == Ok("Done") && db.tables == AddArchiveOf(old(db.tables), table, d).value
    ensures AddArchiveOf(old(db.tables), table, d).Err? ==>
              r == Err(AddArchiveOf(old(db.tables), table, d).error) && db.tables == old(db.tables)
  {
    var ids := DictValues(d);
    issued := None;
    if |ids| > 0 {
      issued := Some(Statement(ArchiveSql(table, |ids|), ids));
      if table !in db.tables {
        return Err(SqlError("no such table: " + table)), issued;
      }
      db.tables := db.tables[table := Archived(db.tables[table], ids)];
    }
    r := Ok("Done");
  }
}
