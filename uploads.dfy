/**
 * Uploaded files and infrastructure names attached to a property: `save_img` in
 * utils.py, `save_item` and `delete_file` in components.py. The file writes and the
 * unlink themselves are not modelled; what is modelled is the path each row stores
 * and the path `delete_file` removes, which must name the same file.
 */
module Uploads {
  import opened Wrappers
  import opened Text
  import opened Values
  import opened Config
  import opened Store

  /** `f"{ppt_id}_{filename}"`: the name an upload is saved under. */
  function StoredFileName(pptId: int, filename: string): string
  {
    IntToString(pptId) + "_" + filename
  }

  /** The path `save_img` stores for an image. */
  function ImagePath(pptId: int, filename: string): string
  {
    "/images/" + StoredFileName(pptId, filename)
  }

  /** The path `save_item` stores for an upload into folder `path`. */
  function ItemPath(path: string, pptId: int, filename: string): string
  {
    "/" + path + "/" + StoredFileName(pptId, filename)
  }

  /** The saved name starts with the property id and an underscore, so the id can be
      read back from it whatever the file is called. */
  lemma StoredFileNameOwner(pptId: int, filename: string)
    ensures Split(StoredFileName(pptId, filename), "_")[0] == IntToString(pptId)
    ensures ParseInt(Split(StoredFileName(pptId, filename), "_")[0]) == Some(pptId)
  {
    IntToStringChars(pptId);
    assert Marker("_", 0);
    SplitAfterPrefix(IntToString(pptId), "_", filename, 0);
    IntToStringRoundTrip(pptId);
  }

  /** An image path is the saved name in the top-level `images` folder. */
  lemma ImagePathParts(pptId: int, filename: string)
    requires '/' !in filename
    ensures Split(ImagePath(pptId, filename), "/") == ["", "images", StoredFileName(pptId, filename)]
  {
    var stored := StoredFileName(pptId, filename);
    IntToStringChars(pptId);
    assert '/' !in stored by {
      assert forall k :: 0 <= k < |IntToString(pptId)| ==> stored[k] == IntToString(pptId)[k];
      assert forall k :: |IntToString(pptId)| + 1 <= k < |stored| ==> stored[k] == filename[k - |IntToString(pptId)| - 1];
    }
    assert Marker("/", 0);
    var parts := ["", "images", stored];
    assert parts[1..] == ["images", stored] && parts[1..][1..] == [stored];
    assert Join("/", parts[1..][1..]) == stored;
    assert Join("/", parts[1..]) == "images" + "/" + stored;
    assert Join("/", parts) == "" + "/" + ("images" + "/" + stored);
    assert Join("/", parts) == ImagePath(pptId, filename);
    JoinSplit(["", "images", stored], "/", 0);
  }

  /** `save_img(ppt_id, img)`: records the image under its stored path. */
  method SaveImg(db: Db, pptId: int, filename: string)
    requires "ppt_images" in db.files
    modifies db`files
    ensures db.files == old(db.files)["ppt_images" := AddFile(old(db.files)["ppt_images"], pptId, ImagePath(pptId, filename))]
  {
    var imgFilename := StoredFileName(pptId, filename);
    db.files := db.files["ppt_images" := AddFile(db.files["ppt_images"], pptId, "/images/" + imgFilename)];
  }

  /** What `save_item` receives: an infrastructure name, or an uploaded file. */
  datatype Item = Name(text: string) | Upload(filename: string)

  /** What `save_item` returns: the infrastructure and its id, or the inserted file row. */
  datatype Saved = SavedInfr(name: string, id: int) | SavedFile(row: FileRow)

  /** The file-table part of `save_item`: the table is `FILE_TABLES[path]` and the new
      row stores `/{path}/{ppt_id}_{filename}`. */
  function SaveFileOf(s: Settings, files: map<string, seq<FileRow>>, path: string, pptId: int, filename: string)
    : (r: Result<(FileRow, map<string, seq<FileRow>>)>)
    ensures r.Ok? ==> path in s.fileTables && s.fileTables[path] in files
    ensures r.Ok? ==> var rows := files[s.fileTables[path]];
                      && r.value.1 == files[s.fileTables[path] := rows + [r.value.0]]
                      && r.value.0.pptId == pptId && r.value.0.name == ItemPath(path, pptId, filename)
                      && forall i :: 0 <= i < |rows| ==> rows[i].id != r.value.0.id
  {
    if path !in s.fileTables then Err(KeyError(path))
    else
      var tbl := s.fileTables[path];
      if tbl !in files then Err(SqlError("no such table: " + tbl))
      else
        var rows := AddFile(files[tbl], pptId, ItemPath(path, pptId, filename));
        assert rows == files[tbl] + [rows[|files[tbl]|]];
        Ok((rows[|files[tbl]|], files[tbl := rows]))
  }

  /** `save_item(path, ppt_id, item)`. For the `infrs` folder the item is a name: it is
      looked up or created in the infrastructure table and linked to the property in
      `ppt_infrastructures`. For any other folder the item is an upload recorded in
      `FILE_TABLES[path]`. The wrong kind of item fails on the attribute it lacks. */
  method SaveItem(db: Db, s: Settings, path: string, pptId: int, item: Item) returns (r: Result<Saved>)
    requires "ppt_infrastructures" in db.tables
    modifies db`names, db`files, db`tables
    ensures path == "infrs" ==> db.files == old(db.files)
    ensures path == "infrs" && item.Upload? ==>
              && r == Err(AttributeError(if "infr_id" in s.fkTables then "lower" else "rows_where"))
              && db.names == old(db.names) && db.tables == old(db.tables)
    ensures path == "infrs" && item.Name? ==>
              var h := GetOrCreateFieldOf(s, old(db.names), "infr_id", Some(item.text));
              && db.names == NamesAfter(old(db.names), h)
              && (h.Err? ==> r == Err(h.error) && db.tables == old(db.tables))
              && (h.Ok? ==> r == Ok(SavedInfr(item.text, h.value.id))
                            && db.tables == old(db.tables)["ppt_infrastructures" :=
                                 InsertRow(old(db.tables)["ppt_infrastructures"],
                                           map["ppt_id" := Int(pptId), "infr_id" := Int(h.value.id)]).1])
    ensures path != "infrs" ==> db.names == old(db.names) && db.tables == old(db.tables)
    ensures path != "infrs" && item.Name? ==> r == Err(AttributeError("filename")) && db.files == old(db.files)
    ensures path != "infrs" && item.Upload? ==>
              var f := SaveFileOf(s, old(db.files), path, pptId, item.filename);
              && (f.Ok? ==> r == Ok(SavedFile(f.value.0)) && db.files == f.value.1)
              && (f.Err? ==> r == Err(f.error) && db.files == old(db.files))
  {
    if path == "infrs" {
      if item.Upload? {
        return Err(AttributeError(if "infr_id" in s.fkTables then "lower" else "rows_where"));
      }
      var id := db.GetOrCreateField(s, "infr_id", Some(item.text));
      if id.Err? {
        return Err(id.error);
      }
      var _ := db.Insert("ppt_infrastructures", map["ppt_id" := Int(pptId), "infr_id" := Int(id.value)]);
      return Ok(SavedInfr(item.text, id.value));
    }
    if item.Name? {
      return Err(AttributeError("filename"));
    }
    var itemFilename := StoredFileName(pptId, item.filename);
    if path !in s.fileTables {
      return Err(KeyError(path));
    }
    var tbl := s.fileTables[path];
    if tbl !in db.files {
      return Err(SqlError("no such table: " + tbl));
    }
    var rows := AddFile(db.files[tbl], pptId, "/" + path + "/" + itemFilename);
    db.files := db.files[tbl := rows];
    r := Ok(SavedFile(rows[|rows| - 1]));
  }

  /** `t[id]`: the row with that primary key. */
  function FindFile(rows: seq<FileRow>, id: int): (r: Option<FileRow>)
    ensures r.Some? ==> r.value in rows && r.value.id == id
    ensures r.None? ==> forall i :: 0 <= i < |rows| ==> rows[i].id != id
  {
    if rows == [] then None
    else if rows[0].id == id then Some(rows[0])
    else FindFile(rows[1..], id)
  }

  /** `t.delete(id)`: the table without the row with that primary key. */
  function RemoveFile(rows: seq<FileRow>, id: int): (r: seq<FileRow>)
    ensures forall i :: 0 <= i < |r| ==> r[i].id != id && r[i] in rows
  {
    if rows == [] then []
    else if rows[0].id == id then RemoveFile(rows[1..], id)
    else [rows[0]] + RemoveFile(rows[1..], id)
  }

  /** `delete_file(path, id)`: the row is looked up in `FILE_TABLES[path]` (a missing one
      is NotFound), the file `BASE_DIR / name[1:]` is unlinked and only then the row
      deleted. `onDisk` says which paths hold a file: unlinking any other path raises
      FileNotFoundError before the delete, so the row stays. The result is the unlinked
      path and the file tables after the delete. */
  function DeleteFileOf(s: Settings, files: map<string, seq<FileRow>>, path: string, id: int,
                        onDisk: string -> bool): Result<(string, map<string, seq<FileRow>>)>
  {
    if path !in s.fileTables then Err(KeyError(path))
    else
      var tbl := s.fileTables[path];
      if tbl !in files then Err(SqlError("no such table: " + tbl))
      else
        match FindFile(files[tbl], id)
        case None => Err(NotFound)
        case Some(row) =>
          var link := s.baseDir + "/" + DropFirst(row.name);
          if !onDisk(link) then Err(FileNotFoundError(link))
          else Ok((link, files[tbl := RemoveFile(files[tbl], id)]))
  }

  method DeleteFile(db: Db, s: Settings, path: string, id: int, onDisk: string -> bool) returns (r: Result<string>)
    modifies db`files
    ensures var d := DeleteFileOf(s, old(db.files), path, id, onDisk);
            && (d.Ok? ==> r == Ok(d.value.0) && db.files == d.value.1)
            && (d.Err? ==> r == Err(d.error) && db.files == old(db.files))
  {
    if path !in s.fileTables {
      return Err(KeyError(path));
    }
    var t := s.fileTables[path];
    if t !in db.files {
      return Err(SqlError("no such table: " + t));
    }
    var item := FindFile(db.files[t], id);
    if item.None? {
      return Err(NotFound);
    }
    var link := s.baseDir + "/" + DropFirst(item.value.name);
    if !onDisk(link) {
      return Err(FileNotFoundError(link));
    }
    db.files := db.files[t := RemoveFile(db.files[t], id)];
    r := Ok(link);
  }

  lemma {:induction false} FindFileAppended(rows: seq<FileRow>, row: FileRow)
    requires forall i :: 0 <= i < |rows| ==> rows[i].id != row.id
    ensures FindFile(rows + [row], row.id) == Some(row)
    ensures RemoveFile(rows + [row], row.id) == rows
    decreases |rows|
  {
    if rows != [] {
      assert (rows + [row])[1..] == rows[1..] + [row];
      FindFileAppended(rows[1..], row);
      assert rows == [rows[0]] + rows[1..];
    }
  }

  /** Deleting a row just appended to a file table gives the table back as it was when
      its file exists, and fails with FileNotFoundError, keeping the row, when not. */
  lemma DeleteAppended(s: Settings, files: map<string, seq<FileRow>>, path: string, row: FileRow,
                       onDisk: string -> bool)
    requires path in s.fileTables && s.fileTables[path] in files
    requires forall i :: 0 <= i < |files[s.fileTables[path]]| ==> files[s.fileTables[path]][i].id != row.id
    ensures var tbl := s.fileTables[path];
            var link := s.baseDir + "/" + DropFirst(row.name);
            DeleteFileOf(s, files[tbl := files[tbl] + [row]], path, row.id, onDisk)
            == if onDisk(link) then Ok((link, files)) else Err(FileNotFoundError(link))
  {
    var tbl := s.fileTables[path];
    FindFileAppended(files[tbl], row);
    assert files[tbl := files[tbl] + [row]][tbl := files[tbl]] == files;
  }

  /** The path `delete_file` unlinks for a stored item path. */
  lemma ItemPathRelative(path: string, pptId: int, filename: string)
    ensures DropFirst(ItemPath(path, pptId, filename)) == path + "/" + StoredFileName(pptId, filename)
  {
    assert ItemPath(path, pptId, filename) == "/" + (path + "/" + StoredFileName(pptId, filename));
  }

  /** Deleting the row `save_item` just made unlinks `BASE_DIR/{path}/{ppt_id}_{filename}`,
      the path the row records, and gives back the file tables as they were; when no file
      is at that path, the unlink fails first and the new row stays. */
  lemma SaveThenDelete(s: Settings, files: map<string, seq<FileRow>>, path: string, pptId: int, filename: string,
                       onDisk: string -> bool)
    requires SaveFileOf(s, files, path, pptId, filename).Ok?
    ensures var saved := SaveFileOf(s, files, path, pptId, filename).value;
            var link := s.baseDir + "/" + path + "/" + StoredFileName(pptId, filename);
            DeleteFileOf(s, saved.1, path, saved.0.id, onDisk)
            == if onDisk(link) then Ok((link, files)) else Err(FileNotFoundError(link))
  {
    var saved := SaveFileOf(s, files, path, pptId, filename).value;
    DeleteAppended(s, files, path, saved.0, onDisk);
    ItemPathRelative(path, pptId, filename);
    var rest := path + "/" + StoredFileName(pptId, filename);
    assert s.baseDir + "/" + rest == s.baseDir + "/" + path + "/" + StoredFileName(pptId, filename);
  }
}
