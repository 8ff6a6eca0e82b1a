# retha_crm — a Dafny model of the comparison and report core

retha_crm is a small real-estate CRM. Brokers keep properties, units and client tasks in a
SQLite database. They put units side by side in *comparisons* and send the client a
"site selection" PDF. This project models the data-shaping and state-changing core of that
application:

- **Comparison tables.** `get_cmp_for`, `get_units_tbl`, `get_tbl_flds_for`,
  `get_renamed_flds_for`, `get_modification_dict` and `get_min_max_modified` in
  components.py, and the `CMP_MODIFY` and rename loop of `create_pdf` in main.py. A query
  result becomes a labelled table with one column per comparison. Yes/no flags are spelled
  out, the display lambdas of const.py are applied, and rows are selected and relabelled.
- **The site-selection PDF.** `create_pdf` in components.py and in main.py is modelled as a
  reportlab canvas class (`Pdf.Canvas`) with pages, bookmarks, an outline and forms. The
  drawing methods are proved against a plan function (`ReportPlan.ReportOf`). Lemmas state
  the document's layout:
  - page counts and positions;
  - which bookmark every link and outline entry lands on;
  - the map labels;
  - how the header links tile the overview row;
  - which images each page draws;
  - that the cost table of each comparison holds the query row's own costs.
- **Stateful helpers.** These are modelled on a `Store.Db` class whose methods change the
  tables in place:
  - `get_or_create` in utils.py and in components.py;
  - `save_img`, `save_item`, `delete_file` and `create_cmp`;
  - `save_task_params`, `add_archive`, `create_new_task` and `get_task`;
  - `ppt_serializer`.
- **Constants** of const.py that the above read: the registers, `PPT_TYPE`, the display
  and rename dicts, `costs_const` and the page geometry.

Python values are modelled as follows:

- SQLite values are `Values.Value` (`Int`, `Real`, `Str`, `Null`).
- Insertion-ordered dicts are `Dicts.Dict`, a sequence of pairs. `Get`, `Put` and the `**`
  merge are defined on it.
- A pandas DataFrame is `Frames.Frame`, a set of columns plus a list of rows.
- Python exceptions are `Wrappers.Error` values in a `Result`.
- Settings the code imports from mysettings.py are fields of a `Config.Settings` record and
  are passed in as parameters. Examples are `FK_TABLES`, `FILE_TABLES`, `PPT_COSTS_FLDS`,
  the warehouse field lists, `Status` and the per-type tables.

## Model

Each operation is defined once by a function (`CmpQuery.CmpFor`, `Units.UnitsTbl`,
`MainTables.MainTablesOf`, `ReportPlan.ReportOf`, `Store.GetOrCreateOf`,
`CreatePdf.MainReportOf`, `CreatePdf.ComponentsReportOf`, `Uploads.DeleteFileOf`,
`CmpStore.CreateCmpOf`, `TaskParams.SaveTaskParamsOf` and the like). Such a function has
no row of its own: it is specified through the rows that name it, namely the method proved
equal to it and the lemmas about its result.

| member | source | states |
|---|---|---|
| Store.InsertRow | utils.py:33-34 | the row is appended with an id no existing row has, and that id is returned |
| Store.FirstMatch | utils.py:17-25 | the first row whose folded name equals the key, as `LIMIT 1` returns it, or none when no row matches |
| Store.AddName | components.py:57-58 | a name table gains exactly one row `(fresh id, name)` at its end |
| Store.GetOrCreateFinds | utils.py:23-25 | when a row matches, nothing is inserted and the id of the first matching row is returned |
| Store.GetOrCreateAdds | utils.py:26-34 | when no row matches, exactly one row holding the name as given (not lower-cased) is added under a fresh id |
| Store.GetOrCreateAgain | utils.py:15-34 | repeating the call with a name equal up to case returns the same id and changes nothing, for any folding that agrees with Python's on the name |
| Store.GetOrCreateRepeat | utils.py:17-25 | the lookup as written is stable for names SQLite lower-cases like Python (every ASCII name) |
| Store.GetOrCreateDuplicates | utils.py:17-25 | as written, "Água" is never found again: a second call inserts a second row under a new id |
| Store.GetOrCreateFoldedRepeat | utils.py:17-25 | with both sides folded by the modelled Python lower-casing (ASCII and the Latin-1 capitals), repeating any equal-up-to-case name returns the same id and inserts nothing |
| Store.GetOrCreateFieldNull | components.py:46-58 | a missing name is looked up as "" but inserted as NULL, so each such call adds another NULL row |
| Store.AddFile | components.py:39 | a file table gains one row, last, with the property id, the path and a fresh id |
| Store.Db.GetOrCreate | utils.py:15-34 | the id returned and the name tables afterwards are those of the lookup-or-insert with SQLite's folding |
| Store.Db.GetOrCreateFolded | utils.py:15-34 | the same with the modelled Python folding (ASCII and the Latin-1 capitals) on both sides (the corrected lookup) |
| Store.Db.GetOrCreateField | components.py:43-58 | `get_or_create(field, name)`: the table is `FK_TABLES[field]`, missing names are searched as "" |
| Store.Db.Insert | components.py:1247-1253 | `tbl.insert(fields)` changes only that table, by `InsertRow` |
| Uploads.StoredFileNameOwner | components.py:29 | the stored file name starts with the property id, which reads back from it |
| Uploads.ImagePathParts | utils.py:7-13 | an image path is `/images/{ppt_id}_{filename}` |
| Uploads.SaveImg | utils.py:6-13 | `ppt_images` gains one row with the property id and the image path; no other table changes |
| Uploads.SaveFileOf | components.py:29-39 | the file table is `FILE_TABLES[path]`; it gains one row naming `/{path}/{ppt_id}_{filename}` under a fresh id |
| Uploads.SaveItem | components.py:23-40 | the `infrs` branch gets or creates the name and links it in `ppt_infrastructures`; other folders record the upload; the wrong kind of item fails on the missing attribute |
| Uploads.FindFile | components.py:99 | `t[id]` is a row of the table with that id, or none exists |
| Uploads.RemoveFile | components.py:102 | `t.delete(id)` leaves only rows of the table without that id |
| Uploads.DeleteFile | components.py:97-102 | the file tables afterwards and the path returned are those of `DeleteFileOf`; an error, including FileNotFoundError from the unlink that precedes the delete, changes nothing |
| Uploads.DeleteAppended | components.py:97-102 | deleting a row just appended unlinks `BASE_DIR/` plus its name without the leading slash and gives the table back; when no file is there, FileNotFoundError and the row stays |
| Uploads.ItemPathRelative | components.py:100 | `name[1:]` of a stored item path is `{path}/{ppt_id}_{filename}` |
| Uploads.SaveThenDelete | components.py:23-40 | deleting the row `save_item` made unlinks `BASE_DIR/{path}/{ppt_id}_{filename}`, the path the row records, and restores the file tables; when no file is at that path, FileNotFoundError and the row stays |
| Values.PyInt | components.py:1261-1263 | `int(v)` succeeds exactly on integers and decimal integer strings, with their value |
| Text.NatToStringRoundTrip | components.py:1447 | `str(n)` is a non-empty digit string with no leading zero that reads back as n |
| Text.IntToStringRoundTrip | components.py:1256 | `int(str(i)) == i` |
| Text.IntToStringChars | components.py:1256 | `str(i)` holds only digits and a leading minus |
| Text.Pad2RoundTrip | components.py:1495 | `f"{n:02d}"` is at least two digits and reads back as n |
| Text.Fmt02 | components.py:1403 | `:02d` of a non-negative number is the zero-padded form; a negative one keeps its sign |
| Text.Pad2Injective | components.py:1529 | distinct numbers give distinct `:02d` keys |
| Text.Split | components.py:653 | `s.split(sep)` is never empty |
| Text.SplitJoin | components.py:653 | joining the parts of a split with the separator gives the string back |
| Text.JoinSplit | components.py:653 | splitting a join gives the parts back when no part holds the separator's marker character |
| Text.SplitPair | main.py:799 | two parts joined by the separator split back into the two |
| Text.DropFirst | components.py:100 | `s[1:]` is s without its first character, and "" for "" |
| Text.PyLowerIdempotent | utils.py:23 | the modelled Python lower-casing (ASCII and the Latin-1 capitals) is idempotent |
| Dicts.ToMapAt | const.py:16-20 | with distinct keys, `dict(d)` sends each key to the value stored with it |
| Dicts.Get | components.py:1270 | `d.get(k)` is present exactly for the keys of d |
| Dicts.PutGet | components.py:115-117 | after `d[k] = v`, k holds v and every other key keeps its value |
| Dicts.MergeDisjoint | const.py:182-192 | `{**d, **e}` with keys new to d lays d's entries then e's end to end |
| Dicts.MergeGet | const.py:16-20 | after `{**d, **e}` every key of e holds e's value, every other key d's |
| Sql.PlaceholdersCount | main.py:614 | the placeholder list has exactly one `?` per id and is empty only for none |
| Sql.PlaceholdersSplit | components.py:1267 | a non-empty placeholder list splits at ", " into one "?" per element |
| Archive.ArchiveStatement | main.py:608-622 | a statement is issued exactly when the form is non-empty, binding the form's values in order |
| Archive.ArchiveStatementBinds | main.py:614-621 | the UPDATE text has as many `?` as bound ids |
| Archive.Archived | main.py:615-619 | exactly the rows whose id is listed get status 'archive'; every other column and row is unchanged |
| Archive.ArchiveIdempotent | main.py:608-622 | archiving the same ids twice is the same as once |
| Archive.AddArchiveOf | main.py:608-622 | an empty form changes nothing; a missing table is an SQL error; otherwise only the listed rows of that table change |
| Archive.AddArchive | main.py:608-622 | returns "Done" with the tables of `AddArchiveOf`, and issues `ArchiveStatement` |
| Const.AdminRegisterExtends | const.py:10-20 | the admin register lists admin and secretary, then every secretary-register role with its label |
| Const.PptTypeLabel | const.py:33-38 | `PPT_TYPE[t]` exists exactly for the four property types |
| Const.DisplayKeysDistinct | const.py:89-168 | both display dicts have distinct keys, and `MODIFICATIONS` is select followed by `CMP_MODIFY`'s keys |
| Const.DisplayDictionaries | const.py:89-168 | every range entry is the min/max display of its own field, and the address is "{district} - {city}" |
| Const.MdlRenameOrder | const.py:182-192 | `MDL_RENAME` is the seven basic rows then the eight module rows, keys distinct |
| Const.MdlRenameTail | const.py:182-192 | `MDL_RENAME` has 15 keys ending with condominium, iptu, foro, rent and price |
| Const.CmpRenameOrder | const.py:194-198 | `CMP_RENAME` is address and price, then the basic rows |
| Const.ComparisonsRenameOrder | const.py:202-208 | the comparisons labels are select, details, address and price, then the basic rows |
| Const.ModulesRenameIsMdl | const.py:209-211 | the modules labels are `MDL_RENAME` |
| Const.PropertiesRenameOrder | const.py:212-215 | the properties labels are select followed by `MDL_RENAME` |
| Const.SelectNotMdl | const.py:182-192 | no module row is the select row |
| Const.CostsConst | const.py:242-247 | the three cost fields, each label ending in "R$/" and the unit |
| Const.Geometry | const.py:266-271 | 1800 points between the side paddings; the content top is at y = 814 |
| Modifiers.TemplateKeysCols | const.py:89-107 | an f-string display reads exactly the columns it names |
| Modifiers.ApplyFails | const.py:89-107 | a display fails exactly when a column it reads is missing, with KeyError on the first such column |
| Modifiers.MinMaxCollapse | components.py:1112-1119 | the min/max display is the min text alone exactly when the two printed texts are equal |
| Modifiers.MinMaxSplit | components.py:1112-1119 | without an 'a' in either text, the display splits back into [min] or [min, max] |
| Modifiers.MinMaxComparesText | components.py:1112-1119 | 10 and 10.0 print differently and do not collapse |
| Modifiers.AddressSplit | const.py:90 | the address display is "{district} - {city}" and splits back when neither holds '-' |
| Fields.PriceFldsCases | components.py:67-72 | rent ads show price and rent, other ads sell, no ad type sell and rent |
| Fields.TblFldsFor | components.py:65-82 | the extra fields, title, available and area; warehouses then list efficiency, the price fields, the cost, yes/no and range fields and between_pilars, in that order; every other type the price fields and the cost fields |
| Fields.RenamedFldsFor | components.py:85-94 | the copy-and-relabel loop computes `RenamedFlds` |
| Fields.AddUnitSpec | components.py:91-93 | appending units fails exactly on a missing label, keeps the keys, and appends the unit once to each listed label only |
| Fields.RenamedFldsSpec | components.py:85-94 | it fails only on a listed field with no label; listed fields read "{label}, {unit}", warehouse area "ABL, m2", every other label as configured |
| Fields.RangeModifiers | components.py:1129-1130 | one min/max display per range field, in field order |
| Fields.ModificationDictGet | components.py:1122-1131 | for comparisons, range fields get their min/max display over the base one; all else keeps the base modifier |
| Frames.FromRows | components.py:1137 | `pd.DataFrame(db_q)` keeps the rows; an empty result has no columns |
| Frames.ReplaceBools | components.py:1138-1143 | succeeds exactly when every yes/no column exists, replacing each row's flags and keeping the columns |
| Frames.ApplyAll | components.py:1146-1148 | `df.apply(m, axis=1)` is the display of every row in order, failing if one fails |
| Frames.ModifyColumn | components.py:1146-1148 | column k is overwritten or added with each row's display; an empty frame is a ValueError |
| Frames.ModifyAll | components.py:1144-1148 | the loop adds exactly the columns with a modifier and keeps the row count |
| Frames.ModifyAllOk | components.py:1144-1148 | on a non-empty frame the loop succeeds when every modifier reads only existing columns |
| Frames.ModifyAllUntouched | components.py:1144-1148 | columns the loop does not rewrite keep their values |
| Frames.SelectUntouched | components.py:1149-1151 | a selected field the loop does not rewrite shows the original cell |
| Frames.ApplyModifiers | components.py:1144-1148 | the imperative loop computes `ModifyAll` |
| Frames.SelectRenamed | components.py:1149-1151 | succeeds exactly when every field is a column; labels the rows by the rename dict and transposes one column per query row |
| Frames.ApplyLocal | const.py:89-107 | a display's text depends only on the columns it reads |
| Frames.ModifyAllRowWise | components.py:1144-1148 | when no display reads a rewritten column, each rewritten cell is its display of the original row and the rest is untouched |
| Units.GetUnitsTbl | components.py:1134-1152 | the steps of `get_units_tbl` compute `UnitsTbl` |
| Units.UnitsTblShape | components.py:1134-1152 | one row per listed field labelled by the rename dict, one column per query row, in order |
| Units.UnitsTblCells | components.py:1134-1152 | each cell is its display's text, "Sim"/"Não" for a yes/no flag, or the query value |
| Units.BaseModifiersReads | components.py:1123-1128 | the base modifiers are edit, select, address and details and read only ppt_id, id, district and city |
| Units.ModificationDictNoChaining | components.py:1122-1131 | under a stated condition on the range fields, no modifier reads a column another rewrites |
| Units.UnitsTblEmpty | components.py:1137-1143 | an empty query result cannot be shaped |
| Units.UnitsTblNeedsUnderConstruction | components.py:1138-1143 | for non-warehouses the shaping fails with KeyError unless under_construction is a column |
| CmpQuery.FormInt | components.py:1261-1263 | `int(data[k])` fails with KeyError on a missing key and succeeds only on a single value |
| CmpQuery.FormIntOfText | components.py:1261-1263 | a form field holding `str(i)` reads back as i |
| CmpQuery.CmpWhere | components.py:1264-1269 | selected ids give `cmp.id IN (...)` binding them; otherwise the four-parameter filter |
| CmpQuery.CmpWhereCount | components.py:1264-1269 | either WHERE clause has one `?` per parameter |
| CmpQuery.FilterWhereCount | components.py:1264 | the filter clause has four `?` |
| CmpQuery.MinMaxCols | components.py:1285-1289 | `MIN(k) AS min_k, MAX(k) AS max_k` for each range field, in order |
| CmpQuery.QueryFeedsModifiers | components.py:1278-1291 | for warehouses the query returns every yes/no column and every min/max column the displays read |
| CmpQuery.NonWarehouseComparisonFails | components.py:1272-1312 | for other types the query omits under_construction, so shaping fails on any non-empty result |
| CmpQuery.LocationsFrom | components.py:1308-1311 | from row i on: succeeds exactly when every row's location parses, giving location j numbered j + 1 with the parsed value; otherwise fails with the error of the first row that does not parse |
| CmpQuery.Locations | components.py:1308-1311 | one parsed location per row numbered from 1; a location that is not text or that `json.loads` rejects fails, with the first such row's error |
| CmpQuery.CmpForLocations | components.py:1260-1325 | as many markers as table columns, marker j from query row j, and the WHERE clause binds every parameter |
| CmpStore.QueryStringRoundTrip | components.py:1245 | the query string splits back into the form's keys and printed values |
| CmpStore.CmpFields | components.py:1246-1253 | the comparison row is the form without ppt_type, with status NEW and the date |
| CmpStore.UnitFields | components.py:1255-1256 | one junction row per id in order, stopping with ValueError at the first non-integer id |
| CmpStore.InsertAllRows | components.py:1255-1256 | a batch of inserts keeps the old rows and gives each new row its columns and an id |
| CmpStore.InsertEach | components.py:1255-1256 | the loop inserts `UnitFields`' rows into the junction table and returns its error |
| CmpStore.CreateCmp | components.py:1244-1257 | the result and the tables are those of `CreateCmpOf` |
| CmpStore.CreateCmpRows | components.py:1244-1257 | one new comparison row under a fresh id, and one junction row per unit, in order, pointing at it |
| CmpStore.CmpRowAdded | components.py:1247-1253 | the comparisons table gains the new row, last, under a fresh id |
| CmpStore.JunctionRows | components.py:1255-1256 | with integer ids the junction table gains one row per id pointing at the comparison and the unit |
| MainTables.ShapeMainTables | main.py:376-378 | the `CMP_MODIFY` loop and both selections compute `MainTablesOf` |
| MainTables.MainTablesSucceed | main.py:326-378 | on any non-empty result of main.py's query the shaping succeeds |
| MainTables.ShapedColumns | main.py:376-377 | the display loop succeeds and keeps the query and display columns |
| MainTables.SelectionsOk | main.py:378 | both selections succeed on such a frame |
| MainTables.MainTablesParts | main.py:376-378 | the two tables are the two selections of the frame the loop leaves |
| MainTables.MainTablesLabels | main.py:378 | rows labelled by `CMP_RENAME` and `MDL_RENAME` in dict order, one column per query row, the last five detail rows the costs |
| MainTables.MainDetailsTail | main.py:376-378 | each detail column ends with the query row's own condominium, iptu, foro, rent and price |
| MainTables.MdlLabelsTail | const.py:182-192 | the last five module labels |
| MainTables.CmpRenameDistinct | const.py:194-198 | `CMP_RENAME` has distinct keys |
| ReportPlan.MapLinks | main.py:423-431 | two operations per marker |
| ReportPlan.ColLinks | main.py:484-498 | one link per overview column |
| ReportPlan.SplitField | components.py:1642-1643 | `row[k].split(",")` succeeds exactly on a text column |
| ReportPlan.AllLists | components.py:1642-1643 | the lists of every comparison, or the error of the first that fails |
| ReportPlan.Spreads | components.py:1528-1694 | two pages per comparison |
| ReportDraw.DrawCover | components.py:1363-1375 | the cover page, its `first_page` bookmark and its outline entry |
| ReportDraw.DrawAbout | components.py:1378-1386 | the about page, bookmark and outline entry |
| ReportDraw.DrawMap | components.py:1396-1423 | the map page with one label and one link per marker |
| ReportDraw.DrawOverview | components.py:1426-1525 | the overview page with a link over each column header |
| ReportDraw.OverviewHeaderWidth | components.py:1441-1443 | the header row has a label cell and one cell per comparison |
| ReportDraw.DrawSpread | components.py:1528-1694 | a comparison's two pages; a missing image row stops with the bookmark and outline entry already made |
| ReportDraw.AllListsStops | components.py:1642-1643 | once one comparison's lists fail, every longer prefix fails with the same error |
| ReportDraw.SpreadsStep | components.py:1528-1694 | one more readable comparison adds its two pages |
| ReportDraw.DrawSpreads | components.py:1528-1694 | every comparison's pages in column order, stopping at the first unreadable image row |
| ReportDraw.DrawLastPage | components.py:1696-1705 | the last page, its bookmark and outline entry, then save |
| ReportDraw.Layout | components.py:1328-1705 | the canvas ends up holding the plan's pages, bookmarks and outline, saved on success and unsaved on failure |
| ReportProps.SpreadsAt | components.py:1528-1694 | comparison i has pages 2i and 2i + 1 of the spreads |
| ReportProps.PagesAt | components.py:1328-1705 | 5 + 2N pages: cover, about, map, overview, two per comparison, last |
| ReportProps.DetailKeyDigits | components.py:1529 | a comparison's key is digits, none of the fixed bookmark names |
| ReportProps.DetailKeyInjective | components.py:1529 | distinct comparisons have distinct keys |
| ReportProps.DetailMarksKeys | components.py:1529-1535 | after n comparisons the bookmarks are the four fixed ones and one key per comparison |
| ReportProps.DetailMarksValues | components.py:1529-1535 | the fixed bookmarks name pages 0 to 3 and comparison i's key page 4 + 2i |
| ReportProps.BookmarksAt | components.py:1328-1705 | the bookmarks are exactly the five fixed names and the n keys, on pages 0-3, 4 + 2i and 4 + 2n |
| ReportProps.OverviewLinkAt | components.py:1494-1509 | operation 1 + c of the overview is a link to column c's key |
| ReportProps.OverviewLinksResolve | components.py:1494-1535 | every overview link goes to a bookmark on the first page of that comparison |
| ReportProps.SpreadTitle | components.py:1540-1544 | comparison idx's first page is titled "Imóvel " and its key |
| ReportProps.OutlineShape | components.py:1328-1705 | the outline is the four fixed entries, one level-1 entry per comparison, then the last page |
| ReportProps.OutlineKeys | components.py:1328-1705 | every outline key is bookmarked, level 0 is exactly the fixed and last entries, and keys are distinct |
| ReportProps.ColWidthTimes | components.py:1453-1455 | the n + 1 columns share the 1800 points |
| ReportProps.ColLinkRect | components.py:1494-1509 | header link c is one column wide, 40 points high, c + 1 columns in |
| ReportProps.ColLinkGeometry | components.py:1494-1509 | the header links tile the row and the last ends at the right padding |
| ReportProps.MapLinksResolve | components.py:1401-1417 | marker k's label "Imóvel_" and its number at x = 400 + 250(k + 1), with a 250 by 40 link to its maps URL |
| ReportProps.FirstSpreadTables | components.py:1546-1595 | the two tables laid end to end give all of the comparison's rows, the right one the last min(5, rows) |
| ReportProps.FirstPageImages | components.py:1642-1655 | the first page draws one image, the first of the list without its first character, only when the list is not empty |
| ReportProps.SecondPageImages | components.py:1656-1665 | the second page draws images 1 and 2 while they exist, 330 points apart |
| CreatePdf.Markers | components.py:1401-1408 | one marker per location, with its index |
| CreatePdf.MainCreatePdf | main.py:323-605 | main.py's report on a saved canvas, or no saved document when shaping fails |
| CreatePdf.MainSpreadCosts | main.py:524-541 | each comparison's right-hand table is exactly the five cost rows with the query row's own values |
| CreatePdf.SpreadCosts | main.py:524-541 | the same for one detail column |
| CreatePdf.ComponentsCreatePdf | components.py:1328-1705 | components.py's report on a saved canvas, or no saved document on failure |
| CreatePdf.ComponentsMarkersMatchKeys | components.py:1328-1705 | map label k and the bookmark of comparison k share the same two-digit key and come from query row k |
| Serializer.Location | components.py:652 | `json.loads` of the location succeeds exactly on text the parser accepts |
| Serializer.Images | components.py:653 | the split image list, or `DEFAULT_IMG` when the column is falsy |
| Serializer.TypeLabel | components.py:654 | `PPT_TYPE[int(ppt_type)]` exists exactly for the four types |
| Serializer.PptSerialized | components.py:651-656 | succeeds exactly when all three steps do, keeping every other column and carrying the parsed location, the image paths and the type label; otherwise fails with the error of the first step that fails, in source order |
| Serializer.ImagesRoundTrip | components.py:653 | comma-joined paths split back into the same paths |
| TaskForm.Handler | main.py:872 | a handle key ends in "_handler" |
| TaskForm.ExpandEntries | main.py:869-876 | range bounds gain a handle holding the same string, other keys copied in order, nothing else added |
| TaskForm.ExpandKeys | main.py:869-876 | the loop computes `Expand` |
| TaskForm.NameById | main.py:859-861 | a name lookup succeeds exactly when the table has a row with that id |
| TaskForm.PlacesGet | main.py:859-861 | the city is the name of the row's city id and other columns keep their values |
| TaskForm.ShowKeysGet | main.py:862-866 | each listed key holds `str` of its old value and every other key is unchanged |
| TaskForm.TaskFormFields | main.py:858-866 | the form read back: city name, the five fields as strings, every other column kept |
| TaskForm.GetTask | main.py:857-878 | the expanded form, or the lookup's error |
| TaskForm.NewTaskRow | main.py:798-807 | the task row exactly when the user field splits into three parts: the client is the third part, `broker_id` is the form's `broker`, `initial_dscr` the form's `initial_dscr`, and `date` the given time |
| TaskForm.NewTaskClient | main.py:799-803 | a "name - email - id" string gives client id |
| TaskForm.UserSplit | main.py:799 | a user string of dash-free parts splits back into them |
| TaskForm.NewTaskNeedsSeparator | main.py:799-800 | a user string without a dash makes no task |
| TaskForm.CreateNewTask | main.py:798-807 | the new task's id with one row inserted, or nothing inserted |
| TaskParams.IntField | components.py:112 | `int()` of a form field succeeds only on a single integer value |
| TaskParams.LinkItemPoints | components.py:106-111 | a saved item adds a junction row linking the task to a name row that holds or matches the item |
| TaskParams.PriceFallback | components.py:114-117 | each price bound is the rent bound when set and the sale bound otherwise |
| TaskParams.FillPrices | components.py:114-117 | the loop computes the fallback |
| TaskParams.ChainItems | components.py:118 | `ChainMap` items start with task_id, then the type's parameters not already seen |
| TaskParams.Convert | components.py:119 | the row holds exactly the parameters posted with a truthy value, each converted |
| TaskParams.ConvertedPrices | components.py:114-119 | the converted row holds the task id and every price bound the fallback set |
| TaskParams.SavedParams | components.py:112-119 | a saved search adds one parameter row, in the type's table, with the task id and the price bounds |
| TaskParams.LinkItemsLoop | components.py:109-111 | the inner loop computes `LinkItems` |
| TaskParams.LinkFieldsLoop | components.py:106-111 | the outer loop computes `LinkFields` |
| TaskParams.SaveTaskParams | components.py:105-119 | the tables and the form afterwards are those of `SaveTaskParamsOf` |

## Left out

- HTML, HTMX, JavaScript and the web routes are not modelled; only the functions above are. Authentication, sessions and toasts are left out too.
- SQL execution is not modelled. Query results (`db_q`, the image rows, `rows_where`) are inputs. Aggregation (`SUM`, `GROUP_CONCAT`) is not computed.
- SQL text is modelled only as far as its placeholders. The whitespace of the f-strings is kept in `Archive.ArchiveSql`. A table name holding `?` or SQL syntax (injection) is not modelled.
- reportlab is abstracted as `Pdf.Canvas`, which records drawing operations, pages, bookmarks, outline entries and forms. Fonts, colours, text wrapping and `Table` styling are recorded but not rendered.
- Column widths are real numbers, not floating point.
- File I/O is not modelled: writing uploads and `unlink` in `delete_file`. The file system is the `onDisk` parameter of `Uploads.DeleteFileOf` (which paths hold a file), and `Uploads.DeleteFile` returns the path it unlinks.
- The `ppt_images` column written by `save_img` is `img`. The model stores the path in the same field as other file tables.
- `json.loads` is the `loads` parameter of `Serializer.Location`, `CmpQuery.Locations`, `CmpQuery.CmpFor` and the two reports: the parser itself is not modelled, only which texts it accepts and what it builds. The `lat` and `lng` lookups in a parsed location are the `geo` parameter of `CreatePdf.Markers`.
- Text.PyLower: folds ASCII capitals and the Latin-1 capitals U+00C0..U+00DE (except U+00D7) only, which covers Portuguese names; Python's `str.lower()` folds every Unicode capital, so `Store.GetOrCreateFoldedRepeat`, `Store.Db.GetOrCreateFolded` and `Text.PyLowerIdempotent` speak of that modelled fold, not of full Unicode lower-casing.
- Uploads.SaveThenDelete: proves that `delete_file` unlinks `BASE_DIR/{path}/{ppt_id}_{filename}`, the path the row records. `save_item` writes the upload to `PDF_DIR/{ppt_id}_{filename}` for "pdfs" and to `IMG_DIR/{ppt_id}_{filename}` for every other folder. `PDF_DIR` and `IMG_DIR` come from mysettings.py and are not part of this model, so the two paths coincide only when `PDF_DIR` is `BASE_DIR/pdfs` and `IMG_DIR` is `BASE_DIR/{path}` for the other `FILE_TABLES` keys. The model does not promise that.
- Query results are rendered value by value (`Values.Show`: `None` for NULL, `5` for an int). pandas first coerces each column to one dtype: an integer column holding a NULL becomes float64 and prints "5.0" and "nan". That per-column coercion is not modelled.
- `datetime.now()` is the `now` parameter.
- mysettings.py settings are the `Config.Settings` and `TaskSettings` records. The converters in `PPT_TSK_PARAMS` are functions passed in.
- Values.PyInt: reads integers and decimal strings. It does not model `int()` of floats, surrounding whitespace or `_` separators.
- CmpQuery.FormInt: reads integers with `Text.ParseInt`, the reader behind `Values.PyInt`, so it rejects text such as " 7" or "1_0" that Python's `int()` accepts.
- CmpStore.UnitFields: reads integers with `Text.ParseInt`, the reader behind `Values.PyInt`, so it rejects text such as " 7" or "1_0" that Python's `int()` accepts.
- TaskParams.IntField: reads integers with `Text.ParseInt`, the reader behind `Values.PyInt`, so it rejects text such as " 7" or "1_0" that Python's `int()` accepts.
- TaskParams.SaveTaskParams: requires a scalar `task_id` in the form (`ScalarTaskId`). With a list there, SQLite would refuse the insert, and that error path is not modelled.
- TaskParams.SaveTaskParams: when a later step fails, the form `d` and the tables keep the changes made so far. The model returns them as they are at the failure, with no rollback.
- TaskForm.NewTaskClient: covers only user strings whose three parts contain no '-'.
- Units.ModificationDictNoChaining: holds only under a stated condition on the warehouse range fields.
- An empty query result (no comparisons) makes the table shaping fail, so no PDF is made (`Units.UnitsTblEmpty`). This follows the code.
- For non-warehouse comparisons, `get_cmp_for`'s query never selects `under_construction`, yet `get_units_tbl` reads it. The model follows the code and fails with KeyError (`CmpQuery.NonWarehouseComparisonFails`).
- Concurrency between requests is not modelled. Each operation runs alone.

## Findings

| source | as written | input that shows it | evidently intended | confidence | as-written member | corrected member |
|---|---|---|---|---|---|---|
| utils.py:17-25 | The lookup compares SQLite's `LOWER(name)` with Python's `name.lower()`. SQLite lower-cases only ASCII letters, while Python also lower-cases accented capitals. | "Água": it is stored as "Água", SQLite leaves it as is, and the key is "água". It never matches, so every call inserts another row. | Fold both sides the same way, so that a name is found again. | not executed | Store.GetOrCreateDuplicates | Store.GetOrCreateFoldedRepeat |
