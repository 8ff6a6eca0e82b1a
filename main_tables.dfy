/**
 * The table shaping inside the older `create_pdf` in main.py: every `CMP_MODIFY`
 * display is applied, then the overview table takes the `CMP_RENAME` rows and the
 * detail tables the `FLDS_RENAME['modules']` rows, each relabelled and transposed.
 */
module MainTables {
  import opened Wrappers
  import opened Values
  import opened Dicts
  import opened Modifiers
  import opened Frames
  import Const

  /** The column names of the comparison query in main.py, in SELECT order. */
  const MainQueryColumns: seq<string> := [
    "id", "name", "district", "city", "location", "iptu", "foro", "condominium", "ppt_type", "title",
    "min_flr_capacity", "max_flr_capacity", "min_available", "max_available", "min_height", "max_height",
    "min_energy", "max_energy", "min_width", "max_width",
    "docks", "abl", "price", "rent", "office_area", "efficiency"]

  /** The overview table and the detail tables. */
  datatype Tables = Tables(overview: Table, details: Table)

  /** A rename dict applied as a column selection: its keys in order, relabelled. */
  function SelectDict(f: Frame, d: Dict<string, string>): Result<Table>
    requires Wf(f)
  {
    SelectRenamed(f, Keys(d), ToMap(d))
  }

  /** What the shaping in main.py's `create_pdf` produces from the query rows. */
  function MainTablesOf(q: seq<Row>): Result<Tables>
    requires Uniform(q)
  {
    var f := FromRows(q);
    match ModifyAll(f, Keys(Const.CmpModify), Const.CmpModify)
    case Err(e) => Err(e)
    case Ok(g) =>
      match SelectDict(g, Const.CmpRename())
      case Err(e) => Err(e)
      case Ok(overview) =>
        match SelectDict(g, Const.ModulesRename())
        case Err(e) => Err(e)
        case Ok(details) => Ok(Tables(overview, details))
  }

  /** The shaping steps: the `CMP_MODIFY` loop, then both selections. */
  method ShapeMainTables(q: seq<Row>) returns (r: Result<Tables>)
    requires Uniform(q)
    ensures r == MainTablesOf(q)
  {
    var df := FromRows(q);
    var modified := ApplyModifiers(df, Keys(Const.CmpModify), Const.CmpModify);
    if modified.Err? {
      return Err(modified.error);
    }
    var tbl := SelectRenamed(modified.value, Keys(Const.CmpRename()), ToMap(Const.CmpRename()));
    if tbl.Err? {
      return Err(tbl.error);
    }
    var dtls := SelectRenamed(modified.value, Keys(Const.ModulesRename()), ToMap(Const.ModulesRename()));
    if dtls.Err? {
      return Err(dtls.error);
    }
    return Ok(Tables(tbl.value, dtls.value));
  }

  /** Selecting by a dict with distinct keys labels the rows with its values, in order. */
  lemma SelectDictLabels(f: Frame, d: Dict<string, string>)
    requires Wf(f) && DistinctKeys(d) && SelectDict(f, d).Ok?
    ensures SelectDict(f, d).value.labels == DictValues(d)
  {
    var t := SelectDict(f, d).value;
    forall i | 0 <= i < |d| ensures t.labels[i] == d[i].1 {
      ToMapAt(d, i);
    }
  }

  /** The displays `CMP_MODIFY` adds, in order. */
  lemma CmpModifyKeys()
    ensures Keys(Const.CmpModify) == ["address", "flr_capacity", "details", "available", "height", "energy", "width"]
    ensures forall k :: k in Keys(Const.CmpModify) ==> Get(Const.CmpModify, k).Some?
  {
  }

  /** Every row either table selects is a query column or a display column. */
  lemma SelectedRowsAvailable()
    ensures forall k :: k in Keys(Const.CmpRename()) ==> k in MainQueryColumns || k in Keys(Const.CmpModify)
    ensures forall k :: k in Keys(Const.ModulesRename()) ==> k in MainQueryColumns || k in Keys(Const.CmpModify)
  {
    Const.CmpRenameOrder();
    Const.MdlRenameOrder();
    Const.ModulesRenameIsMdl();
    CmpModifyKeys();
  }

  /** The `CMP_MODIFY` displays read only columns of the main.py query. */
  lemma CmpModifyReads(k: string)
    requires Get(Const.CmpModify, k).Some?
    ensures forall x :: x in Reads(Get(Const.CmpModify, k).value) ==> x in MainQueryColumns
  {
    Const.DisplayKeysDistinct();
    CmpModifyKeys();
    var i :| 0 <= i < 7 && Const.CmpModify[i].0 == k;
    GetAt(Const.CmpModify, i);
    if i == 0 {
      AddressReads();
    } else if i == 2 {
      DetailsReads();
    } else {
      MinMaxReads(i);
    }
  }

  lemma AddressReads()
    ensures Const.CmpModify[0].1 == Address
    ensures forall x :: x in Reads(Address) ==> x in MainQueryColumns
  {
    TemplateKeysCols(Address.pieces);
  }

  lemma DetailsReads()
    ensures forall x :: x in Reads(Const.CmpModify[2].1) ==> x in MainQueryColumns
  {
    var m := Const.CmpModify[2].1;
    assert m.pieces == [Lit("<a hx-get='/comparisons/"), Col("id"), Lit("/"), Col("ppt_type"),
                        Lit("' hx-target='#dialog' hx-swap='innerHTML'>" + "Details" + "</a>")];
    TemplateKeysCols(m.pieces);
  }

  lemma MinMaxReads(i: nat)
    requires i < 7 && i != 0 && i != 2
    ensures forall x :: x in Reads(Const.CmpModify[i].1) ==> x in MainQueryColumns
  {
    var n := [0, 0, 0, 1, 2, 3, 4][i];
    var k := ["", "flr_capacity", "", "available", "height", "energy", "width"][i];
    assert Const.CmpModify[i].1 == MinMax(k);
    assert MinKey(k) == MainQueryColumns[10 + 2 * n] && MaxKey(k) == MainQueryColumns[11 + 2 * n];
  }

  /** On any non-empty result of the main.py query the shaping succeeds: the displays
      read only query columns, and every selected row is a query column or a display. */
  lemma MainTablesSucceed(q: seq<Row>)
    requires Uniform(q) && q != []
    requires forall k :: k in MainQueryColumns ==> k in q[0]
    ensures MainTablesOf(q).Ok?
  {
    ShapedColumns(q);
    SelectionsOk(ModifyAll(FromRows(q), Keys(Const.CmpModify), Const.CmpModify).value);
  }

  /** The display loop succeeds on such a result and leaves the query columns and the
      display columns in the frame. */
  lemma ShapedColumns(q: seq<Row>)
    requires Uniform(q) && q != []
    requires forall k :: k in MainQueryColumns ==> k in q[0]
    ensures var g := ModifyAll(FromRows(q), Keys(Const.CmpModify), Const.CmpModify);
            && g.Ok? && Wf(g.value)
            && (forall k :: k in MainQueryColumns ==> k in g.value.cols)
            && (forall k :: k in Keys(Const.CmpModify) ==> k in g.value.cols)
  {
    var f := FromRows(q);
    var ks := Keys(Const.CmpModify);
    forall k | k in ks && Get(Const.CmpModify, k).Some?
      ensures forall x :: x in Reads(Get(Const.CmpModify, k).value) ==> x in f.cols
    {
      CmpModifyReads(k);
    }
    ModifyAllOk(f, ks, Const.CmpModify);
    var g := ModifyAll(f, ks, Const.CmpModify).value;
    CmpModifyKeys();
    assert forall k :: k in ks ==> k in g.cols;
    assert forall k :: k in MainQueryColumns ==> k in g.cols;
  }

  /** Both selections succeed on a frame holding the query and display columns. */
  lemma SelectionsOk(g: Frame)
    requires Wf(g)
    requires forall k :: k in MainQueryColumns ==> k in g.cols
    requires forall k :: k in Keys(Const.CmpModify) ==> k in g.cols
    ensures SelectDict(g, Const.CmpRename()).Ok? && SelectDict(g, Const.ModulesRename()).Ok?
  {
    SelectedRowsAvailable();
  }

  /** The labels of the last five detail rows. */
  lemma MdlLabelsTail()
    ensures |DictValues(Const.MdlRename())| == 15
    ensures DictValues(Const.MdlRename())[10..] == ["Condominio, R$/mes", "IPTU, R$/mes", "Foro, R$/mes",
                                                    "Locac\U{00E3}o, R$/mes", "Total, R$/mes"]
  {
    Const.MdlRenameOrder();
    var v := DictValues(Const.BasicRename + Const.MdlExtra);
    assert v[10..] == DictValues(Const.MdlExtra)[3..];
  }

  lemma CmpRenameDistinct()
    ensures DistinctKeys(Const.CmpRename())
  {
    Const.CmpRenameOrder();
    var d := Const.CmpRename();
    var ks := ["address", "price", "title", "available", "height", "efficiency", "abl", "docks", "flr_capacity"];
    assert Keys(d) == ks;
    forall i, j | 0 <= i < j < |d| ensures d[i].0 != d[j].0 {
      assert d[i].0 == ks[i] && d[j].0 == ks[j];
    }
  }

  /** The two tables are the two selections from the frame the display loop leaves. */
  lemma MainTablesParts(q: seq<Row>)
    requires Uniform(q) && MainTablesOf(q).Ok?
    ensures var g := ModifyAll(FromRows(q), Keys(Const.CmpModify), Const.CmpModify);
            && g.Ok? && |g.value.rows| == |q|
            && SelectDict(g.value, Const.CmpRename()) == Ok(MainTablesOf(q).value.overview)
            && SelectDict(g.value, Const.MdlRename()) == Ok(MainTablesOf(q).value.details)
  {
    Const.ModulesRenameIsMdl();
  }

  /** The overview rows are labelled by `CMP_RENAME`'s values and the detail rows by
      `MDL_RENAME`'s, in dict order, with one column per query row in both; the last
      five detail rows are the cost, rent and total labels. */
  lemma MainTablesLabels(q: seq<Row>)
    requires Uniform(q) && MainTablesOf(q).Ok?
    ensures var t := MainTablesOf(q).value;
            && t.overview.labels == DictValues(Const.CmpRename())
            && t.details.labels == DictValues(Const.MdlRename())
            && |t.overview.cols| == |t.details.cols| == |q|
            && |t.details.labels| == 15
            && t.details.labels[10..] == ["Condominio, R$/mes", "IPTU, R$/mes", "Foro, R$/mes",
                                          "Locac\U{00E3}o, R$/mes", "Total, R$/mes"]
  {
    MainTablesParts(q);
    var g := ModifyAll(FromRows(q), Keys(Const.CmpModify), Const.CmpModify).value;
    CmpRenameDistinct();
    Const.MdlRenameOrder();
    SelectDictLabels(g, Const.CmpRename());
    SelectDictLabels(g, Const.MdlRename());
    MdlLabelsTail();
  }

  /** The fields of the last five detail rows. */
  const DetailTail: seq<string> := ["condominium", "iptu", "foro", "rent", "price"]

  /** Every detail column ends with the query row's own condominium, iptu, foro, rent
      and price: no display rewrites them. */
  lemma MainDetailsTail(q: seq<Row>)
    requires Uniform(q) && MainTablesOf(q).Ok?
    ensures var t := MainTablesOf(q).value;
            && |t.details.cols| == |q|
            && forall j, n :: 0 <= j < |q| && 0 <= n < 5 ==>
                 |t.details.cols[j]| == 15 && DetailTail[n] in q[j]
                 && t.details.cols[j][10 + n] == q[j][DetailTail[n]]
  {
    MainTablesParts(q);
    var f := FromRows(q);
    TailFacts();
    DetailsTail(f, Keys(Const.CmpModify), Const.CmpModify, Const.MdlRename(), MainTablesOf(q).value.details);
  }

  lemma DetailsTail(f: Frame, ks: seq<string>, mods: Dict<string, Modifier>, rn: Dict<string, string>, d: Table)
    requires Wf(f) && ModifyAll(f, ks, mods).Ok?
    requires SelectDict(ModifyAll(f, ks, mods).value, rn) == Ok(d)
    requires |rn| == 15
    requires forall n :: 0 <= n < 5 ==> Keys(rn)[10 + n] == DetailTail[n] && DetailTail[n] !in ks
    ensures |d.cols| == |f.rows| && forall j :: 0 <= j < |f.rows| ==> |d.cols[j]| == 15
    ensures forall j, n :: 0 <= j < |f.rows| && 0 <= n < 5 ==>
              |d.cols[j]| == 15 && DetailTail[n] in f.rows[j] && d.cols[j][10 + n] == f.rows[j][DetailTail[n]]
  {
    forall j, n | 0 <= j < |f.rows| && 0 <= n < 5
      ensures |d.cols[j]| == 15 && DetailTail[n] in f.rows[j] && d.cols[j][10 + n] == f.rows[j][DetailTail[n]]
    {
      var g := ModifyAll(f, ks, mods).value;
      var flds := Keys(rn);
      assert |flds| == 15 && flds[10 + n] == DetailTail[n];
      SelectUntouched(f, ks, mods, flds, ToMap(rn), 10 + n, j);
      assert d.cols[j][10 + n] == f.rows[j][flds[10 + n]];
    }
  }

  lemma TailFacts()
    ensures |Keys(Const.MdlRename())| == 15
    ensures forall n :: 0 <= n < 5 ==> Keys(Const.MdlRename())[10 + n] == DetailTail[n]
    ensures forall n :: 0 <= n < 5 ==> DetailTail[n] !in Keys(Const.CmpModify)
  {
    Const.MdlRenameTail();
    assert Keys(Const.MdlRename())[10..] == DetailTail;
    CmpModifyKeys();
    TailUnmodified();
  }

  /** No cost or price row has a display. */
  lemma TailUnmodified()
    ensures forall n :: 0 <= n < 5 ==>
              DetailTail[n] !in ["address", "flr_capacity", "details", "available", "height", "energy", "width"]
  {
  }
}
