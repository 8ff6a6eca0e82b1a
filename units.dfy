/**
 * `get_units_tbl` in components.py: the query rows become a DataFrame, the yes/no
 * columns read "Sim"/"Não", the display modifiers rewrite their columns row by row,
 * and the field list is selected, relabelled and transposed into one column per row.
 */
module Units {
  import opened Wrappers
  import opened Values
  import opened Dicts
  import opened Modifiers
  import opened Config
  import opened Fields
  import opened Frames

  /** The columns whose 1/0 become "Sim"/"Não": the warehouse yes/no fields, or only
      under_construction for the other property types. */
  function BoolFlds(s: Settings, pptType: int): seq<string>
  {
    if pptType == WAREHOUSE then s.whBoolFlds else ["under_construction"]
  }

  /** What `get_units_tbl(db_q, ppt_type, ad_type, *flds, for_comparison=...)` returns,
      step by step in the order the code takes them; the first failing step decides
      the error. */
  function UnitsTbl(s: Settings, q: seq<Row>, pptType: int, adType: Option<int>, args: seq<string>,
                    forComparison: bool): Result<Table>
    requires Uniform(q)
  {
    match ReplaceBools(FromRows(q), BoolFlds(s, pptType))
    case Err(e) => Err(e)
    case Ok(f1) =>
      var flds := TblFldsFor(s, pptType, adType, args);
      match ModifyAll(f1, flds, ModificationDict(s, forComparison))
      case Err(e) => Err(e)
      case Ok(f2) =>
        match RenamedFlds(s, Some(pptType), true)
        case Err(e) => Err(e)
        case Ok(rename) => SelectRenamed(f2, flds, rename)
  }

  /** `get_units_tbl`: the bool replacement, the modifier loop over the field list, the
      relabelling loop, then the selection and transposition. */
  method GetUnitsTbl(s: Settings, q: seq<Row>, pptType: int, adType: Option<int>, args: seq<string>,
                     forComparison: bool) returns (r: Result<Table>)
    requires Uniform(q)
    ensures r == UnitsTbl(s, q, pptType, adType, args, forComparison)
  {
    var df := FromRows(q);
    var replaced := ReplaceBools(df, BoolFlds(s, pptType));
    if replaced.Err? {
      return Err(replaced.error);
    }
    df := replaced.value;
    var flds := TblFldsFor(s, pptType, adType, args);
    var mods := ModificationDict(s, forComparison);
    var modified := ApplyModifiers(df, flds, mods);
    if modified.Err? {
      return Err(modified.error);
    }
    var rename := RenamedFldsFor(s, Some(pptType), true);
    if rename.Err? {
      return Err(rename.error);
    }
    r := SelectRenamed(modified.value, flds, rename.value);
  }

  // ---------------------------------------------------------------------------
  // What the shaped table holds
  // ---------------------------------------------------------------------------

  /** The shaped table has one labelled row per entry of the field list, in that order,
      each labelled by the price-per-month rename dict; and one column per query row,
      in query order, holding that row's cell of every field. */
  lemma UnitsTblShape(s: Settings, q: seq<Row>, pptType: int, adType: Option<int>, args: seq<string>,
                      forComparison: bool)
    requires Uniform(q)
    requires UnitsTbl(s, q, pptType, adType, args, forComparison).Ok?
    ensures RenamedFlds(s, Some(pptType), true).Ok?
    ensures var t := UnitsTbl(s, q, pptType, adType, args, forComparison).value;
            var flds := TblFldsFor(s, pptType, adType, args);
            && |t.labels| == |flds| && |t.cols| == |q|
            && (forall i :: 0 <= i < |flds| ==>
                  t.labels[i] == Label(RenamedFlds(s, Some(pptType), true).value, flds[i]))
            && (forall j :: 0 <= j < |q| ==> |t.cols[j]| == |flds|)
  {
  }

  /** Every cell of the shaped table, when no modifier reads a column that another
      modifier rewrites: a field the loop rewrites holds its modifier's text for the
      query row (after the yes/no replacement), a yes/no field holds "Sim"/"Não" for
      1/0 and its value otherwise, and every other field holds the query value. */
  lemma {:induction false} UnitsTblCells(s: Settings, q: seq<Row>, pptType: int, adType: Option<int>,
                                         args: seq<string>, forComparison: bool)
    requires Uniform(q)
    requires NoChaining(TblFldsFor(s, pptType, adType, args), ModificationDict(s, forComparison))
    requires UnitsTbl(s, q, pptType, adType, args, forComparison).Ok?
    ensures var t := UnitsTbl(s, q, pptType, adType, args, forComparison).value;
            var flds := TblFldsFor(s, pptType, adType, args);
            var mods := ModificationDict(s, forComparison);
            var bools := BoolFlds(s, pptType);
            forall j, i :: 0 <= j < |q| && 0 <= i < |flds| ==>
              |t.cols[j]| == |flds| &&
              if Get(mods, flds[i]).Some? then
                Apply(Get(mods, flds[i]).value, ReplaceRow(q[j], bools)).Ok?
                && t.cols[j][i] == Str(Apply(Get(mods, flds[i]).value, ReplaceRow(q[j], bools)).value)
              else
                flds[i] in q[j]
                && t.cols[j][i] == if flds[i] in bools then YesNo(q[j][flds[i]]) else q[j][flds[i]]
  {
    var flds := TblFldsFor(s, pptType, adType, args);
    var mods := ModificationDict(s, forComparison);
    var bools := BoolFlds(s, pptType);
    var f1 := ReplaceBools(FromRows(q), bools).value;
    var f2 := ModifyAll(f1, flds, mods).value;
    var t := UnitsTbl(s, q, pptType, adType, args, forComparison).value;
    ModifyAllRowWise(f1, flds, mods);
    forall j, i | 0 <= j < |q| && 0 <= i < |flds|
      ensures |t.cols[j]| == |flds|
      ensures if Get(mods, flds[i]).Some? then
                Apply(Get(mods, flds[i]).value, ReplaceRow(q[j], bools)).Ok?
                && t.cols[j][i] == Str(Apply(Get(mods, flds[i]).value, ReplaceRow(q[j], bools)).value)
              else
                flds[i] in q[j]
                && t.cols[j][i] == if flds[i] in bools then YesNo(q[j][flds[i]]) else q[j][flds[i]]
    {
      var k := flds[i];
      assert f1.rows[j] == ReplaceRow(q[j], bools);
      assert k in f2.cols;
      assert k in f2.rows[j];
      assert t.cols[j][i] == f2.rows[j][k];
      assert Cell(f1.rows[j], k, flds, mods) == Some(f2.rows[j][k]);
    }
  }

  /** The base modifiers are the edit, select, address and details displays, and
      between them they read only ppt_id, id, district and city. */
  lemma BaseModifiersReads(k: string)
    ensures Get(BaseModifiers, k).Some? <==> k in ["edit", "select", "address", "details"]
    ensures Get(BaseModifiers, k).Some? ==>
              forall x :: x in Reads(Get(BaseModifiers, k).value) ==> x in ["ppt_id", "id", "district", "city"]
  {
    BaseModifiersKeys();
    if Get(BaseModifiers, k).Some? {
      var i :| 0 <= i < 4 && BaseModifiers[i].0 == k;
      GetAt(BaseModifiers, i);
      BaseModifierReads(i);
    }
  }

  lemma BaseModifiersKeys()
    ensures Keys(BaseModifiers) == ["edit", "select", "address", "details"]
    ensures DistinctKeys(BaseModifiers)
  {
  }

  lemma BaseModifierReads(i: nat)
    requires i < 4
    ensures forall x :: x in Reads(BaseModifiers[i].1) ==> x in ["ppt_id", "id", "district", "city"]
  {
    TemplateKeysCols(BaseModifiers[i].1.pieces);
  }

  /** The modifiers of a units table never read a column that another modifier
      rewrites, provided no WH_MD_FLDS field is one of the columns the base modifiers
      read and no min/max column is itself a WH_MD_FLDS field. */
  lemma ModificationDictNoChaining(s: Settings, ks: seq<string>, forComparison: bool)
    requires Distinct(s.whMdFlds)
    requires forall k :: k in s.whMdFlds ==>
               k !in ["ppt_id", "id", "district", "city"] && MinKey(k) !in s.whMdFlds && MaxKey(k) !in s.whMdFlds
    ensures NoChaining(ks, ModificationDict(s, forComparison))
  {
    var mods := ModificationDict(s, forComparison);
    forall k, x | Rewritten(ks, mods, k) && x in Reads(Get(mods, k).value)
      ensures !Rewritten(ks, mods, x)
    {
      ModificationDictGet(s, forComparison, k);
      ModificationDictGet(s, forComparison, x);
      BaseModifiersReads(k);
      BaseModifiersReads(x);
      if forComparison && k in s.whMdFlds {
        assert x == MinKey(k) || x == MaxKey(k);
        assert x[0] == 'm';
      }
    }
  }

  // ---------------------------------------------------------------------------
  // When the shaping fails
  // ---------------------------------------------------------------------------

  /** An empty query result gives a DataFrame without columns, so the table cannot be
      shaped: either a yes/no column, a modifier or a listed field is missing. */
  lemma UnitsTblEmpty(s: Settings, pptType: int, adType: Option<int>, args: seq<string>, forComparison: bool)
    ensures UnitsTbl(s, [], pptType, adType, args, forComparison).Err?
  {
    var flds := TblFldsFor(s, pptType, adType, args);
    assert flds[|args|] == "title";
  }

  /** For every type but warehouses the yes/no step reads under_construction: query
      rows without that column make the shaping fail with KeyError on it. */
  lemma UnitsTblNeedsUnderConstruction(s: Settings, q: seq<Row>, pptType: int, adType: Option<int>,
                                       args: seq<string>, forComparison: bool)
    requires Uniform(q) && q != [] && pptType != WAREHOUSE
    ensures UnitsTbl(s, q, pptType, adType, args, forComparison).Ok? ==> "under_construction" in q[0]
    ensures "under_construction" !in q[0] ==>
              UnitsTbl(s, q, pptType, adType, args, forComparison) == Err(KeyError("under_construction"))
  {
  }
}
