/**
 * Which fields a units or comparison table shows, how they are labelled, and which
 * display modifier rewrites each of them (`get_tbl_flds_for`, `get_renamed_flds_for`,
 * `get_modification_dict` in components.py).
 */
module Fields {
  import opened Wrappers
  import opened Dicts
  import opened Modifiers
  import opened Config
  import Const

  // ---------------------------------------------------------------------------
  // get_tbl_flds_for
  // ---------------------------------------------------------------------------

  /** Python truthiness of the optional ad type: None and 0 are false. */
  predicate AdTruthy(adType: Option<int>)
  {
    adType.Some? && adType.value != 0
  }

  /** The price columns for an ad type. */
  function PriceFlds(adType: Option<int>): seq<string>
  {
    if AdTruthy(adType) then (if adType.value == RENT then ["price", "rent"] else ["sell"])
    else ["sell", "rent"]
  }

  /** Rent ads show the total price and the rent, any other ad type the sale price,
      and no ad type both the sale price and the rent. */
  lemma PriceFldsCases(adType: Option<int>)
    ensures PriceFlds(adType) == ["price", "rent"] <==> adType == Some(RENT)
    ensures PriceFlds(adType) == ["sell"] <==> AdTruthy(adType) && adType.value != RENT
    ensures PriceFlds(adType) == ["sell", "rent"] <==> !AdTruthy(adType)
  {
    assert ["price", "rent"] != ["sell"] && ["price", "rent"] != ["sell", "rent"];
    assert ["sell"] != ["sell", "rent"];
  }

  /** `get_tbl_flds_for(ppt_type, ad_type, *args)`: the extra fields, then title,
      available and area; warehouses continue with efficiency, the price fields, the
      cost, yes/no and range fields and between_pilars; every other type ends with the
      price fields and the cost fields. */
  function TblFldsFor(s: Settings, pptType: int, adType: Option<int>, args: seq<string>): (flds: seq<string>)
    ensures |flds| == |args| + 3 + |PriceFlds(adType)| + |s.costFlds|
              + (if pptType == WAREHOUSE then 2 + |s.whBoolFlds| + |s.whRangeFlds| else 0)
    ensures flds[..|args| + 3] == args + ["title", "available", "area"]
    ensures pptType == WAREHOUSE ==>
              flds[|args| + 3..] == ["efficiency"] + PriceFlds(adType) + s.costFlds
                                    + s.whBoolFlds + s.whRangeFlds + ["between_pilars"]
    ensures pptType != WAREHOUSE ==>
              flds[|args| + 3..] == PriceFlds(adType) + s.costFlds
  {
    var base := args + ["title", "available", "area"];
    var price := PriceFlds(adType);
    if pptType == WAREHOUSE then
      base + ["efficiency"] + price + s.costFlds + s.whBoolFlds + s.whRangeFlds + ["between_pilars"]
    else base + price + s.costFlds
  }

  // ---------------------------------------------------------------------------
  // get_renamed_flds_for
  // ---------------------------------------------------------------------------

  /** The unit appended to price labels. */
  function UnitSuffix(pricePerMonth: bool): string
  {
    if pricePerMonth then "R$/mes" else "R$/m2"
  }

  /** The fields whose label gets the unit: price, the cost fields, the rent/sell fields. */
  function SuffixedKeys(s: Settings): seq<string>
  {
    ["price"] + s.costFlds + s.rentSellFlds
  }

  /** The labels after `d[k] = f"{d[k]}, {add}"` for the first |ks| keys, in order;
      a key that is not in the dict raises KeyError. */
  function AddUnit(d: map<string, string>, ks: seq<string>, add: string): Result<map<string, string>>
    decreases |ks|
  {
    if ks == [] then Ok(d)
    else
      match AddUnit(d, ks[..|ks| - 1], add)
      case Err(e) => Err(e)
      case Ok(d') =>
        var k := ks[|ks| - 1];
        if k !in d' then Err(KeyError(k)) else Ok(d'[k := d'[k] + ", " + add])
  }

  /** The labels before the loop: a copy of RENAME_FLDS, with area relabelled for
      warehouses. */
  function BaseLabels(s: Settings, pptType: Option<int>): map<string, string>
  {
    if pptType == Some(WAREHOUSE) then s.renameFlds["area" := "ABL, m2"] else s.renameFlds
  }

  /** What `get_renamed_flds_for(ppt_type, price_per_month)` returns. */
  function RenamedFlds(s: Settings, pptType: Option<int>, pricePerMonth: bool): Result<map<string, string>>
  {
    AddUnit(BaseLabels(s, pptType), SuffixedKeys(s), UnitSuffix(pricePerMonth))
  }

  /** `get_renamed_flds_for`: copy the label dict, relabel area for warehouses, then
      append the unit to each price, cost and rent/sell label in turn. */
  method RenamedFldsFor(s: Settings, pptType: Option<int>, pricePerMonth: bool)
    returns (r: Result<map<string, string>>)
    ensures r == RenamedFlds(s, pptType, pricePerMonth)
  {
    var d := s.renameFlds;
    if pptType == Some(WAREHOUSE) {
      d := d["area" := "ABL, m2"];
    }
    var add := UnitSuffix(pricePerMonth);
    var ks := SuffixedKeys(s);
    var i := 0;
    while i < |ks|
      invariant 0 <= i <= |ks|
      invariant AddUnit(BaseLabels(s, pptType), ks[..i], add) == Ok(d)
    {
      assert ks[..i + 1][..i] == ks[..i];
      var k := ks[i];
      if k !in d {
        AddUnitStops(BaseLabels(s, pptType), ks, add, i + 1);
        return Err(KeyError(k));
      }
      d := d[k := d[k] + ", " + add];
      i := i + 1;
    }
    assert ks[..|ks|] == ks;
    return Ok(d);
  }

  /** Once a prefix of the keys fails, the whole list fails with the same error. */
  lemma {:induction false} AddUnitStops(d: map<string, string>, ks: seq<string>, add: string, j: nat)
    requires j <= |ks| && AddUnit(d, ks[..j], add).Err?
    ensures AddUnit(d, ks, add) == AddUnit(d, ks[..j], add)
    decreases |ks| - j
  {
    if j < |ks| {
      assert ks[..j + 1][..j] == ks[..j];
      AddUnitStops(d, ks, add, j + 1);
    } else {
      assert ks[..j] == ks;
    }
  }

  /** Appending units fails exactly when some key is missing, keeps the set of keys,
      and, when no key repeats, appends the unit once to each listed label and leaves
      every other label as it was. */
  lemma {:induction false} AddUnitSpec(d: map<string, string>, ks: seq<string>, add: string)
    ensures AddUnit(d, ks, add).Ok? <==> forall k :: k in ks ==> k in d
    ensures AddUnit(d, ks, add).Ok? ==> AddUnit(d, ks, add).value.Keys == d.Keys
    ensures AddUnit(d, ks, add).Ok? && Distinct(ks) ==>
              forall k :: k in d ==>
                AddUnit(d, ks, add).value[k] == if k in ks then d[k] + ", " + add else d[k]
    decreases |ks|
  {
    if ks != [] {
      var p := ks[..|ks| - 1];
      AddUnitSpec(d, p, add);
      assert ks == p + [ks[|ks| - 1]];
      if Distinct(ks) {
        assert Distinct(p);
        assert ks[|ks| - 1] !in p;
      }
    }
  }

  /** What the relabelling promises: it fails only on a listed field with no label;
      otherwise every listed field reads "{label}, {unit}", area reads "ABL, m2" for
      warehouses (unless it is listed), and every other label is the configured one. */
  lemma RenamedFldsSpec(s: Settings, pptType: Option<int>, pricePerMonth: bool)
    ensures RenamedFlds(s, pptType, pricePerMonth).Ok? <==>
              forall k :: k in SuffixedKeys(s) ==> k in s.renameFlds || (k == "area" && pptType == Some(WAREHOUSE))
    ensures var r := RenamedFlds(s, pptType, pricePerMonth);
            r.Ok? && Distinct(SuffixedKeys(s)) ==>
              && r.value.Keys == BaseLabels(s, pptType).Keys
              && (forall k :: k in SuffixedKeys(s) ==> k in BaseLabels(s, pptType))
              && (forall k :: k in SuffixedKeys(s) ==>
                    r.value[k] == BaseLabels(s, pptType)[k] + ", " + UnitSuffix(pricePerMonth))
              && (pptType == Some(WAREHOUSE) && "area" !in SuffixedKeys(s) ==>
                    "area" in r.value && r.value["area"] == "ABL, m2")
              && (forall k :: k in s.renameFlds && k !in SuffixedKeys(s) && (k != "area" || pptType != Some(WAREHOUSE)) ==>
                    r.value[k] == s.renameFlds[k])
  {
    AddUnitSpec(BaseLabels(s, pptType), SuffixedKeys(s), UnitSuffix(pricePerMonth));
  }

  // ---------------------------------------------------------------------------
  // get_modification_dict
  // ---------------------------------------------------------------------------

  /** The four modifiers every units table has: edit link, selection checkbox, address
      and details link. */
  const BaseModifiers: Dict<string, Modifier> := [
    ("edit", Template([Lit("<a hx-get='/ppts/"), Col("ppt_id"), Lit("/units/"), Col("id"),
                       Lit("/edit_frm' hx-target='#dialog' hx-swap='innerHTML'>Editar</a>")])),
    ("select", Template([Lit("<input type=\"checkbox\" name=\"selected\" value=\""), Col("id"),
                         Lit("\">")])),
    ("address", Address),
    ("details", Const.DetailsLink(false, "Details"))
  ]

  /** The min/max modifier of every range field, in the order of the field list. */
  function RangeModifiers(flds: seq<string>): (e: Dict<string, Modifier>)
    ensures Keys(e) == flds
  {
    seq(|flds|, i requires 0 <= i < |flds| => (flds[i], MinMax(flds[i])))
  }

  /** `get_modification_dict(for_comparison)`. */
  function ModificationDict(s: Settings, forComparison: bool): Dict<string, Modifier>
  {
    if forComparison then Merge(BaseModifiers, RangeModifiers(s.whMdFlds)) else BaseModifiers
  }

  /** For comparisons, every WH_MD_FLDS field gets the min/max display of its own field,
      overriding a base modifier of the same name; every other field keeps its base
      modifier (or none). */
  lemma ModificationDictGet(s: Settings, forComparison: bool, k: string)
    requires Distinct(s.whMdFlds)
    ensures Get(ModificationDict(s, forComparison), k)
            == if forComparison && k in s.whMdFlds then Some(MinMax(k)) else Get(BaseModifiers, k)
  {
    if forComparison {
      var e := RangeModifiers(s.whMdFlds);
      assert DistinctKeys(e) by {
        forall i, j | 0 <= i < j < |e| ensures e[i].0 != e[j].0 {
          assert e[i].0 == s.whMdFlds[i] && e[j].0 == s.whMdFlds[j];
        }
      }
      MergeGet(BaseModifiers, e, k);
      if k in s.whMdFlds {
        var i :| 0 <= i < |s.whMdFlds| && s.whMdFlds[i] == k;
        GetAt(e, i);
      }
    }
  }
}
