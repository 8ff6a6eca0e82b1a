/**
 * The constant tables: role labels, property-type labels, the display modifier
 * dictionaries, the rename dictionaries whose key order is the order of a table's
 * rows, the cost labels and the page geometry of the report.
 */
module Const {
  import opened Wrappers
  import opened Dicts
  import opened Config
  import opened Modifiers
  import opened Text

  // ---------------------------------------------------------------------------
  // Role registers
  // ---------------------------------------------------------------------------

  const SecretaryRegister: Dict<Role, string> :=
    [(Broker, "Corretor"), (Owner, "Propriet\U{00E1}rio"), (User, "Usu\U{00E1}rio")]

  /** `{ADMIN: ..., SECRETARY: ..., **SECRETARY_REGISTER}`. */
  function AdminRegister(): Dict<Role, string>
  {
    Merge([(Admin, "Administrador"), (Secretary, "Secret\U{00E1}ria")], SecretaryRegister)
  }

  /** The admin register lists the two staff roles first and then every role of the
      secretary register, each with the secretary register's label. */
  lemma AdminRegisterExtends()
    ensures Keys(AdminRegister()) == [Admin, Secretary, Broker, Owner, User]
    ensures forall r :: r in Keys(SecretaryRegister) ==>
              Get(AdminRegister(), r) == Get(SecretaryRegister, r)
    ensures Get(AdminRegister(), Admin) == Some("Administrador")
    ensures Get(AdminRegister(), Secretary) == Some("Secret\U{00E1}ria")
  {
    var d: Dict<Role, string> := [(Admin, "Administrador"), (Secretary, "Secret\U{00E1}ria")];
    var e := SecretaryRegister;
    assert Keys(d) == [Admin, Secretary];
    assert Keys(e) == [Broker, Owner, User];
    MergeDisjoint(d, e);
    forall r ensures Get(AdminRegister(), r) == if r in Keys(e) then Get(e, r) else Get(d, r) {
      MergeGet(d, e, r);
    }
  }

  // ---------------------------------------------------------------------------
  // Property types
  // ---------------------------------------------------------------------------

  /** `PPT_TYPE[t]`: the Portuguese label of a property type; any other number is a
      KeyError. */
  function PptTypeLabel(t: int): (r: Result<string>)
    ensures r.Ok? <==> WAREHOUSE <= t <= SHOP
  {
    if t == WAREHOUSE then Ok("Galp\U{00E3}o")
    else if t == LAND then Ok("Terreno")
    else if t == OFFICE then Ok("Escrit\U{00F3}rio")
    else if t == SHOP then Ok("Loja")
    else Err(KeyError("ppt_type"))
  }

  // ---------------------------------------------------------------------------
  // Display modifiers
  // ---------------------------------------------------------------------------

  /** The detail link of a comparison, with the given link text. */
  function DetailsLink(withType: bool, text: string): Modifier
  {
    Template(
      [Lit("<a hx-get='/comparisons/"), Col("id")]
      + (if withType then [Lit("/"), Col("ppt_type")] else [])
      + [Lit("' hx-target='#dialog' hx-swap='innerHTML'>" + text + "</a>")])
  }

  /** `CMP_MODIFY`. */
  const CmpModify: Dict<string, Modifier> := [
    ("address", Address),
    ("flr_capacity", MinMax("flr_capacity")),
    ("details", DetailsLink(true, "Details")),
    ("available", MinMax("available")),
    ("height", MinMax("height")),
    ("energy", MinMax("energy")),
    ("width", MinMax("width"))
  ]

  /** `MODIFICATIONS`: a checkbox named after the row id, then the same entries as
      `CMP_MODIFY` with the Portuguese link text. */
  const Modifications: Dict<string, Modifier> := [
    ("select", Template([Lit("<input type=\"checkbox\" name=\"select_"), Col("id"),
                         Lit("\" value=\""), Col("id"), Lit("\">")])),
    ("address", Address),
    ("flr_capacity", MinMax("flr_capacity")),
    ("details", DetailsLink(true, "Detalhes")),
    ("available", MinMax("available")),
    ("height", MinMax("height")),
    ("energy", MinMax("energy")),
    ("width", MinMax("width"))
  ]

  /** The range fields of both dictionaries. */
  const RangeFlds: seq<string> := ["flr_capacity", "available", "height", "energy", "width"]

  lemma DisplayKeysDistinct()
    ensures DistinctKeys(CmpModify) && DistinctKeys(Modifications)
    ensures Keys(Modifications) == ["select"] + Keys(CmpModify)
  {
  }

  /** Every range entry of `CMP_MODIFY` and `MODIFICATIONS` is the min/max modifier of its
      own field (the lambda `get_min_max_modified` builds), both show the address as
      "{district} - {city}", and `MODIFICATIONS` adds the selection checkbox in front. */
  lemma DisplayDictionaries()
    ensures forall k :: k in RangeFlds ==> Get(CmpModify, k) == Some(MinMax(k))
    ensures forall k :: k in RangeFlds ==> Get(Modifications, k) == Some(MinMax(k))
    ensures Get(CmpModify, "address") == Some(Address) && Get(Modifications, "address") == Some(Address)
    ensures Keys(Modifications) == ["select"] + Keys(CmpModify)
  {
    DisplayKeysDistinct();
    GetAt(CmpModify, 0);
    GetAt(Modifications, 1);
    forall k | k in RangeFlds
      ensures Get(CmpModify, k) == Some(MinMax(k)) && Get(Modifications, k) == Some(MinMax(k))
    {
      var i :| 0 <= i < |RangeFlds| && RangeFlds[i] == k;
      var j := [1, 3, 4, 5, 6][i];
      assert CmpModify[j] == (k, MinMax(k));
      assert Modifications[j + 1] == (k, MinMax(k));
      GetAt(CmpModify, j);
      GetAt(Modifications, j + 1);
    }
  }

  // ---------------------------------------------------------------------------
  // Rename dictionaries: the key order is the row order of the table they select
  // ---------------------------------------------------------------------------

  const BasicRename: Dict<string, string> := [
    ("title", "Ref."),
    ("available", "Dispon\U{00ED}vel"),
    ("height", "P\U{00E9} direito, m"),
    ("efficiency", "Efici\U{00EA}ncia logistica, %"),
    ("abl", "ABL, m2"),
    ("docks", "Docas"),
    ("flr_capacity", "Piso, ton/m2")
  ]

  const MdlExtra: Dict<string, string> := [
    ("office_area", "Escrit\U{00F3}rio / Mezanino, m2"),
    ("energy", "Capacidade El\U{00E9}trica, kVa"),
    ("width", "Entre pilares, m"),
    ("condominium", "Condominio, R$/mes"),
    ("iptu", "IPTU, R$/mes"),
    ("foro", "Foro, R$/mes"),
    ("rent", "Locac\U{00E3}o, R$/mes"),
    ("price", "Total, R$/mes")
  ]

  /** `MDL_RENAME = {**BASIC_RENAME, ...}`. */
  function MdlRename(): Dict<string, string> { Merge(BasicRename, MdlExtra) }

  /** `CMP_RENAME = {'address': ..., 'price': ..., **BASIC_RENAME}`. */
  function CmpRename(): Dict<string, string>
  {
    Merge([("address", "Bairro"), ("price", "Total, R$/mes")], BasicRename)
  }

  /** `FLDS_RENAME['comparisons']`. */
  function ComparisonsRename(): Dict<string, string>
  {
    Merge([("select", "Selecionados"), ("details", "Detalhes"), ("address", "Bairro"),
           ("price", "Total, R$/mes")], BasicRename)
  }

  /** `FLDS_RENAME['modules']`, a copy of `MDL_RENAME`. */
  function ModulesRename(): Dict<string, string> { Merge([], MdlRename()) }

  /** `FLDS_RENAME['properties']`. */
  function PropertiesRename(): Dict<string, string>
  {
    Merge([("select", "Selecionados")], MdlRename())
  }

  const BasicKeys: seq<string> :=
    ["title", "available", "height", "efficiency", "abl", "docks", "flr_capacity"]

  lemma RenameFacts()
    ensures Keys(BasicRename) == BasicKeys && DistinctKeys(BasicRename)
    ensures DistinctKeys(MdlExtra)
    ensures Keys(MdlExtra) == ["office_area", "energy", "width", "condominium", "iptu", "foro", "rent", "price"]
    ensures forall i :: 0 <= i < |MdlExtra| ==> MdlExtra[i].0 !in BasicKeys
    ensures forall k :: k in BasicKeys ==> k !in ["address", "price"]
    ensures forall k :: k in BasicKeys ==> k !in ["select", "details", "address", "price"]
  {
  }

  /** The module table shows the seven basic rows, then the other eight, ending with
      condominium, iptu, foro, rent and price. */
  lemma MdlRenameOrder()
    ensures Keys(MdlRename()) == BasicKeys + ["office_area", "energy", "width",
                                              "condominium", "iptu", "foro", "rent", "price"]
    ensures MdlRename() == BasicRename + MdlExtra && DistinctKeys(MdlRename())
  {
    RenameFacts();
    assert forall i :: 0 <= i < |MdlExtra| ==> MdlExtra[i].0 !in Keys(BasicRename);
    MergeDisjoint(BasicRename, MdlExtra);
    DistinctConcat(BasicRename, MdlExtra);
  }

  /** `MDL_RENAME` has 15 keys and its last five are the cost and price rows. */
  lemma MdlRenameTail()
    ensures |Keys(MdlRename())| == 15
    ensures Keys(MdlRename())[10..] == ["condominium", "iptu", "foro", "rent", "price"]
  {
    MdlRenameOrder();
  }

  /** The overview table shows address and price, then the basic rows. */
  lemma CmpRenameOrder()
    ensures Keys(CmpRename()) == ["address", "price"] + BasicKeys
  {
    RenameFacts();
    var d := [("address", "Bairro"), ("price", "Total, R$/mes")];
    assert Keys(d) == ["address", "price"];
    MergeDisjoint(d, BasicRename);
  }

  /** The comparison table shows select, details, address, price, then the basic rows. */
  lemma ComparisonsRenameOrder()
    ensures Keys(ComparisonsRename()) == ["select", "details", "address", "price"] + BasicKeys
  {
    RenameFacts();
    var d := [("select", "Selecionados"), ("details", "Detalhes"), ("address", "Bairro"),
              ("price", "Total, R$/mes")];
    assert Keys(d) == ["select", "details", "address", "price"];
    MergeDisjoint(d, BasicRename);
  }

  /** The modules entry is `MDL_RENAME` itself. */
  lemma ModulesRenameIsMdl()
    ensures ModulesRename() == MdlRename()
  {
    MdlRenameOrder();
    MergeDisjoint([], MdlRename());
  }

  /** No module row is the select row. */
  lemma SelectNotMdl()
    ensures "select" !in Keys(MdlRename())
  {
    MdlRenameOrder();
    SelectApart();
  }

  lemma SelectApart()
    ensures "select" !in BasicKeys + ["office_area", "energy", "width", "condominium", "iptu", "foro", "rent", "price"]
  {
  }

  /** The properties entry is the select row followed by `MDL_RENAME`. */
  lemma PropertiesRenameOrder()
    ensures Keys(PropertiesRename()) == ["select"] + Keys(MdlRename())
  {
    var m := MdlRename();
    var d := [("select", "Selecionados")];
    SelectNotMdl();
    assert Keys(d) == ["select"];
    forall i | 0 <= i < |m| ensures m[i].0 !in Keys(d) {
      assert Keys(m)[i] == m[i].0;
    }
    MdlRenameOrder();
    MergeDisjoint(d, m);
  }

  // ---------------------------------------------------------------------------
  // Costs and page geometry
  // ---------------------------------------------------------------------------

  /** `costs_const(price_per)`: the three cost fields, each label ending in the unit. */
  function CostsConst(pricePer: string): (d: Dict<string, string>)
    ensures Keys(d) == ["condominium", "iptu", "foro"]
    ensures forall i :: 0 <= i < |d| ==> EndsWith(d[i].1, "R$/" + pricePer)
  {
    var unit := "R$/" + pricePer;
    var d := [("condominium", "Condominio, " + unit), ("iptu", "IPTU, " + unit),
              ("foro", "Foro, " + unit)];
    assert forall i :: 0 <= i < |d| ==> d[i].1[|d[i].1| - |unit|..] == unit;
    d
  }

  /** The default unit of `costs_const()`. */
  const DefaultPricePer: string := "m2"

  const PAGE_WIDTH: int := 2000
  const PAGE_HEIGHT: int := 1414
  const LR_PADDING: int := 100
  const TOP_PADDING: int := 600

  /** The background and map images of the report pages. */
  const COVER_BGD: string := "assets/backgrounds/cover.jpg"
  const BODY_BGD: string := "assets/backgrounds/body.jpg"
  const ABOUT_BGD: string := "assets/backgrounds/about.jpg"
  const LAST_PAGE_BGD: string := "assets/backgrounds/last_page.jpg"
  const STATIC_MAP_IMAGE: string := "assets/backgrounds/map.jpg"

  /** The width between the side paddings and the y of the top of the content area. */
  lemma Geometry()
    ensures PAGE_WIDTH - 2 * LR_PADDING == 1800
    ensures PAGE_HEIGHT - TOP_PADDING == 814
  {
  }
}
