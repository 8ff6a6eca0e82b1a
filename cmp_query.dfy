/**
 * `get_cmp_for` in components.py: read the property type, ad type and user from the
 * form, choose the WHERE clause and its parameters, and turn the query rows into the
 * comparison table and the list of map locations.
 */
module CmpQuery {
  import opened Wrappers
  import opened Values
  import opened Text
  import opened Sql
  import opened Modifiers
  import opened Config
  import opened Fields
  import opened Frames
  import opened Units
  import Serializer

  /** A submitted form: field name to value (a list when the field was repeated). */
  type Form = map<string, Field>

  /** `int(data[k])`. */
  function FormInt(data: Form, k: string): (r: Result<int>)
    ensures k !in data ==> r == Err(KeyError(k))
    ensures r.Ok? ==> k in data && data[k].One?
  {
    if k !in data then Err(KeyError(k))
    else
      match data[k]
      case Many(_) => Err(TypeError("int() argument must be a string or a number, not 'list'"))
      case One(v) =>
        match v
        case Int(i) => Ok(i)
        case Str(t) => (match ParseInt(t) case Some(i) => Ok(i) case None => Err(ValueError(t)))
        case _ => Err(TypeError("int()"))
  }

  /** A form field holding the decimal text of an integer reads back as that integer. */
  lemma FormIntOfText(data: Form, k: string, i: int)
    requires k in data && data[k] == One(Str(IntToString(i)))
    ensures FormInt(data, k) == Ok(i)
  {
    IntToStringRoundTrip(i);
  }

  /** Iterating a form value: a list gives its elements, a single string its characters. */
  function Elements(f: Field): (r: Result<seq<Value>>)
    ensures f.Many? ==> r == Ok(f.vs)
    ensures f.One? && f.v.Str? ==> r.Ok? && |r.value| == |f.v.s|
  {
    match f
    case Many(vs) => Ok(vs)
    case One(v) =>
      if v.Str? then Ok(seq(|v.s|, i requires 0 <= i < |v.s| => Str([v.s[i]])))
      else Err(TypeError("object is not iterable"))
  }

  /** A WHERE clause and the parameters bound to its placeholders. */
  datatype Query = Query(where: string, params: seq<Value>)

  /** Each text followed by a placeholder. */
  function Marked(texts: seq<string>): string
  {
    if texts == [] then "" else texts[0] + "?" + Marked(texts[1..])
  }

  /** The default filter: the user's comparisons of this ad type and property type
      that are not archived. */
  const FilterWhere: string :=
    Marked(["WHERE cmp.user_id = ", " AND cmp.ad_type = ", " AND NOT cmp.status = ", " AND p.ppt_type = "])

  predicate SelectedGiven(data: Form)
  {
    "selected" in data && FieldTruthy(data["selected"])
  }

  /** The WHERE clause of `get_cmp_for`: the selected comparison ids when the form has
      any, otherwise the 4-parameter filter. */
  function CmpWhere(data: Form, userId: int, adType: int, pptType: int): (r: Result<Query>)
    ensures !SelectedGiven(data) ==>
              r == Ok(Query(FilterWhere, [Int(userId), Int(adType), Int(ARCHIVE), Int(pptType)]))
    ensures SelectedGiven(data) ==>
              (r.Ok? <==> Elements(data["selected"]).Ok?)
              && (r.Ok? ==> r.value.params == Elements(data["selected"]).value
                            && r.value.where == "WHERE cmp.id IN (" + Placeholders(|r.value.params|) + ")")
  {
    if SelectedGiven(data) then
      match Elements(data["selected"])
      case Err(e) => Err(e)
      case Ok(ids) => Ok(Query("WHERE cmp.id IN (" + Placeholders(|ids|) + ")", ids))
    else Ok(Query(FilterWhere, [Int(userId), Int(adType), Int(ARCHIVE), Int(pptType)]))
  }

  /** Whichever clause is chosen, it has exactly one placeholder per parameter. */
  lemma CmpWhereCount(data: Form, userId: int, adType: int, pptType: int)
    requires CmpWhere(data, userId, adType, pptType).Ok?
    ensures var q := CmpWhere(data, userId, adType, pptType).value;
            CountChar(q.where, '?') == |q.params|
  {
    var q := CmpWhere(data, userId, adType, pptType).value;
    if SelectedGiven(data) {
      var n := |q.params|;
      PlaceholdersCount(n);
      CountCharAbsent("WHERE cmp.id IN (", '?');
      CountCharAbsent(")", '?');
      CountCharConcat("WHERE cmp.id IN (", Placeholders(n), '?');
      CountCharConcat("WHERE cmp.id IN (" + Placeholders(n), ")", '?');
    } else {
      FilterWhereCount();
    }
  }

  lemma {:induction false} MarkedCount(texts: seq<string>)
    requires forall i :: 0 <= i < |texts| ==> '?' !in texts[i]
    ensures CountChar(Marked(texts), '?') == |texts|
    decreases |texts|
  {
    if texts != [] {
      MarkedCount(texts[1..]);
      CountCharAbsent(texts[0], '?');
      assert CountChar("?", '?') == 1 by { assert "?"[1..] == ""; }
      CountCharConcat(texts[0], "?", '?');
      CountCharConcat(texts[0] + "?", Marked(texts[1..]), '?');
    }
  }

  lemma FilterWhereCount()
    ensures CountChar(FilterWhere, '?') == 4
  {
    MarkedCount(["WHERE cmp.user_id = ", " AND cmp.ad_type = ", " AND NOT cmp.status = ", " AND p.ppt_type = "]);
  }

  // ---------------------------------------------------------------------------
  // The columns the comparison query returns
  // ---------------------------------------------------------------------------

  /** `MIN(k) AS min_k, MAX(k) AS max_k` for every range field, in order. */
  function MinMaxCols(flds: seq<string>): (cols: seq<string>)
    ensures |cols| == 2 * |flds|
    ensures forall i :: 0 <= i < |flds| ==> cols[2 * i] == MinKey(flds[i]) && cols[2 * i + 1] == MaxKey(flds[i])
  {
    if flds == [] then [] else [MinKey(flds[0]), MaxKey(flds[0])] + MinMaxCols(flds[1..])
  }

  /** The column names of the comparison query, in SELECT order. */
  function QueryColumns(s: Settings, pptType: int, adType: int): seq<string>
  {
    ["id", "name", "ppt_type", "district", "city", "location", "title"]
    + (if adType == SELL then ["sell"] else ["rent", "price"])
    + s.costFlds
    + (if pptType == WAREHOUSE
       then ["efficiency"] + s.whBoolFlds + ["docks", "office_area"] + MinMaxCols(s.whMdFlds)
       else [])
    + ["area"]
  }

  /** For warehouses the query returns every yes/no field and both the min and the max
      column of every range field, which are the columns the min/max displays read. */
  lemma QueryFeedsModifiers(s: Settings, adType: int)
    ensures forall b :: b in s.whBoolFlds ==> b in QueryColumns(s, WAREHOUSE, adType)
    ensures forall k :: k in s.whMdFlds ==>
              forall x :: x in Reads(MinMax(k)) ==> x in QueryColumns(s, WAREHOUSE, adType)
  {
    var cols := QueryColumns(s, WAREHOUSE, adType);
    forall k | k in s.whMdFlds ensures forall x :: x in Reads(MinMax(k)) ==> x in cols {
      var i :| 0 <= i < |s.whMdFlds| && s.whMdFlds[i] == k;
      assert MinMaxCols(s.whMdFlds)[2 * i] == MinKey(k);
      assert MinMaxCols(s.whMdFlds)[2 * i + 1] == MaxKey(k);
    }
  }

  /** The query never returns under_construction for a non-warehouse type unless it is
      one of the cost fields, so the yes/no step of the table shaping fails on every
      non-empty result of such a query. */
  lemma NonWarehouseComparisonFails(s: Settings, q: seq<Row>, pptType: int, adType: int, flds: seq<string>)
    requires Uniform(q) && q != [] && pptType != WAREHOUSE
    requires q[0].Keys == set k | k in QueryColumns(s, pptType, adType)
    requires "under_construction" !in s.costFlds
    ensures UnitsTbl(s, q, pptType, Some(adType), flds, true) == Err(KeyError("under_construction"))
  {
    assert "under_construction" !in q[0];
    UnitsTblNeedsUnderConstruction(s, q, pptType, Some(adType), flds, true);
  }

  // ---------------------------------------------------------------------------
  // get_cmp_for
  // ---------------------------------------------------------------------------

  /** One map marker: its 1-based number and the row's parsed location. */
  datatype Location<J> = Location(index: int, location: J)

  /** `[{"index": i + 1, "location": json.loads(d.get("location"))} for i, d in enumerate(db_q)]`
      from row `i` on: each location is parsed as `Serializer.Location` parses one, and
      the first row whose location does not parse stops the list with its error. */
  function LocationsFrom<J>(q: seq<Row>, i: nat, loads: string -> Option<J>): (r: Result<seq<Location<J>>>)
    requires i <= |q|
    decreases |q| - i
    ensures r.Ok? <==> forall j :: i <= j < |q| ==> Serializer.Location(q[j], loads).Ok?
    ensures r.Ok? ==> |r.value| == |q| - i
                      && forall j :: i <= j < |q| ==>
                           r.value[j - i] == Location(j + 1, Serializer.Location(q[j], loads).value)
    ensures r.Err? ==> exists j :: i <= j < |q| && Serializer.Location(q[j], loads).Err?
                                   && r.error == Serializer.Location(q[j], loads).error
                                   && forall k :: i <= k < j ==> Serializer.Location(q[k], loads).Ok?
  {
    if i == |q| then Ok([])
    else
      match Serializer.Location(q[i], loads)
      case Err(e) => Err(e)
      case Ok(v) =>
        match LocationsFrom(q, i + 1, loads)
        case Err(e) => Err(e)
        case Ok(rest) => Ok([Location(i + 1, v)] + rest)
  }

  /** The locations of all the rows of `q`, numbered from 1. `loads` is `json.loads`. */
  function Locations<J>(q: seq<Row>, loads: string -> Option<J>): (r: Result<seq<Location<J>>>)
    ensures r.Ok? <==> forall j :: 0 <= j < |q| ==> Serializer.Location(q[j], loads).Ok?
    ensures r.Ok? ==> |r.value| == |q|
                      && forall j :: 0 <= j < |q| ==>
                           r.value[j] == Location(j + 1, Serializer.Location(q[j], loads).value)
    ensures r.Err? ==> exists j :: 0 <= j < |q| && Serializer.Location(q[j], loads).Err?
                                   && r.error == Serializer.Location(q[j], loads).error
                                   && forall k :: 0 <= k < j ==> Serializer.Location(q[k], loads).Ok?
  {
    LocationsFrom(q, 0, loads)
  }

  /** What `get_cmp_for` hands on: the query it issued, the shaped table and the map
      locations. */
  datatype CmpResult<J> = CmpResult(query: Query, tbl: Table, locations: seq<Location<J>>)

  /** `get_cmp_for(data, flds)`. The query itself runs in SQLite: `rows` is what it
      returns for `query`, and `loads` is `json.loads`. A property type without a unit table or junction table puts
      "None" in the SQL text, which SQLite rejects. */
  function CmpFor<J>(s: Settings, data: Form, flds: seq<string>, rows: Query -> seq<Row>,
                     loads: string -> Option<J>): Result<CmpResult<J>>
    requires forall qr :: Uniform(rows(qr))
  {
    match FormInt(data, "ppt_type")
    case Err(e) => Err(e)
    case Ok(pptType) =>
      match FormInt(data, "ad_type")
      case Err(e) => Err(e)
      case Ok(adType) =>
        match FormInt(data, "user_id")
        case Err(e) => Err(e)
        case Ok(userId) =>
          match CmpWhere(data, userId, adType, pptType)
          case Err(e) => Err(e)
          case Ok(qr) =>
            if pptType !in s.tableNames || pptType !in s.cmpTables then Err(SqlError("no such table: None"))
            else
              var q := rows(qr);
              match Locations(q, loads)
              case Err(e) => Err(e)
              case Ok(locs) =>
                match UnitsTbl(s, q, pptType, Some(adType), flds, true)
                case Err(e) => Err(e)
                case Ok(t) => Ok(CmpResult(qr, t, locs))
  }

  /** Map marker j and table column j come from the same query row: there are as many
      markers as columns, numbered 1, 2, ... in column order. */
  lemma CmpForLocations<J>(s: Settings, data: Form, flds: seq<string>, rows: Query -> seq<Row>,
                           loads: string -> Option<J>)
    requires forall qr :: Uniform(rows(qr))
    requires CmpFor(s, data, flds, rows, loads).Ok?
    ensures var r := CmpFor(s, data, flds, rows, loads).value;
            && |r.locations| == |r.tbl.cols| == |rows(r.query)|
            && (forall j :: 0 <= j < |r.locations| ==>
                  r.locations[j].index == j + 1 && r.locations[j].location == Serializer.Location(rows(r.query)[j], loads).value)
            && CountChar(r.query.where, '?') == |r.query.params|
  {
    var pptType := FormInt(data, "ppt_type").value;
    var adType := FormInt(data, "ad_type").value;
    var userId := FormInt(data, "user_id").value;
    var r := CmpFor(s, data, flds, rows, loads).value;
    UnitsTblShape(s, rows(r.query), pptType, Some(adType), flds, true);
    CmpWhereCount(data, userId, adType, pptType);
  }
}
