/**
 * The two `create_pdf` entry points. The one in main.py shapes the query rows itself
 * (the `CMP_MODIFY` displays, then an overview table and a detail table); the one in
 * components.py takes the table and the locations from `get_cmp_for` and uses that one
 * table for the overview and for the detail pages. Both then lay out the same document.
 */
module CreatePdf {
  import opened Wrappers
  import opened Text
  import opened Values
  import opened Config
  import opened Frames
  import opened Pdf
  import opened ReportPlan
  import opened ReportDraw
  import opened ReportProps
  import opened CmpQuery
  import opened MainTables
  import opened Units

  /** The map markers of the locations. The `lat` and `lng` lookups in a parsed
      location are not modelled: `geo` is what they give for it. */
  function Markers<J>(locs: seq<Location<J>>, geo: J -> (Value, Value)): (ms: seq<Marker>)
    ensures |ms| == |locs|
    ensures forall k :: 0 <= k < |locs| ==> ms[k].index == locs[k].index
  {
    seq(|locs|, k requires 0 <= k < |locs| =>
      Marker(locs[k].index, geo(locs[k].location).0, geo(locs[k].location).1))
  }

  // ---------------------------------------------------------------------------
  // main.py
  // ---------------------------------------------------------------------------

  /** Both shaped tables have a cell in every column for every row label. */
  lemma MainTablesWf(q: seq<Row>)
    requires Uniform(q) && MainTablesOf(q).Ok?
    ensures TableWf(MainTablesOf(q).value.overview) && TableWf(MainTablesOf(q).value.details)
  {
    MainTablesParts(q);
  }

  /** The report of main.py's `create_pdf` for the rows of the comparison query `q` and
      of the image query `imgs`: the locations are read first, then the tables are
      shaped, then the pages are drawn. */
  function MainReportOf<J>(q: seq<Row>, imgs: seq<Row>, loads: string -> Option<J>, geo: J -> (Value, Value))
    : Result<Report>
    requires Uniform(q)
  {
    match Locations(q, loads)
    case Err(e) => Err(e)
    case Ok(locs) =>
      match MainTablesOf(q)
      case Err(e) => Err(e)
      case Ok(t) =>
        MainTablesWf(q);
        ReportOf(t.overview, t.details, Markers(locs, geo), imgs)
  }

  /** `create_pdf(cmp_ids, output_pdf, ppt_type)` in main.py, given what the two queries
      return. No canvas is made when the locations or the shaping fail. */
  method MainCreatePdf<J>(q: seq<Row>, imgs: seq<Row>, loads: string -> Option<J>, geo: J -> (Value, Value))
    returns (c: Canvas?, r: Result<Report>)
    requires Uniform(q)
    ensures r == MainReportOf(q, imgs, loads, geo)
    ensures r.Ok? ==> c != null && c.saved && c.pages == r.value.pages && c.bookmarks == r.value.bookmarks
                      && c.outline == r.value.outline
    ensures c != null && r.Err? ==> !c.saved
  {
    var locations := Locations(q, loads);
    if locations.Err? {
      return null, Err(locations.error);
    }
    var tbls := ShapeMainTables(q);
    if tbls.Err? {
      return null, Err(tbls.error);
    }
    MainTablesWf(q);
    var ms := Markers(locations.value, geo);
    c, r := Layout(tbls.value.overview, tbls.value.details, ms, imgs);
  }

  /** The labels of the last five detail rows under `MDL_RENAME`. */
  const TailLabels: seq<string> :=
    ["Condominio, R$/mes", "IPTU, R$/mes", "Foro, R$/mes", "Locac\U{00E3}o, R$/mes", "Total, R$/mes"]

  /** In main.py's report, the right-hand table on the first page of comparison j
      holds exactly the five cost rows, each with the query row's own value: the
      condominium, the IPTU, the foro, the rent and the total price. The left-hand
      table holds the ten rows before them. */
  lemma MainSpreadCosts<J>(q: seq<Row>, imgs: seq<Row>, loads: string -> Option<J>, geo: J -> (Value, Value))
    requires Uniform(q) && MainReportOf(q, imgs, loads, geo).Ok?
    ensures var p := MainReportOf(q, imgs, loads, geo).value.pages;
            && |p| == 5 + 2 * |q|
            && forall j :: 0 <= j < |q| ==>
                 && |p[4 + 2 * j]| > 4 && p[4 + 2 * j][3].DrawTable? && p[4 + 2 * j][4].DrawTable?
                 && |p[4 + 2 * j][3].cells| == 10 && |p[4 + 2 * j][4].cells| == 5
                 && forall n :: 0 <= n < 5 ==>
                      DetailTail[n] in q[j]
                      && p[4 + 2 * j][4].cells[n] == [TailLabels[n], Show(q[j][DetailTail[n]])]
  {
    var t := MainTablesOf(q).value;
    MainTablesWf(q);
    MainTablesLabels(q);
    MainDetailsTail(q);
    var ms := Markers(Locations(q, loads).value, geo);
    var ls := AllLists(imgs, |t.details.cols|).value;
    PagesAt(t.overview, t.details, ms, ls);
    forall j | 0 <= j < |q|
      ensures && |Pages(t.overview, t.details, ms, ls)[4 + 2 * j]| > 4
              && Pages(t.overview, t.details, ms, ls)[4 + 2 * j][3].DrawTable?
              && Pages(t.overview, t.details, ms, ls)[4 + 2 * j][4].DrawTable?
              && |Pages(t.overview, t.details, ms, ls)[4 + 2 * j][3].cells| == 10
              && |Pages(t.overview, t.details, ms, ls)[4 + 2 * j][4].cells| == 5
              && forall n :: 0 <= n < 5 ==>
                   DetailTail[n] in q[j]
                   && Pages(t.overview, t.details, ms, ls)[4 + 2 * j][4].cells[n]
                      == [TailLabels[n], Show(q[j][DetailTail[n]])]
    {
      SpreadCosts(t.details, j, ls[j].img, q[j]);
    }
  }

  /** MainSpreadCosts for one detail column whose last five cells are the row's costs. */
  lemma SpreadCosts(d: Table, j: nat, img: seq<string>, row: Row)
    requires TableWf(d) && j < |d.cols| && |d.labels| == 15 && d.labels[10..] == TailLabels
    requires forall n :: 0 <= n < 5 ==> DetailTail[n] in row && d.cols[j][10 + n] == row[DetailTail[n]]
    ensures var p := FirstSpreadPage(d, j, img);
            && |p| > 4 && p[3].DrawTable? && p[4].DrawTable?
            && |p[3].cells| == 10 && |p[4].cells| == 5
            && forall n :: 0 <= n < 5 ==>
                 DetailTail[n] in row && p[4].cells[n] == [TailLabels[n], Show(row[DetailTail[n]])]
  {
    FirstSpreadTables(d, j, img);
    var p := FirstSpreadPage(d, j, img);
    var cd := ColumnData(d, j);
    forall n | 0 <= n < 5
      ensures p[4].cells[n] == [TailLabels[n], Show(row[DetailTail[n]])]
    {
      assert p[4].cells[n] == cd[10 + n];
      assert d.labels[10 + n] == TailLabels[n];
    }
  }

  // ---------------------------------------------------------------------------
  // components.py
  // ---------------------------------------------------------------------------

  /** The table `get_cmp_for` shapes has a cell in every column for every row label. */
  lemma CmpForWf<J>(s: Settings, data: Form, flds: seq<string>, rows: Query -> seq<Row>, loads: string -> Option<J>)
    requires forall qr :: Uniform(rows(qr))
    requires CmpFor(s, data, flds, rows, loads).Ok?
    ensures TableWf(CmpFor(s, data, flds, rows, loads).value.tbl)
  {
    var pptType := FormInt(data, "ppt_type").value;
    var adType := FormInt(data, "ad_type").value;
    var r := CmpFor(s, data, flds, rows, loads).value;
    UnitsTblShape(s, rows(r.query), pptType, Some(adType), flds, true);
  }

  /** The fields `create_pdf` in components.py asks `get_cmp_for` for. */
  const PdfFlds: seq<string> := ["address", "name"]

  /** The report of components.py's `create_pdf`. The comparison query and the image
      query run in SQLite: `rows` is what the first returns for its WHERE clause and
      parameters, `imgRows` what the second returns for the same WHERE clause and
      parameters, `loads` is `json.loads`. */
  function ComponentsReportOf<J>(s: Settings, data: Form, rows: Query -> seq<Row>, imgRows: Query -> seq<Row>,
                                 loads: string -> Option<J>, geo: J -> (Value, Value)): Result<Report>
    requires forall qr :: Uniform(rows(qr))
  {
    match CmpFor(s, data, PdfFlds, rows, loads)
    case Err(e) => Err(e)
    case Ok(cr) =>
      CmpForWf(s, data, PdfFlds, rows, loads);
      ReportOf(cr.tbl, cr.tbl, Markers(cr.locations, geo), imgRows(cr.query))
  }

  /** `create_pdf(data, output_pdf)` in components.py. */
  method ComponentsCreatePdf<J>(s: Settings, data: Form, rows: Query -> seq<Row>, imgRows: Query -> seq<Row>,
                                loads: string -> Option<J>, geo: J -> (Value, Value))
    returns (c: Canvas?, r: Result<Report>)
    requires forall qr :: Uniform(rows(qr))
    ensures r == ComponentsReportOf(s, data, rows, imgRows, loads, geo)
    ensures r.Ok? ==> c != null && c.saved && c.pages == r.value.pages && c.bookmarks == r.value.bookmarks
                      && c.outline == r.value.outline
    ensures c != null && r.Err? ==> !c.saved
  {
    var cmp := CmpFor(s, data, PdfFlds, rows, loads);
    if cmp.Err? {
      return null, Err(cmp.error);
    }
    CmpForWf(s, data, PdfFlds, rows, loads);
    var tbl, locations := cmp.value.tbl, cmp.value.locations;
    var dbImgs := imgRows(cmp.value.query);
    c, r := Layout(tbl, tbl, Markers(locations, geo), dbImgs);
  }

  /** In components.py's report, map label k reads "Imóvel_" and the same two-digit
      key as overview link k, the bookmark of the first page of comparison k: marker,
      column and detail pages all come from query row k. */
  lemma ComponentsMarkersMatchKeys<J>(s: Settings, data: Form, rows: Query -> seq<Row>, imgRows: Query -> seq<Row>,
                                      loads: string -> Option<J>, geo: J -> (Value, Value))
    requires forall qr :: Uniform(rows(qr))
    requires ComponentsReportOf(s, data, rows, imgRows, loads, geo).Ok?
    ensures var rep := ComponentsReportOf(s, data, rows, imgRows, loads, geo).value;
            var n := |CmpFor(s, data, PdfFlds, rows, loads).value.tbl.cols|;
            && |rep.pages| == 5 + 2 * n && |rep.pages[2]| == 4 + 2 * n
            && forall k :: 0 <= k < n ==>
                 && rep.pages[2][4 + 2 * k] == Text(400 + 250 * (k + 1), 150, "Imóvel_" + DetailKey(k))
                 && DetailKey(k) in rep.bookmarks && rep.bookmarks[DetailKey(k)] == 4 + 2 * k
  {
    var cr := CmpFor(s, data, PdfFlds, rows, loads).value;
    CmpForWf(s, data, PdfFlds, rows, loads);
    CmpForLocations(s, data, PdfFlds, rows, loads);
    var ms := Markers(cr.locations, geo);
    var imgs := imgRows(cr.query);
    var n := |cr.tbl.cols|;
    var ls := AllLists(imgs, n).value;
    OverviewPageOf(cr.tbl, cr.tbl, ms, ls);
    MapPageOf(cr.tbl, cr.tbl, ms, ls);
    MapLinksResolve(ms);
    forall k | 0 <= k < n
      ensures Pages(cr.tbl, cr.tbl, ms, ls)[2][4 + 2 * k] == Text(400 + 250 * (k + 1), 150, "Imóvel_" + DetailKey(k))
      ensures DetailKey(k) in Bookmarks(n) && Bookmarks(n)[DetailKey(k)] == 4 + 2 * k
    {
      assert ms[k].index == k + 1;
      DetailBookmark(n, k);
    }
  }
}
