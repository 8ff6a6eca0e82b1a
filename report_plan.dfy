/**
 * The page plan of the site-selection report (`create_pdf` in components.py and in
 * main.py): the drawing calls, bookmarks and outline entries the canvas receives, as
 * functions of the shaped tables, the map markers and the image query rows.
 */
module ReportPlan {
  import opened Wrappers
  import opened Text
  import opened Values
  import opened Frames
  import opened Pdf
  import Const

  /** The name of the form holding the body background. */
  const BG: string := "background_form"
  const FONT: string := "Poppins"

  /** Every column of a transposed table has one cell per row label. */
  predicate TableWf(t: Table)
  {
    forall j :: 0 <= j < |t.cols| ==> |t.cols[j]| == |t.labels|
  }

  /** The y of the top of the content area: PAGE_HEIGHT - TOP_PADDING. */
  function Top(): int { Const.PAGE_HEIGHT - Const.TOP_PADDING }

  /** A full-page background image. */
  function Background(path: string): Op
  {
    Image(path, 0, 0, Const.PAGE_WIDTH, Const.PAGE_HEIGHT)
  }

  // ---------------------------------------------------------------------------
  // Cover, about and last pages
  // ---------------------------------------------------------------------------

  function CoverPage(): seq<Op>
  {
    [Background(Const.COVER_BGD), Font(FONT, 60), Fill("white"),
     Text(Const.LR_PADDING, Const.TOP_PADDING, "Opções para locação"),
     Text(Const.LR_PADDING, Const.TOP_PADDING - 60, "Limeira e região")]
  }

  function AboutPage(): seq<Op> { [Background(Const.ABOUT_BGD)] }

  function LastPage(): seq<Op> { [Background(Const.LAST_PAGE_BGD)] }

  // ---------------------------------------------------------------------------
  // The map page
  // ---------------------------------------------------------------------------

  /** A map marker: its number and the latitude and longitude of its location. */
  datatype Marker = Marker(index: int, lat: Value, lng: Value)

  function MarkerLabel(m: Marker): string { "Imóvel_" + Fmt02(m.index) }

  function MarkerUrl(m: Marker): string
  {
    "https://www.google.com/maps?q=" + Show(m.lat) + "," + Show(m.lng)
  }

  /** `locations_list`: the label and the URL of each marker. */
  function MapItems(ms: seq<Marker>): seq<(string, string)>
  {
    seq(|ms|, k requires 0 <= k < |ms| => (MarkerLabel(ms[k]), MarkerUrl(ms[k])))
  }

  /** The label and the URL link of the k-th item (counting from 1), 250 points apart. */
  function MapLink(k: int, item: (string, string)): seq<Op>
  {
    var x := 400 + k * 250;
    [Text(x, 150, item.0), UrlLink(item.1, Rect(x, 150, x + 250, 190))]
  }

  function MapLinks(items: seq<(string, string)>): (ops: seq<Op>)
    ensures |ops| == 2 * |items|
  {
    if items == [] then [] else MapLinks(items[..|items| - 1]) + MapLink(|items|, items[|items| - 1])
  }

  function MapPage(ms: seq<Marker>): seq<Op>
  {
    [UseForm(BG), Image(Const.STATIC_MAP_IMAGE, 400, 200, 1200, 800), Font(FONT, 40),
     Text(400, 150, "See on map:")] + MapLinks(MapItems(ms))
  }

  // ---------------------------------------------------------------------------
  // The overview page
  // ---------------------------------------------------------------------------

  /** The bookmark key of comparison idx (counting from 0): `f"{idx + 1:02d}"`. */
  function DetailKey(idx: nat): string { Pad2(idx + 1) }

  /** The width of each of the n + 1 overview columns (the row labels and one per
      comparison). Python computes it in floating point; here it is exact. */
  function ColWidth(n: nat): real
  {
    (Const.PAGE_WIDTH - 2 * Const.LR_PADDING) as real / (n + 1) as real
  }

  /** The link over the header of overview column c, to that comparison's bookmark. */
  function ColLink(n: nat, c: nat): Op
  {
    var w := ColWidth(n);
    var x := Const.LR_PADDING as real + (c + 1) as real * w;
    PageLink(DetailKey(c), Area(x, Top() as real, x + w, (Top() - 40) as real))
  }

  /** The links of the first k of n overview columns. */
  function ColLinks(n: nat, k: nat): (ops: seq<Op>)
    ensures |ops| == k
  {
    if k == 0 then [] else ColLinks(n, k - 1) + [ColLink(n, k - 1)]
  }

  /** The overview table: a header row ("Imóvel", then 01, 02, ...) and one row per
      label with the text of each comparison's cell. */
  function OverviewCells(t: Table): seq<seq<string>>
    requires TableWf(t)
  {
    [["Imóvel"] + seq(|t.cols|, i requires 0 <= i < |t.cols| => DetailKey(i))]
    + seq(|t.labels|, r requires 0 <= r < |t.labels| =>
        [t.labels[r]] + seq(|t.cols|, j requires 0 <= j < |t.cols| => Show(t.cols[j][r])))
  }

  function OverviewPage(t: Table): seq<Op>
    requires TableWf(t)
  {
    [UseForm(BG)] + ColLinks(|t.cols|, |t.cols|)
    + [DrawTable(OverviewCells(t), Const.LR_PADDING, Top())]
  }

  // ---------------------------------------------------------------------------
  // The two pages of each comparison
  // ---------------------------------------------------------------------------

  /** `tbl[idx].reset_index().values.tolist()`: one (label, cell) pair per row. */
  function ColumnData(t: Table, j: nat): seq<seq<string>>
    requires TableWf(t) && j < |t.cols|
  {
    seq(|t.labels|, i requires 0 <= i < |t.labels| => [t.labels[i], Show(t.cols[j][i])])
  }

  /** What the image query returns for one comparison, split on commas. */
  datatype Lists = Lists(img: seq<string>, infr: seq<string>)

  /** `row[k].split(",")`: a missing column is a KeyError and a NULL (or any value
      that is not text) has no `split`. */
  function SplitField(row: Row, k: string): (r: Result<seq<string>>)
    ensures r.Ok? <==> k in row && row[k].Str?
    ensures r.Ok? ==> r.value == Split(row[k].s, ",") && |r.value| >= 1
  {
    if k !in row then Err(KeyError(k))
    else match row[k]
      case Str(s) => Ok(Split(s, ","))
      case _ => Err(AttributeError("split"))
  }

  /** `db_imgs[idx]["img"].split(",")` then `db_imgs[idx]["infr"].split(",")`. */
  function SpreadLists(imgs: seq<Row>, idx: nat): Result<Lists>
  {
    if idx >= |imgs| then Err(IndexError)
    else
      match SplitField(imgs[idx], "img")
      case Err(e) => Err(e)
      case Ok(img) =>
        match SplitField(imgs[idx], "infr")
        case Err(e) => Err(e)
        case Ok(infr) => Ok(Lists(img, infr))
  }

  /** The lists of the first n comparisons, or the error of the first that fails. */
  function AllLists(imgs: seq<Row>, n: nat): (r: Result<seq<Lists>>)
    ensures r.Ok? <==> forall i :: 0 <= i < n ==> SpreadLists(imgs, i).Ok?
    ensures r.Ok? ==> |r.value| == n && forall i :: 0 <= i < n ==> SpreadLists(imgs, i) == Ok(r.value[i])
    ensures r.Err? ==> exists i :: 0 <= i < n && SpreadLists(imgs, i) == Err(r.error)
                                   && forall i' :: 0 <= i' < i ==> SpreadLists(imgs, i').Ok?
  {
    if n == 0 then Ok([])
    else
      match AllLists(imgs, n - 1)
      case Err(e) => Err(e)
      case Ok(ls) =>
        match SpreadLists(imgs, n - 1)
        case Err(e) => Err(e)
        case Ok(p) => Ok(ls + [p])
  }

  /** The number of images on the second page: `img_list[1]` and `img_list[2]` while
      they exist. */
  function SecondImageCount(img: seq<string>): nat
  {
    if |img| >= 3 then 2 else if |img| >= 1 then |img| - 1 else 0
  }

  /** Image i (counting from 1) goes 330 points lower than the one before. */
  function SecondImage(img: seq<string>, i: nat): Op
    requires i < |img|
  {
    Image(DropFirst(img[i]), Const.LR_PADDING, Top() - 330 * i, 700, 300)
  }

  /** The first k images of the second page. */
  function SecondImages(img: seq<string>, k: nat): (ops: seq<Op>)
    requires k <= SecondImageCount(img)
    ensures |ops| == k
  {
    if k == 0 then [] else SecondImages(img, k - 1) + [SecondImage(img, k)]
  }

  /** The infrastructure table: a heading, then one bullet per entry. */
  function InfrCells(infr: seq<string>): seq<seq<string>>
  {
    [["Infraestrutura:"]] + seq(|infr|, i requires 0 <= i < |infr| => ["•  " + infr[i]])
  }

  /** The first page of comparison idx: its title, its rows but the last five at the top
      left, the last five at the right, and its first image below them. */
  function FirstSpreadPage(t: Table, idx: nat, img: seq<string>): seq<Op>
    requires TableWf(t) && idx < |t.cols|
  {
    var cd := ColumnData(t, idx);
    var x2 := Const.LR_PADDING + 1000;
    [UseForm(BG), Font(FONT, 40),
     Text(Const.LR_PADDING, Top() + 100, "Imóvel " + DetailKey(idx)),
     DrawTable(SliceTo(cd, -5), Const.LR_PADDING, Top()),
     DrawTable(SliceFrom(cd, -5), x2, Top() - 300)]
    + (if img != [] then [Image(DropFirst(img[0]), x2, Top() - 300, 700, 300)] else [])
  }

  /** The second page of a comparison: up to two more images and the infrastructure list. */
  function SecondSpreadPage(l: Lists): seq<Op>
  {
    [UseForm(BG)] + SecondImages(l.img, SecondImageCount(l.img))
    + [DrawTable(InfrCells(l.infr), Const.PAGE_WIDTH / 2, Top())]
  }

  /** The pages of the first |ls| comparisons, two each. */
  function Spreads(t: Table, ls: seq<Lists>): (pages: seq<seq<Op>>)
    requires TableWf(t) && |ls| <= |t.cols|
    ensures |pages| == 2 * |ls|
  {
    if ls == [] then []
    else
      var idx := |ls| - 1;
      Spreads(t, ls[..idx]) + [FirstSpreadPage(t, idx, ls[idx].img), SecondSpreadPage(ls[idx])]
  }

  // ---------------------------------------------------------------------------
  // The whole document
  // ---------------------------------------------------------------------------

  /** The bookmarks of the first four pages. */
  function FixedMarks(): map<string, nat>
  {
    map["first_page" := 0, "about_page" := 1, "map_page" := 2, "table_page" := 3]
  }

  /** The bookmarks after the first n comparisons: each names the first of its pages. */
  function DetailMarks(n: nat): map<string, nat>
  {
    if n == 0 then FixedMarks() else DetailMarks(n - 1)[DetailKey(n - 1) := 4 + 2 * (n - 1)]
  }

  function Bookmarks(n: nat): map<string, nat>
  {
    DetailMarks(n)["last_page" := 4 + 2 * n]
  }

  function FixedEntries(): seq<Entry>
  {
    [Entry("Cover", "first_page", 0), Entry("About", "about_page", 0),
     Entry("Map and Locations", "map_page", 0), Entry("Table Overview", "table_page", 0)]
  }

  function DetailEntry(idx: nat): Entry
  {
    Entry("Details for Column " + IntToString(idx + 1), DetailKey(idx), 1)
  }

  function DetailEntries(n: nat): (es: seq<Entry>)
    ensures |es| == n
  {
    if n == 0 then [] else DetailEntries(n - 1) + [DetailEntry(n - 1)]
  }

  function Outline(n: nat): seq<Entry>
  {
    FixedEntries() + DetailEntries(n) + [Entry("Last Page", "last_page", 0)]
  }

  /** The pages, in order. */
  function Pages(ov: Table, dt: Table, ms: seq<Marker>, ls: seq<Lists>): seq<seq<Op>>
    requires TableWf(ov) && TableWf(dt) && |ls| == |dt.cols|
  {
    [CoverPage(), AboutPage(), MapPage(ms), OverviewPage(ov)] + Spreads(dt, ls) + [LastPage()]
  }

  /** What a saved report holds. */
  datatype Report = Report(pages: seq<seq<Op>>, bookmarks: map<string, nat>, outline: seq<Entry>)

  /** The report drawn from an overview table, a detail table, the map markers and the
      image query rows; it fails, unsaved, at the first comparison whose image row is
      missing or holds no text. */
  function ReportOf(ov: Table, dt: Table, ms: seq<Marker>, imgs: seq<Row>): Result<Report>
    requires TableWf(ov) && TableWf(dt)
  {
    match AllLists(imgs, |dt.cols|)
    case Err(e) => Err(e)
    case Ok(ls) => Ok(Report(Pages(ov, dt, ms, ls), Bookmarks(|dt.cols|), Outline(|dt.cols|)))
  }
}
