/**
 * `create_pdf` as the canvas sees it: the drawing steps, in the order the code takes
 * them, proved to leave the canvas holding the page plan of ReportPlan.
 */
module ReportDraw {
  import opened Wrappers
  import opened Text
  import opened Values
  import opened Frames
  import opened Pdf
  import opened ReportPlan
  import Const

  /** The cover: background, title in white, then its bookmark and outline entry. */
  method DrawCover(c: Canvas)
    requires c.current == []
    modifies c
    ensures c.pages == old(c.pages) + [CoverPage()] && c.current == []
    ensures c.bookmarks == old(c.bookmarks)["first_page" := |old(c.pages)|]
    ensures c.outline == old(c.outline) + [Entry("Cover", "first_page", 0)]
    ensures c.forms == old(c.forms) && c.saved == old(c.saved)
  {
    c.Draw(Background(Const.COVER_BGD));
    c.Draw(Font(FONT, 60));
    c.Draw(Fill("white"));
    c.Draw(Text(Const.LR_PADDING, Const.TOP_PADDING, "Opções para locação"));
    c.Draw(Text(Const.LR_PADDING, Const.TOP_PADDING - 60, "Limeira e região"));
    assert c.current == CoverPage();
    c.BookmarkPage("first_page");
    c.AddOutlineEntry("Cover", "first_page", 0);
    c.ShowPage();
  }

  method DrawAbout(c: Canvas)
    requires c.current == []
    modifies c
    ensures c.pages == old(c.pages) + [AboutPage()] && c.current == []
    ensures c.bookmarks == old(c.bookmarks)["about_page" := |old(c.pages)|]
    ensures c.outline == old(c.outline) + [Entry("About", "about_page", 0)]
    ensures c.forms == old(c.forms) && c.saved == old(c.saved)
  {
    c.Draw(Background(Const.ABOUT_BGD));
    assert c.current == AboutPage();
    c.BookmarkPage("about_page");
    c.AddOutlineEntry("About", "about_page", 0);
    c.ShowPage();
  }

  /** The "See on map" labels and links, the k-th (counting from 1) at x = 400 + 250k. */
  method DrawMapLinks(c: Canvas, items: seq<(string, string)>)
    modifies c
    ensures c.current == old(c.current) + MapLinks(items)
    ensures c.pages == old(c.pages) && c.bookmarks == old(c.bookmarks) && c.outline == old(c.outline)
    ensures c.forms == old(c.forms) && c.saved == old(c.saved)
  {
    var y := 150;
    var w := 250;
    ghost var head := c.current;
    var k := 0;
    while k < |items|
      invariant 0 <= k <= |items|
      invariant c.current == head + MapLinks(items[..k])
      invariant c.pages == old(c.pages) && c.bookmarks == old(c.bookmarks) && c.outline == old(c.outline)
      invariant c.forms == old(c.forms) && c.saved == old(c.saved)
    {
      var caption, url := items[k].0, items[k].1;
      var idx := k + 1;
      c.Draw(Text(400 + idx * w, y, caption));
      c.Draw(UrlLink(url, Rect(400 + idx * w, y, 400 + idx * w + w, y + 40)));
      assert items[..k + 1][..k] == items[..k];
      k := k + 1;
    }
    assert items[..k] == items;
  }

  /** The map page: the static map, then one label and one URL link per marker. */
  method DrawMap(c: Canvas, ms: seq<Marker>)
    requires c.current == []
    modifies c
    ensures c.pages == old(c.pages) + [MapPage(ms)] && c.current == []
    ensures c.bookmarks == old(c.bookmarks)["map_page" := |old(c.pages)|]
    ensures c.outline == old(c.outline) + [Entry("Map and Locations", "map_page", 0)]
    ensures c.forms == old(c.forms) && c.saved == old(c.saved)
  {
    c.Draw(UseForm(BG));
    c.Draw(Image(Const.STATIC_MAP_IMAGE, 400, 200, 1200, 800));
    var locationsList := MapItems(ms);
    c.Draw(Font(FONT, 40));
    c.Draw(Text(400, 150, "See on map:"));
    DrawMapLinks(c, locationsList);
    assert c.current == MapPage(ms);
    c.BookmarkPage("map_page");
    c.AddOutlineEntry("Map and Locations", "map_page", 0);
    c.ShowPage();
  }

  /** The links over the headers of the n comparison columns, each colWidth wide. */
  method DrawColLinks(c: Canvas, n: nat, colWidth: real)
    requires colWidth == ColWidth(n)
    modifies c
    ensures c.current == old(c.current) + ColLinks(n, n)
    ensures c.pages == old(c.pages) && c.bookmarks == old(c.bookmarks) && c.outline == old(c.outline)
    ensures c.forms == old(c.forms) && c.saved == old(c.saved)
  {
    var firstColY := Const.PAGE_HEIGHT - Const.TOP_PADDING;
    var colHeight := 40;
    ghost var head := c.current;
    var col := 0;
    while col < n
      invariant 0 <= col <= n
      invariant c.current == head + ColLinks(n, col)
      invariant c.pages == old(c.pages) && c.bookmarks == old(c.bookmarks) && c.outline == old(c.outline)
      invariant c.forms == old(c.forms) && c.saved == old(c.saved)
    {
      var headerNumber := Pad2(col + 1);
      var colX := Const.LR_PADDING as real + (col + 1) as real * colWidth;
      var link := PageLink(headerNumber, Area(colX, firstColY as real, colX + colWidth, (firstColY - colHeight) as real));
      ColLinkDrawn(n, col, colWidth);
      c.Draw(link);
      col := col + 1;
    }
  }

  /** The link DrawColLinks draws over column col is ColLink(n, col). */
  lemma ColLinkDrawn(n: nat, col: nat, colWidth: real)
    requires colWidth == ColWidth(n)
    ensures var colX := Const.LR_PADDING as real + (col + 1) as real * colWidth;
            var firstColY := Const.PAGE_HEIGHT - Const.TOP_PADDING;
            PageLink(Pad2(col + 1), Area(colX, firstColY as real, colX + colWidth, (firstColY - 40) as real))
            == ColLink(n, col)
  {
  }

  /** The overview header has a cell for the row labels and one per comparison. */
  lemma OverviewHeaderWidth(t: Table)
    requires TableWf(t)
    ensures |OverviewCells(t)| == |t.labels| + 1 && |OverviewCells(t)[0]| == |t.cols| + 1
  {
  }

  /** The overview page: a link over the header of each comparison's column, to that
      comparison's bookmark, then the table itself. */
  method DrawOverview(c: Canvas, t: Table)
    requires c.current == [] && TableWf(t)
    modifies c
    ensures c.pages == old(c.pages) + [OverviewPage(t)] && c.current == []
    ensures c.bookmarks == old(c.bookmarks)["table_page" := |old(c.pages)|]
    ensures c.outline == old(c.outline) + [Entry("Table Overview", "table_page", 0)]
    ensures c.forms == old(c.forms) && c.saved == old(c.saved)
  {
    c.Draw(UseForm(BG));
    var data := OverviewCells(t);
    OverviewHeaderWidth(t);
    var availableWidth := Const.PAGE_WIDTH - 2 * Const.LR_PADDING;
    var colWidth := availableWidth as real / |data[0]| as real;
    DrawColLinks(c, |t.cols|, colWidth);
    c.Draw(DrawTable(data, Const.LR_PADDING, Const.PAGE_HEIGHT - Const.TOP_PADDING));
    assert c.current == OverviewPage(t);
    c.BookmarkPage("table_page");
    c.AddOutlineEntry("Table Overview", "table_page", 0);
    c.ShowPage();
  }

  /** The up-to-two images of a comparison's second page: `img_list[1]` and
      `img_list[2]`, stopping at the first index past the end. */
  method DrawSecondImages(c: Canvas, imgList: seq<string>)
    requires |imgList| >= 1
    modifies c
    ensures c.current == old(c.current) + SecondImages(imgList, SecondImageCount(imgList))
    ensures c.pages == old(c.pages) && c.bookmarks == old(c.bookmarks) && c.outline == old(c.outline)
    ensures c.forms == old(c.forms) && c.saved == old(c.saved)
  {
    ghost var head := c.current;
    var i := 1;
    while i < 3
      invariant 1 <= i <= 3 && i - 1 <= SecondImageCount(imgList)
      invariant c.current == head + SecondImages(imgList, i - 1)
      invariant c.pages == old(c.pages) && c.bookmarks == old(c.bookmarks) && c.outline == old(c.outline)
      invariant c.forms == old(c.forms) && c.saved == old(c.saved)
    {
      if i >= |imgList| {
        break;
      }
      c.Draw(Image(DropFirst(imgList[i]), Const.LR_PADDING, Const.PAGE_HEIGHT - Const.TOP_PADDING - 330 * i, 700, 300));
      i := i + 1;
    }
    assert i - 1 == SecondImageCount(imgList);
  }

  /** The title and the two row tables of comparison idx: its rows but the last five,
      then the last five. */
  method DrawSpreadTables(c: Canvas, t: Table, idx: nat)
    requires TableWf(t) && idx < |t.cols|
    modifies c
    ensures c.current == old(c.current) + FirstSpreadPage(t, idx, [])
    ensures c.pages == old(c.pages) && c.bookmarks == old(c.bookmarks) && c.outline == old(c.outline)
    ensures c.forms == old(c.forms) && c.saved == old(c.saved)
  {
    c.Draw(UseForm(BG));
    c.Draw(Font(FONT, 40));
    c.Draw(Text(Const.LR_PADDING, Const.PAGE_HEIGHT - Const.TOP_PADDING + 100, "Imóvel " + Pad2(idx + 1)));
    var columnData := ColumnData(t, idx);
    c.Draw(DrawTable(SliceTo(columnData, -5), Const.LR_PADDING, Const.PAGE_HEIGHT - Const.TOP_PADDING));
    c.Draw(DrawTable(SliceFrom(columnData, -5), Const.LR_PADDING + 1000, Const.PAGE_HEIGHT - Const.TOP_PADDING - 300));
  }

  /** The two pages of comparison idx. The bookmark, the outline entry, the title and
      both row tables come before the image row is read, so a missing row or a NULL
      list stops the report with those calls made and neither page closed. */
  method DrawSpread(c: Canvas, t: Table, idx: nat, imgs: seq<Row>) returns (e: Option<Error>)
    requires c.current == [] && TableWf(t) && idx < |t.cols|
    modifies c
    ensures e == (if SpreadLists(imgs, idx).Ok? then None else Some(SpreadLists(imgs, idx).error))
    ensures e.None? ==> var l := SpreadLists(imgs, idx).value;
                        c.pages == old(c.pages) + [FirstSpreadPage(t, idx, l.img), SecondSpreadPage(l)]
                        && c.current == []
    ensures e.Some? ==> c.pages == old(c.pages)
    ensures c.bookmarks == old(c.bookmarks)[DetailKey(idx) := |old(c.pages)|]
    ensures c.outline == old(c.outline) + [DetailEntry(idx)]
    ensures c.forms == old(c.forms) && c.saved == old(c.saved)
  {
    var headerNumber := Pad2(idx + 1);
    c.BookmarkPage(headerNumber);
    c.AddOutlineEntry("Details for Column " + IntToString(idx + 1), headerNumber, 1);
    DrawSpreadTables(c, t, idx);
    if idx >= |imgs| {
      return Some(IndexError);
    }
    var img := SplitField(imgs[idx], "img");
    if img.Err? {
      return Some(img.error);
    }
    var infr := SplitField(imgs[idx], "infr");
    if infr.Err? {
      return Some(infr.error);
    }
    var imgList, infrList := img.value, infr.value;
    if imgList != [] {
      c.Draw(Image(DropFirst(imgList[0]), Const.LR_PADDING + 1000, Const.PAGE_HEIGHT - Const.TOP_PADDING - 300, 700, 300));
    }
    assert c.current == FirstSpreadPage(t, idx, imgList);
    c.ShowPage();
    c.Draw(UseForm(BG));
    DrawSecondImages(c, imgList);
    c.Draw(DrawTable(InfrCells(infrList), Const.PAGE_WIDTH / 2, Const.PAGE_HEIGHT - Const.TOP_PADDING));
    assert c.current == SecondSpreadPage(Lists(imgList, infrList));
    c.ShowPage();
    return None;
  }

  /** Once the lists of one comparison fail, the lists of every longer prefix fail with
      the same error. */
  lemma {:induction false} AllListsStops(imgs: seq<Row>, k: nat, n: nat)
    requires k <= n && AllLists(imgs, k).Err?
    ensures AllLists(imgs, n) == AllLists(imgs, k)
    decreases n
  {
    if n > k {
      AllListsStops(imgs, k, n - 1);
    }
  }

  /** One more comparison whose lists are read adds its two pages. */
  lemma SpreadsStep(t: Table, imgs: seq<Row>, idx: nat)
    requires TableWf(t) && idx < |t.cols| && AllLists(imgs, idx).Ok? && SpreadLists(imgs, idx).Ok?
    ensures AllLists(imgs, idx + 1).Ok?
    ensures var l := SpreadLists(imgs, idx).value;
            Spreads(t, AllLists(imgs, idx + 1).value)
            == Spreads(t, AllLists(imgs, idx).value) + [FirstSpreadPage(t, idx, l.img), SecondSpreadPage(l)]
  {
    var ls := AllLists(imgs, idx).value;
    var ls' := AllLists(imgs, idx + 1).value;
    assert ls' == ls + [SpreadLists(imgs, idx).value];
    assert ls'[..idx] == ls;
  }

  /** The first comparison whose lists fail decides the error. */
  lemma AllListsFails(imgs: seq<Row>, idx: nat)
    requires AllLists(imgs, idx).Ok? && SpreadLists(imgs, idx).Err?
    ensures AllLists(imgs, idx + 1) == Err(SpreadLists(imgs, idx).error)
  {
  }

  /** The four pages before the comparisons. */
  method DrawFrontPages(c: Canvas, ov: Table, ms: seq<Marker>)
    requires TableWf(ov)
    requires c.pages == [] && c.current == [] && c.bookmarks == map[] && c.outline == [] && c.forms == map[]
    modifies c
    ensures c.pages == [CoverPage(), AboutPage(), MapPage(ms), OverviewPage(ov)] && c.current == []
    ensures c.bookmarks == FixedMarks() && c.outline == FixedEntries()
    ensures c.forms == map[BG := [Background(Const.BODY_BGD)]] && c.saved == old(c.saved)
  {
    DrawCover(c);
    DrawAbout(c);
    c.DefineForm(BG, [Background(Const.BODY_BGD)]);
    DrawMap(c, ms);
    DrawOverview(c, ov);
  }

  lemma DetailMarksNext(idx: nat)
    ensures DetailMarks(idx + 1) == DetailMarks(idx)[DetailKey(idx) := 4 + 2 * idx]
  {
  }

  lemma DetailEntriesNext(idx: nat)
    ensures FixedEntries() + DetailEntries(idx + 1) == FixedEntries() + DetailEntries(idx) + [DetailEntry(idx)]
  {
  }

  /** The canvas holds the front pages and the spreads of the first idx comparisons,
      with their bookmarks and outline entries, and no page in progress. */
  ghost predicate SpreadsDrawn(c: Canvas, front: seq<seq<Op>>, dt: Table, imgs: seq<Row>, idx: nat)
    reads c
  {
    && TableWf(dt) && idx <= |dt.cols| && AllLists(imgs, idx).Ok?
    && c.pages == front + Spreads(dt, AllLists(imgs, idx).value)
    && c.current == []
    && c.bookmarks == DetailMarks(idx)
    && c.outline == FixedEntries() + DetailEntries(idx)
  }

  /** The pages of comparison idx after the four front pages and those of the
      comparisons before it. */
  method DrawNextSpread(c: Canvas, dt: Table, imgs: seq<Row>, idx: nat, ghost front: seq<seq<Op>>)
    returns (e: Option<Error>)
    requires TableWf(dt) && idx < |dt.cols| && |front| == 4 && SpreadsDrawn(c, front, dt, imgs, idx)
    modifies c
    ensures e == (if AllLists(imgs, idx + 1).Ok? then None else Some(AllLists(imgs, idx + 1).error))
    ensures e.None? ==> SpreadsDrawn(c, front, dt, imgs, idx + 1)
    ensures c.forms == old(c.forms) && c.saved == old(c.saved)
  {
    ghost var before := c.pages;
    e := DrawSpread(c, dt, idx, imgs);
    if e.Some? {
      AllListsFails(imgs, idx);
      return;
    }
    SpreadAppended(dt, imgs, idx, front, before, c.pages, c.bookmarks, c.outline);
  }

  /** SpreadsStep behind the four front pages, with the bookmark and outline entry
      DrawSpread adds. */
  lemma SpreadAppended(t: Table, imgs: seq<Row>, idx: nat, front: seq<seq<Op>>, before: seq<seq<Op>>,
                       after: seq<seq<Op>>, marks: map<string, nat>, entries: seq<Entry>)
    requires TableWf(t) && idx < |t.cols| && AllLists(imgs, idx).Ok? && SpreadLists(imgs, idx).Ok?
    requires |front| == 4 && before == front + Spreads(t, AllLists(imgs, idx).value)
    requires var l := SpreadLists(imgs, idx).value;
             after == before + [FirstSpreadPage(t, idx, l.img), SecondSpreadPage(l)]
    requires marks == DetailMarks(idx)[DetailKey(idx) := |before|]
    requires entries == FixedEntries() + DetailEntries(idx) + [DetailEntry(idx)]
    ensures AllLists(imgs, idx + 1).Ok? && after == front + Spreads(t, AllLists(imgs, idx + 1).value)
    ensures marks == DetailMarks(idx + 1) && entries == FixedEntries() + DetailEntries(idx + 1)
  {
    SpreadPagesAppended(t, imgs, idx, front, before, after);
    MarksAppended(idx, |before|, marks);
    DetailEntriesNext(idx);
  }

  /** SpreadsStep behind the four front pages. */
  lemma SpreadPagesAppended(t: Table, imgs: seq<Row>, idx: nat, front: seq<seq<Op>>, before: seq<seq<Op>>,
                            after: seq<seq<Op>>)
    requires TableWf(t) && idx < |t.cols| && AllLists(imgs, idx).Ok? && SpreadLists(imgs, idx).Ok?
    requires |front| == 4 && before == front + Spreads(t, AllLists(imgs, idx).value)
    requires var l := SpreadLists(imgs, idx).value;
             after == before + [FirstSpreadPage(t, idx, l.img), SecondSpreadPage(l)]
    ensures |before| == 4 + 2 * idx
    ensures AllLists(imgs, idx + 1).Ok? && after == front + Spreads(t, AllLists(imgs, idx + 1).value)
  {
    SpreadsStep(t, imgs, idx);
  }

  /** The bookmark DrawSpread adds, on the page after the front pages and the spreads
      before it, extends the bookmarks by comparison idx's. */
  lemma MarksAppended(idx: nat, at: nat, marks: map<string, nat>)
    requires at == 4 + 2 * idx && marks == DetailMarks(idx)[DetailKey(idx) := at]
    ensures marks == DetailMarks(idx + 1)
  {
    DetailMarksNext(idx);
  }

  /** Before the first comparison, the canvas holds only the front pages. */
  lemma NoSpreadsDrawn(c: Canvas, dt: Table, imgs: seq<Row>)
    requires TableWf(dt) && c.current == [] && c.bookmarks == FixedMarks() && c.outline == FixedEntries()
    ensures SpreadsDrawn(c, c.pages, dt, imgs, 0)
  {
    assert FixedEntries() + DetailEntries(0) == FixedEntries();
  }

  /** The pages of every comparison, in column order, stopping at the first whose
      image row cannot be read. */
  method DrawSpreads(c: Canvas, dt: Table, imgs: seq<Row>) returns (e: Option<Error>)
    requires TableWf(dt) && c.current == [] && |c.pages| == 4
    requires c.bookmarks == FixedMarks() && c.outline == FixedEntries()
    modifies c
    ensures e == (if AllLists(imgs, |dt.cols|).Ok? then None else Some(AllLists(imgs, |dt.cols|).error))
    ensures e.None? ==> && c.pages == old(c.pages) + Spreads(dt, AllLists(imgs, |dt.cols|).value)
                        && c.current == []
                        && c.bookmarks == DetailMarks(|dt.cols|)
                        && c.outline == FixedEntries() + DetailEntries(|dt.cols|)
    ensures c.forms == old(c.forms) && c.saved == old(c.saved)
  {
    var n := |dt.cols|;
    var idx := 0;
    ghost var front := c.pages;
    NoSpreadsDrawn(c, dt, imgs);
    while idx < n
      invariant 0 <= idx <= n && SpreadsDrawn(c, front, dt, imgs, idx)
      invariant c.forms == old(c.forms) && c.saved == old(c.saved)
    {
      e := DrawNextSpread(c, dt, imgs, idx, front);
      if e.Some? {
        AllListsStops(imgs, idx + 1, n);
        return;
      }
      idx := idx + 1;
    }
    e := None;
  }

  /** The last page, its bookmark and outline entry, then `save`. */
  method DrawLastPage(c: Canvas)
    requires c.current == []
    modifies c
    ensures c.pages == old(c.pages) + [LastPage()] && c.current == []
    ensures c.bookmarks == old(c.bookmarks)["last_page" := |old(c.pages)|]
    ensures c.outline == old(c.outline) + [Entry("Last Page", "last_page", 0)]
    ensures c.forms == old(c.forms) && c.saved
  {
    c.Draw(Background(Const.LAST_PAGE_BGD));
    assert c.current == LastPage();
    c.BookmarkPage("last_page");
    c.AddOutlineEntry("Last Page", "last_page", 0);
    c.Save();
  }

  /** The whole document, drawn on a new canvas and saved. On success the canvas holds
      the report of the plan; on failure it is left unsaved. */
  method Layout(ov: Table, dt: Table, ms: seq<Marker>, imgs: seq<Row>) returns (c: Canvas, r: Result<Report>)
    requires TableWf(ov) && TableWf(dt)
    ensures fresh(c) && r == ReportOf(ov, dt, ms, imgs)
    ensures r.Ok? ==> c.saved && c.pages == r.value.pages && c.bookmarks == r.value.bookmarks
                      && c.outline == r.value.outline
    ensures r.Err? ==> !c.saved
    ensures c.forms == map[BG := [Background(Const.BODY_BGD)]]
  {
    c := new Canvas();
    DrawFrontPages(c, ov, ms);
    var e := DrawSpreads(c, dt, imgs);
    if e.Some? {
      return c, Err(e.value);
    }
    DrawLastPage(c);
    r := Ok(Report(c.pages, c.bookmarks, c.outline));
  }
}
