/**
 * What the report's page plan guarantees: its page count, where each bookmark points,
 * that every overview link and outline entry lands on a bookmarked page, the column
 * and link geometry, the map links, the split of each comparison's rows and the images
 * each comparison shows.
 */
module ReportProps {
  import opened Wrappers
  import opened Text
  import opened Values
  import opened Frames
  import opened Pdf
  import opened ReportPlan
  import Const

  // ---------------------------------------------------------------------------
  // Pages and bookmarks
  // ---------------------------------------------------------------------------

  /** Comparison i has pages 2i and 2i + 1 of the spreads. */
  lemma {:induction false} SpreadsAt(t: Table, ls: seq<Lists>)
    requires TableWf(t) && |ls| <= |t.cols|
    ensures forall i :: 0 <= i < |ls| ==>
              Spreads(t, ls)[2 * i] == FirstSpreadPage(t, i, ls[i].img)
              && Spreads(t, ls)[2 * i + 1] == SecondSpreadPage(ls[i])
    decreases |ls|
  {
    if ls != [] {
      var idx := |ls| - 1;
      SpreadsAt(t, ls[..idx]);
      forall i | 0 <= i < |ls|
        ensures Spreads(t, ls)[2 * i] == FirstSpreadPage(t, i, ls[i].img)
        ensures Spreads(t, ls)[2 * i + 1] == SecondSpreadPage(ls[i])
      {
        if i < idx {
          assert ls[..idx][i] == ls[i];
        }
      }
    }
  }

  /** The report has 5 + 2N pages for N comparisons: cover, about, map and overview,
      two pages per comparison in column order, then the last page. */
  lemma PagesAt(ov: Table, dt: Table, ms: seq<Marker>, ls: seq<Lists>)
    requires TableWf(ov) && TableWf(dt) && |ls| == |dt.cols|
    ensures var p := Pages(ov, dt, ms, ls);
            && |p| == 5 + 2 * |dt.cols|
            && p[0] == CoverPage() && p[1] == AboutPage() && p[2] == MapPage(ms) && p[3] == OverviewPage(ov)
            && (forall i :: 0 <= i < |dt.cols| ==>
                  p[4 + 2 * i] == FirstSpreadPage(dt, i, ls[i].img) && p[5 + 2 * i] == SecondSpreadPage(ls[i]))
            && p[4 + 2 * |dt.cols|] == LastPage()
  {
    SpreadsAt(dt, ls);
  }

  /** A detail key is a string of digits, so it is none of the fixed bookmark names. */
  lemma DetailKeyDigits(i: nat)
    ensures AllDigits(DetailKey(i)) && |DetailKey(i)| >= 2
    ensures DetailKey(i) !in ["first_page", "about_page", "map_page", "table_page", "last_page"]
  {
    Pad2RoundTrip(i + 1);
    assert IsDigit(DetailKey(i)[0]);
  }

  /** Distinct comparisons have distinct bookmark keys. */
  lemma DetailKeyInjective(i: nat, j: nat)
    ensures DetailKey(i) == DetailKey(j) <==> i == j
  {
    if DetailKey(i) == DetailKey(j) {
      Pad2Injective(i + 1, j + 1);
    }
  }

  /** After n comparisons the bookmarks are the four fixed ones and one key per
      comparison. */
  lemma {:induction false} DetailMarksKeys(n: nat)
    ensures DetailMarks(n).Keys == FixedMarks().Keys + set i | 0 <= i < n :: DetailKey(i)
  {
    if n > 0 {
      DetailMarksKeys(n - 1);
      assert (set i | 0 <= i < n :: DetailKey(i)) == (set i | 0 <= i < n - 1 :: DetailKey(i)) + {DetailKey(n - 1)};
    }
  }

  /** The four fixed bookmarks still name pages 0 to 3, and each comparison's key names
      the first of its two pages. */
  lemma {:induction false} DetailMarksValues(n: nat)
    ensures forall k :: k in FixedMarks() ==> k in DetailMarks(n) && DetailMarks(n)[k] == FixedMarks()[k]
    ensures forall i :: 0 <= i < n ==> DetailKey(i) in DetailMarks(n) && DetailMarks(n)[DetailKey(i)] == 4 + 2 * i
  {
    if n > 0 {
      DetailMarksValues(n - 1);
      var key := DetailKey(n - 1);
      DetailKeyDigits(n - 1);
      assert key !in FixedMarks();
      forall i | 0 <= i < n - 1 ensures DetailKey(i) != key {
        DetailKeyInjective(i, n - 1);
      }
    }
  }

  /** The bookmarks of a report with n comparisons: first_page, about_page, map_page and
      table_page name pages 0 to 3, key i + 1 (two digits) names page 4 + 2i, and
      last_page names the last page, 4 + 2n; there are no others. */
  lemma BookmarksAt(n: nat)
    ensures Bookmarks(n).Keys == {"first_page", "about_page", "map_page", "table_page", "last_page"}
                                 + set i | 0 <= i < n :: DetailKey(i)
    ensures Bookmarks(n)["first_page"] == 0 && Bookmarks(n)["about_page"] == 1
    ensures Bookmarks(n)["map_page"] == 2 && Bookmarks(n)["table_page"] == 3
    ensures forall i :: 0 <= i < n ==> Bookmarks(n)[DetailKey(i)] == 4 + 2 * i
    ensures Bookmarks(n)["last_page"] == 4 + 2 * n
  {
    BookmarksKeys(n);
    BookmarksValues(n);
  }

  lemma BookmarksKeys(n: nat)
    ensures Bookmarks(n).Keys == {"first_page", "about_page", "map_page", "table_page", "last_page"}
                                 + set i | 0 <= i < n :: DetailKey(i)
  {
    DetailMarksKeys(n);
    FixedMarksKeys();
  }

  lemma FixedMarksKeys()
    ensures FixedMarks().Keys == {"first_page", "about_page", "map_page", "table_page"}
  {
  }

  lemma BookmarksValues(n: nat)
    ensures {"first_page", "about_page", "map_page", "table_page", "last_page"} <= Bookmarks(n).Keys
    ensures Bookmarks(n)["first_page"] == 0 && Bookmarks(n)["about_page"] == 1
    ensures Bookmarks(n)["map_page"] == 2 && Bookmarks(n)["table_page"] == 3
    ensures forall i :: 0 <= i < n ==> DetailKey(i) in Bookmarks(n) && Bookmarks(n)[DetailKey(i)] == 4 + 2 * i
    ensures Bookmarks(n)["last_page"] == 4 + 2 * n
  {
    DetailMarksValues(n);
    forall i | 0 <= i < n ensures DetailKey(i) != "last_page" {
      DetailKeyDigits(i);
    }
  }

  lemma DetailBookmark(n: nat, c: nat)
    requires c < n
    ensures DetailKey(c) in Bookmarks(n) && Bookmarks(n)[DetailKey(c)] == 4 + 2 * c
  {
    BookmarksAt(n);
  }

  // ---------------------------------------------------------------------------
  // Links and outline entries land on bookmarked pages
  // ---------------------------------------------------------------------------

  lemma {:induction false} ColLinksAt(n: nat, k: nat)
    ensures forall c :: 0 <= c < k ==> ColLinks(n, k)[c] == ColLink(n, c)
  {
    if k > 0 {
      ColLinksAt(n, k - 1);
    }
  }

  /** Operation 1 + c of the overview page is the link of column c. */
  lemma OverviewLinkAt(t: Table, c: nat)
    requires TableWf(t) && c < |t.cols|
    ensures |OverviewPage(t)| == |t.cols| + 2
    ensures OverviewPage(t)[1 + c] == ColLink(|t.cols|, c)
    ensures OverviewPage(t)[1 + c].PageLink? && OverviewPage(t)[1 + c].dest == DetailKey(c)
  {
    var n := |t.cols|;
    ColLinksAt(n, n);
    var tail := [DrawTable(OverviewCells(t), Const.LR_PADDING, Top())];
    assert OverviewPage(t) == [UseForm(BG)] + ColLinks(n, n) + tail;
    assert OverviewPage(t)[1 + c] == ColLinks(n, n)[c];
  }

  /** The link over overview column c goes to key c + 1 (two digits), which is bookmarked
      on the first page of comparison c, the page whose title is "Imóvel " and that key. */
  lemma OverviewLinksResolve(ov: Table, dt: Table, ms: seq<Marker>, ls: seq<Lists>)
    requires TableWf(ov) && TableWf(dt) && |ls| == |dt.cols| == |ov.cols|
    ensures |Pages(ov, dt, ms, ls)| == 5 + 2 * |dt.cols|
    ensures forall c :: 0 <= c < |dt.cols| ==> LinkLands(Pages(ov, dt, ms, ls), Bookmarks(|dt.cols|), c)
  {
    OverviewPageOf(ov, dt, ms, ls);
    forall c | 0 <= c < |dt.cols| {
      LinkLandsAt(ov, dt, ms, ls, c);
    }
  }

  /** In pages p with bookmarks marks, the overview link over column c names a key that
      is bookmarked on page 4 + 2c, and that page is titled with the same key. */
  ghost predicate LinkLands(p: seq<seq<Op>>, marks: map<string, nat>, c: nat) {
    && |p| > 4 + 2 * c && |p[3]| > 1 + c
    && p[3][1 + c].PageLink? && p[3][1 + c].dest == DetailKey(c)
    && DetailKey(c) in marks && marks[DetailKey(c)] == 4 + 2 * c
    && |p[4 + 2 * c]| > 2 && p[4 + 2 * c][2] == Text(100, 914, "Imóvel " + DetailKey(c))
  }

  /** OverviewLinksResolve for one column. */
  lemma LinkLandsAt(ov: Table, dt: Table, ms: seq<Marker>, ls: seq<Lists>, c: nat)
    requires TableWf(ov) && TableWf(dt) && |ls| == |dt.cols| == |ov.cols| && c < |dt.cols|
    ensures LinkLands(Pages(ov, dt, ms, ls), Bookmarks(|dt.cols|), c)
  {
    OverviewPageOf(ov, dt, ms, ls);
    OverviewLinkAt(ov, c);
    DetailBookmark(|dt.cols|, c);
    FirstSpreadOf(ov, dt, ms, ls, c);
    SpreadTitle(dt, c, ls[c].img);
  }

  lemma OverviewPageOf(ov: Table, dt: Table, ms: seq<Marker>, ls: seq<Lists>)
    requires TableWf(ov) && TableWf(dt) && |ls| == |dt.cols|
    ensures |Pages(ov, dt, ms, ls)| == 5 + 2 * |dt.cols|
    ensures Pages(ov, dt, ms, ls)[3] == OverviewPage(ov)
    ensures |OverviewPage(ov)| == |ov.cols| + 2
  {
    PagesAt(ov, dt, ms, ls);
  }

  lemma MapPageOf(ov: Table, dt: Table, ms: seq<Marker>, ls: seq<Lists>)
    requires TableWf(ov) && TableWf(dt) && |ls| == |dt.cols|
    ensures |Pages(ov, dt, ms, ls)| == 5 + 2 * |dt.cols|
    ensures Pages(ov, dt, ms, ls)[2] == MapPage(ms)
  {
    PagesAt(ov, dt, ms, ls);
  }

  lemma FirstSpreadOf(ov: Table, dt: Table, ms: seq<Marker>, ls: seq<Lists>, c: nat)
    requires TableWf(ov) && TableWf(dt) && |ls| == |dt.cols| && c < |dt.cols|
    ensures |Pages(ov, dt, ms, ls)| == 5 + 2 * |dt.cols|
    ensures Pages(ov, dt, ms, ls)[4 + 2 * c] == FirstSpreadPage(dt, c, ls[c].img)
  {
    PagesAt(ov, dt, ms, ls);
  }

  /** The first page of comparison idx is titled "Imóvel " and its two-digit key. */
  lemma SpreadTitle(t: Table, idx: nat, img: seq<string>)
    requires TableWf(t) && idx < |t.cols|
    ensures |FirstSpreadPage(t, idx, img)| > 2
    ensures FirstSpreadPage(t, idx, img)[2] == Text(100, 914, "Imóvel " + DetailKey(idx))
  {
  }

  lemma {:induction false} DetailEntriesAt(n: nat)
    ensures forall i :: 0 <= i < n ==> DetailEntries(n)[i] == DetailEntry(i)
  {
    if n > 0 {
      DetailEntriesAt(n - 1);
    }
  }

  /** The outline has the four fixed entries, then "Details for Column i + 1" at level 1
      for each comparison, then "Last Page" at level 0. */
  lemma OutlineShape(n: nat)
    ensures var o := Outline(n);
            && |o| == n + 5
            && o[..4] == FixedEntries() && o[n + 4] == Entry("Last Page", "last_page", 0)
            && forall i :: 0 <= i < n ==> o[4 + i] == DetailEntry(i)
  {
    DetailEntriesAt(n);
    var o := Outline(n);
    forall i | 0 <= i < n ensures o[4 + i] == DetailEntry(i) {
      assert o[4 + i] == DetailEntries(n)[i];
    }
  }

  /** Every outline entry's key is bookmarked; the entries at level 0 are exactly the
      four fixed ones and the last; a detail entry's key differs from its title; and no
      two entries share a key. */
  lemma OutlineKeys(n: nat)
    ensures var o := Outline(n);
            && (forall i :: 0 <= i < |o| ==> o[i].key in Bookmarks(n) && (o[i].level == 0 <==> i < 4 || i == n + 4))
            && (forall i :: 4 <= i < n + 4 ==> o[i].key != o[i].title)
            && (forall i, j :: 0 <= i < j < |o| ==> o[i].key != o[j].key)
  {
    var o := Outline(n);
    OutlineShape(n);
    BookmarksAt(n);
    var fixed := ["first_page", "about_page", "map_page", "table_page"];
    forall i | 0 <= i < 4 ensures o[i].key == fixed[i] && o[i].level == 0 {
      assert o[i] == o[..4][i];
    }
    forall i | 4 <= i < n + 4
      ensures o[i].key == DetailKey(i - 4) && o[i].level == 1 && o[i].key != o[i].title
      ensures o[i].key !in fixed && o[i].key != "last_page"
    {
      assert o[i] == o[4 + (i - 4)] == DetailEntry(i - 4);
      DetailKeyDigits(i - 4);
      assert o[i].title[0] == 'D';
      assert !IsDigit('D');
    }
    forall i, j | 0 <= i < j < |o| ensures o[i].key != o[j].key {
      if 4 <= i && j < n + 4 {
        DetailKeyInjective(i - 4, j - 4);
      }
    }
  }

  // ---------------------------------------------------------------------------
  // Geometry
  // ---------------------------------------------------------------------------

  /** The n + 1 overview columns share the 1800 points between the side paddings. */
  lemma ColWidthTimes(n: nat)
    ensures ColWidth(n) * (n + 1) as real == 1800.0
    ensures ColWidth(n) > 0.0
  {
    var m := (n + 1) as real;
    assert ColWidth(n) == 1800.0 / m;
  }

  /** The header link of comparison column c is one column wide and 40 points high under
      the content top, starting c + 1 columns in from the left padding. */
  lemma ColLinkRect(n: nat, c: nat)
    ensures var r := ColLink(n, c).area;
            && r.x1 == 100.0 + (c + 1) as real * ColWidth(n) && r.x2 == r.x1 + ColWidth(n)
            && r.y1 == 814.0 && r.y2 == 774.0
  {
  }

  lemma Distribute(a: real, w: real)
    ensures (a + 1.0) * w == a * w + w
  {
  }

  /** Each header link ends where the next one starts. */
  lemma ColLinkNext(n: nat, c: nat)
    ensures ColLink(n, c).area.x2 == ColLink(n, c + 1).area.x1
  {
    ColLinkRect(n, c);
    ColLinkRect(n, c + 1);
    Distribute((c + 1) as real, ColWidth(n));
  }

  /** The header links tile the overview row: the first starts one column in from the
      left padding, each starts where the one before ends, and the last ends at the right
      padding. */
  lemma ColLinkGeometry(n: nat)
    ensures forall c :: 0 <= c < n - 1 ==> ColLink(n, c).area.x2 == ColLink(n, c + 1).area.x1
    ensures n > 0 ==> ColLink(n, 0).area.x1 == 100.0 + ColWidth(n) && ColLink(n, n - 1).area.x2 == 1900.0
  {
    forall c | 0 <= c < n - 1 ensures ColLink(n, c).area.x2 == ColLink(n, c + 1).area.x1 {
      ColLinkNext(n, c);
    }
    if n > 0 {
      ColLinkRect(n, 0);
      ColLinkRect(n, n - 1);
      var w := ColWidth(n);
      Distribute(n as real, w);
      ColWidthTimes(n);
      assert (n + 1) as real == n as real + 1.0;
    }
  }

  // ---------------------------------------------------------------------------
  // The map links
  // ---------------------------------------------------------------------------

  lemma {:induction false} MapLinksAt(items: seq<(string, string)>)
    ensures forall k :: 0 <= k < |items| ==> MapLinks(items)[2 * k..2 * k + 2] == MapLink(k + 1, items[k])
    decreases |items|
  {
    if items != [] {
      var last := |items| - 1;
      var prefix := MapLinks(items[..last]);
      MapLinksAt(items[..last]);
      assert MapLinks(items) == prefix + MapLink(|items|, items[last]);
      forall k | 0 <= k < last
        ensures MapLinks(items)[2 * k..2 * k + 2] == prefix[2 * k..2 * k + 2]
        ensures items[..last][k] == items[k]
      {
      }
    }
  }

  /** Marker k (counting from 0) gets its label "Imóvel_" and its two-digit number at
      x = 400 + 250(k + 1) and, over it, a 250 by 40 link to its Google Maps URL. */
  lemma MapLinksResolve(ms: seq<Marker>)
    ensures |MapPage(ms)| == 4 + 2 * |ms|
    ensures forall k :: 0 <= k < |ms| ==>
              var x := 400 + 250 * (k + 1);
              && MapPage(ms)[4 + 2 * k] == Text(x, 150, "Imóvel_" + Fmt02(ms[k].index))
              && MapPage(ms)[5 + 2 * k] == UrlLink("https://www.google.com/maps?q=" + Show(ms[k].lat) + ","
                                                     + Show(ms[k].lng), Rect(x, 150, 650 + 250 * (k + 1), 190))
  {
    MapLinksAt(MapItems(ms));
    MapPageSplit(ms);
    forall k | 0 <= k < |ms|
      ensures MapPage(ms)[4 + 2 * k] == Text(400 + 250 * (k + 1), 150, "Imóvel_" + Fmt02(ms[k].index))
      ensures MapPage(ms)[5 + 2 * k] == UrlLink("https://www.google.com/maps?q=" + Show(ms[k].lat) + ","
                                                + Show(ms[k].lng), Rect(400 + 250 * (k + 1), 150, 650 + 250 * (k + 1), 190))
    {
      MapPageLink(ms, k);
      MapLinkSpelled(ms, k);
    }
  }

  /** The map page is its four fixed operations followed by the links. */
  lemma MapPageSplit(ms: seq<Marker>)
    ensures |MapPage(ms)| == 4 + |MapLinks(MapItems(ms))|
    ensures forall j :: 0 <= j < |MapLinks(MapItems(ms))| ==> MapPage(ms)[4 + j] == MapLinks(MapItems(ms))[j]
  {
  }

  /** Entries 4 + 2k and 5 + 2k of the map page are the k-th marker's link. */
  lemma MapPageLink(ms: seq<Marker>, k: nat)
    requires k < |ms|
    requires MapLinks(MapItems(ms))[2 * k..2 * k + 2] == MapLink(k + 1, MapItems(ms)[k])
    requires |MapPage(ms)| == 4 + |MapLinks(MapItems(ms))|
    requires forall j :: 0 <= j < |MapLinks(MapItems(ms))| ==> MapPage(ms)[4 + j] == MapLinks(MapItems(ms))[j]
    ensures MapPage(ms)[4 + 2 * k] == MapLink(k + 1, MapItems(ms)[k])[0]
    ensures MapPage(ms)[5 + 2 * k] == MapLink(k + 1, MapItems(ms)[k])[1]
  {
    var links := MapLinks(MapItems(ms));
    assert links[2 * k] == links[2 * k..2 * k + 2][0];
    assert links[2 * k + 1] == links[2 * k..2 * k + 2][1];
  }

  /** The k-th marker's link, spelled out. */
  lemma MapLinkSpelled(ms: seq<Marker>, k: nat)
    requires k < |ms|
    ensures MapLink(k + 1, MapItems(ms)[k])[0] == Text(400 + 250 * (k + 1), 150, "Imóvel_" + Fmt02(ms[k].index))
    ensures MapLink(k + 1, MapItems(ms)[k])[1] == UrlLink("https://www.google.com/maps?q=" + Show(ms[k].lat) + ","
                                              + Show(ms[k].lng), Rect(400 + 250 * (k + 1), 150, 650 + 250 * (k + 1), 190))
  {
    assert MapItems(ms)[k] == (MarkerLabel(ms[k]), MarkerUrl(ms[k]));
  }

  // ---------------------------------------------------------------------------
  // The two pages of a comparison
  // ---------------------------------------------------------------------------

  /** The two tables of a comparison's first page split its (label, cell) rows: laid end
      to end they give all of them back, and the right-hand one has the last
      min(5, rows) of them. */
  lemma FirstSpreadTables(t: Table, idx: nat, img: seq<string>)
    requires TableWf(t) && idx < |t.cols|
    ensures var p := FirstSpreadPage(t, idx, img);
            var cd := ColumnData(t, idx);
            && p[3].DrawTable? && p[4].DrawTable?
            && p[3].cells + p[4].cells == cd
            && |p[4].cells| == (if |cd| < 5 then |cd| else 5)
            && p[4].cells == cd[|cd| - |p[4].cells|..]
            && forall i :: 0 <= i < |cd| ==> cd[i] == [t.labels[i], Show(t.cols[idx][i])]
  {
    var cd := ColumnData(t, idx);
    assert SliceTo(cd, -5) + SliceFrom(cd, -5) == cd;
  }

  lemma {:induction false} SecondImagesAt(img: seq<string>, k: nat)
    requires k <= SecondImageCount(img)
    ensures forall i :: 0 <= i < k ==> SecondImages(img, k)[i] == SecondImage(img, i + 1)
  {
    if k > 0 {
      SecondImagesAt(img, k - 1);
    }
  }

  /** The first page of a comparison draws one image, after its two tables, and only
      when the list is not empty: the first of the list without its first character. */
  lemma FirstPageImages(t: Table, idx: nat, img: seq<string>)
    requires TableWf(t) && idx < |t.cols|
    ensures var p := FirstSpreadPage(t, idx, img);
            && (forall i :: 0 <= i < |p| ==> (p[i].Image? <==> i == 5 && img != []))
            && (img != [] ==> |p| == 6 && p[5] == Image(DropFirst(img[0]), 1100, 514, 700, 300))
  {
  }

  /** The second page of a comparison draws images 1 and 2 of its list while they exist,
      each without its first character, 330 points apart below the content top; so a
      comparison shows min(3, n) of the n images of its list. */
  lemma SecondPageImages(l: Lists)
    ensures var p := SecondSpreadPage(l);
            var k := SecondImageCount(l.img);
            && |p| == k + 2
            && (forall i :: 0 <= i < |p| ==> (p[i].Image? <==> 1 <= i <= k))
            && (forall i :: 1 <= i <= k ==> p[i] == Image(DropFirst(l.img[i]), 100, 814 - 330 * i, 700, 300))
            && (l.img != [] ==> 1 + k == if |l.img| < 3 then |l.img| else 3)
  {
    var img := l.img;
    var k := SecondImageCount(img);
    SecondImagesAt(img, k);
    var mid := SecondImages(img, k);
    var infr := [DrawTable(InfrCells(l.infr), 1000, 814)];
    var p := SecondSpreadPage(l);
    assert p == [UseForm(BG)] + mid + infr;
    forall i | 1 <= i <= k ensures p[i] == SecondImage(img, i) {
      assert p[i] == mid[i - 1];
    }
  }
}
