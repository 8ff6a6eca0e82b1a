/**
 * The reportlab canvas as the report code uses it: drawing calls go to the page in
 * progress, `showPage` closes it, bookmarks name the page in progress, outline entries
 * are listed in order, and nothing reaches a file until `save`.
 */
module Pdf {
  /** A rectangle as reportlab takes it: (x1, y1, x2, y2). */
  datatype Rect = Rect(x1: int, y1: int, x2: int, y2: int)

  /** A rectangle whose x coordinates come from a floating-point width; they are kept
      exact. */
  datatype Area = Area(x1: real, y1: real, x2: real, y2: real)

  /** One drawing call on a page. A table is recorded with its cells and the position
      of its top-left corner; its height, which reportlab measures, is not modelled. */
  datatype Op =
    | Image(path: string, x: int, y: int, w: int, h: int)
    | Text(x: int, y: int, text: string)
    | Font(name: string, size: int)
    | Fill(color: string)
    | UrlLink(url: string, rect: Rect)
    | PageLink(dest: string, area: Area)
    | UseForm(name: string)
    | DrawTable(cells: seq<seq<string>>, x: int, top: int)

  /** An outline (table of contents) entry. */
  datatype Entry = Entry(title: string, key: string, level: int)

  class Canvas {
    /** The closed pages, in order. */
    var pages: seq<seq<Op>>
    /** The drawing calls on the page in progress. */
    var current: seq<Op>
    /** Bookmark key to the (0-based) page it names. */
    var bookmarks: map<string, nat>
    var outline: seq<Entry>
    /** Form XObjects: drawing calls recorded once and reused by name. */
    var forms: map<string, seq<Op>>
    /** Whether `save` has written the document. */
    var saved: bool

    /** `canvas.Canvas(path, ...)`: an empty document. */
    constructor ()
      ensures pages == [] && current == [] && bookmarks == map[] && outline == [] && forms == map[] && !saved
    {
      pages := [];
      current := [];
      bookmarks := map[];
      outline := [];
      forms := map[];
      saved := false;
    }

    /** Every drawing call (`drawImage`, `drawString`, `setFont`, `setFillColor`,
        `linkURL`, `linkRect`, `doForm`, `Table.drawOn`) adds to the page in progress. */
    method Draw(op: Op)
      modifies this
      ensures current == old(current) + [op]
      ensures pages == old(pages) && bookmarks == old(bookmarks) && outline == old(outline)
      ensures forms == old(forms) && saved == old(saved)
    {
      current := current + [op];
    }

    /** `beginForm(name)`, the drawing calls, `endForm()`. */
    method DefineForm(name: string, ops: seq<Op>)
      modifies this
      ensures forms == old(forms)[name := ops]
      ensures pages == old(pages) && current == old(current) && bookmarks == old(bookmarks)
      ensures outline == old(outline) && saved == old(saved)
    {
      forms := forms[name := ops];
    }

    /** `bookmarkPage(key)`: the key names the page in progress. */
    method BookmarkPage(key: string)
      modifies this
      ensures bookmarks == old(bookmarks)[key := |old(pages)|]
      ensures pages == old(pages) && current == old(current) && outline == old(outline)
      ensures forms == old(forms) && saved == old(saved)
    {
      bookmarks := bookmarks[key := |pages|];
    }

    /** `addOutlineEntry(title, key, level)`. */
    method AddOutlineEntry(title: string, key: string, level: int)
      modifies this
      ensures outline == old(outline) + [Entry(title, key, level)]
      ensures pages == old(pages) && current == old(current) && bookmarks == old(bookmarks)
      ensures forms == old(forms) && saved == old(saved)
    {
      outline := outline + [Entry(title, key, level)];
    }

    /** `showPage()`: close the page in progress and start a new one. */
    method ShowPage()
      modifies this
      ensures pages == old(pages) + [old(current)] && current == []
      ensures bookmarks == old(bookmarks) && outline == old(outline)
      ensures forms == old(forms) && saved == old(saved)
    {
      pages := pages + [current];
      current := [];
    }

    /** `save()`: a page in progress with drawing on it is closed first, then the
        document is written. */
    method Save()
      modifies this
      ensures pages == old(pages) + (if old(current) == [] then [] else [old(current)]) && current == []
      ensures bookmarks == old(bookmarks) && outline == old(outline) && forms == old(forms)
      ensures saved
    {
      if current != [] {
        pages := pages + [current];
        current := [];
      }
      saved := true;
    }
  }
}
