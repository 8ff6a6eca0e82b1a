/**
 * The pandas operations the table shaping uses, on a DataFrame built from query rows:
 * replacing 1/0 by "Sim"/"Não" in some columns, overwriting a column with a
 * modifier applied row by row, and selecting, renaming and transposing columns.
 */
module Frames {
  import opened Wrappers
  import opened Values
  import opened Dicts
  import opened Modifiers

  /** A DataFrame: its column names and its rows, each row holding exactly the columns. */
  datatype Frame = Frame(cols: set<string>, rows: seq<Row>)

  predicate Wf(f: Frame)
  {
    forall j :: 0 <= j < |f.rows| ==> f.rows[j].Keys == f.cols
  }

  /** Query results: every row has the same columns. */
  predicate Uniform(q: seq<Row>)
  {
    forall j :: 0 <= j < |q| ==> q[j].Keys == q[0].Keys
  }

  /** `pd.DataFrame(db_q)`: an empty result has no columns at all. */
  function FromRows(q: seq<Row>): (f: Frame)
    requires Uniform(q)
    ensures Wf(f) && f.rows == q
  {
    Frame(if q == [] then {} else q[0].Keys, q)
  }

  /** A shaped table after `transpose()`: one labelled row per selected field, and one
      column per DataFrame row. `cols[j][i]` is field i of DataFrame row j. */
  datatype Table = Table(labels: seq<string>, cols: seq<seq<Value>>)

  // ---------------------------------------------------------------------------
  // df[bool_flds] = df[bool_flds].replace({1: "Sim", 0: "Não"})
  // ---------------------------------------------------------------------------

  function YesNo(v: Value): Value
  {
    if v == Int(1) then Str("Sim") else if v == Int(0) then Str("N\U{00E3}o") else v
  }

  function ReplaceRow(r: Row, bools: seq<string>): (r': Row)
    ensures r'.Keys == r.Keys
  {
    map k | k in r :: if k in bools then YesNo(r[k]) else r[k]
  }

  /** The first of `ks` that is not a column. */
  function MissingCol(ks: seq<string>, cols: set<string>): (m: Option<string>)
    ensures m.None? <==> forall k :: k in ks ==> k in cols
    ensures m.Some? ==> m.value in ks && m.value !in cols
  {
    if ks == [] then None
    else if ks[0] !in cols then Some(ks[0])
    else MissingCol(ks[1..], cols)
  }

  function ReplaceBools(f: Frame, bools: seq<string>): (r: Result<Frame>)
    requires Wf(f)
    ensures r.Ok? <==> forall b :: b in bools ==> b in f.cols
    ensures r.Ok? ==> Wf(r.value) && r.value.cols == f.cols && |r.value.rows| == |f.rows|
    ensures r.Ok? ==> forall j :: 0 <= j < |f.rows| ==> r.value.rows[j] == ReplaceRow(f.rows[j], bools)
  {
    match MissingCol(bools, f.cols)
    case Some(b) => Err(KeyError(b))
    case None => Ok(Frame(f.cols, seq(|f.rows|, j requires 0 <= j < |f.rows| => ReplaceRow(f.rows[j], bools))))
  }

  // ---------------------------------------------------------------------------
  // df[k] = df.apply(modifier, axis=1)
  // ---------------------------------------------------------------------------

  /** The modifier called on every row in order; the first failure propagates. */
  function ApplyAll(m: Modifier, rows: seq<Row>): (r: Result<seq<string>>)
    ensures r.Ok? <==> forall j :: 0 <= j < |rows| ==> Apply(m, rows[j]).Ok?
    ensures r.Ok? ==> |r.value| == |rows|
                      && forall j :: 0 <= j < |rows| ==> r.value[j] == Apply(m, rows[j]).value
  {
    if rows == [] then Ok([])
    else
      match Apply(m, rows[0])
      case Err(e) => Err(e)
      case Ok(v) =>
        match ApplyAll(m, rows[1..])
        case Err(e) => Err(e)
        case Ok(vs) => Ok([v] + vs)
  }

  /** Overwrite (or add) column k with the modifier's text for each row. On a frame
      without rows pandas returns an empty frame from `apply`, which cannot be stored
      in one column: a ValueError. */
  function ModifyColumn(f: Frame, k: string, m: Modifier): (r: Result<Frame>)
    requires Wf(f)
    ensures r.Ok? ==> Wf(r.value) && r.value.cols == f.cols + {k} && |r.value.rows| == |f.rows|
    ensures r.Ok? <==> |f.rows| > 0 && forall j :: 0 <= j < |f.rows| ==> Apply(m, f.rows[j]).Ok?
    ensures r.Ok? ==> forall j :: 0 <= j < |f.rows| ==>
                        r.value.rows[j] == f.rows[j][k := Str(Apply(m, f.rows[j]).value)]
  {
    if |f.rows| == 0 then Err(ValueError("Cannot set a DataFrame without columns to the column " + k))
    else
      match ApplyAll(m, f.rows)
      case Err(e) => Err(e)
      case Ok(vs) =>
        Ok(Frame(f.cols + {k}, seq(|f.rows|, j requires 0 <= j < |f.rows| => f.rows[j][k := Str(vs[j])])))
  }

  /** The loop `for k in flds: if mods.get(k): df[k] = df.apply(mods[k], axis=1)`
      after its first |ks| steps. */
  function ModifyAll(f: Frame, ks: seq<string>, mods: Dict<string, Modifier>): (r: Result<Frame>)
    requires Wf(f)
    ensures r.Ok? ==> Wf(r.value) && |r.value.rows| == |f.rows|
    ensures r.Ok? ==> r.value.cols == f.cols + (set k | k in ks && Get(mods, k).Some?)
    ensures r.Ok? && |f.rows| == 0 ==> r.value == f
    decreases |ks|
  {
    if ks == [] then Ok(f)
    else
      assert ks == ks[..|ks| - 1] + [ks[|ks| - 1]];
      match ModifyAll(f, ks[..|ks| - 1], mods)
      case Err(e) => Err(e)
      case Ok(g) =>
        match Get(mods, ks[|ks| - 1])
        case None => Ok(g)
        case Some(m) => ModifyColumn(g, ks[|ks| - 1], m)
  }

  lemma {:induction false} ModifyAllStops(f: Frame, ks: seq<string>, mods: Dict<string, Modifier>, j: nat)
    requires Wf(f) && j <= |ks| && ModifyAll(f, ks[..j], mods).Err?
    ensures ModifyAll(f, ks, mods) == ModifyAll(f, ks[..j], mods)
    decreases |ks| - j
  {
    if j < |ks| {
      assert ks[..j + 1][..j] == ks[..j];
      ModifyAllStops(f, ks, mods, j + 1);
    } else {
      assert ks[..j] == ks;
    }
  }

  /** On a frame with rows, the loop succeeds when every modifier it uses reads only
      columns the frame had to begin with. */
  lemma {:induction false} ModifyAllOk(f: Frame, ks: seq<string>, mods: Dict<string, Modifier>)
    requires Wf(f) && |f.rows| > 0
    requires forall k :: k in ks && Get(mods, k).Some? ==> forall x :: x in Reads(Get(mods, k).value) ==> x in f.cols
    ensures ModifyAll(f, ks, mods).Ok?
    decreases |ks|
  {
    if ks != [] {
      var p := ks[..|ks| - 1];
      var last := ks[|ks| - 1];
      assert forall k :: k in p ==> k in ks;
      ModifyAllOk(f, p, mods);
      var g := ModifyAll(f, p, mods).value;
      match Get(mods, last)
      case None =>
      case Some(m) =>
        forall j | 0 <= j < |g.rows| ensures Apply(m, g.rows[j]).Ok? {
          FirstMissingNone(Reads(m), g.rows[j]);
          ApplyFails(m, g.rows[j]);
        }
    }
  }

  /** The loop leaves every column it does not rewrite as it was. */
  lemma {:induction false} ModifyAllUntouched(f: Frame, ks: seq<string>, mods: Dict<string, Modifier>, j: nat)
    requires Wf(f) && ModifyAll(f, ks, mods).Ok? && j < |f.rows|
    ensures forall k :: k in f.rows[j] && k !in ks ==>
              k in ModifyAll(f, ks, mods).value.rows[j] && ModifyAll(f, ks, mods).value.rows[j][k] == f.rows[j][k]
    decreases |ks|
  {
    if ks != [] {
      var p := ks[..|ks| - 1];
      assert forall k :: k in p ==> k in ks;
      ModifyAllUntouched(f, p, mods, j);
    }
  }

  /** A selected field the loop does not rewrite shows the original cell. */
  lemma SelectUntouched(f: Frame, ks: seq<string>, mods: Dict<string, Modifier>, flds: seq<string>,
                        rename: map<string, string>, i: nat, j: nat)
    requires Wf(f) && ModifyAll(f, ks, mods).Ok?
    requires SelectRenamed(ModifyAll(f, ks, mods).value, flds, rename).Ok?
    requires i < |flds| && j < |f.rows| && flds[i] !in ks
    ensures flds[i] in f.rows[j]
    ensures SelectRenamed(ModifyAll(f, ks, mods).value, flds, rename).value.cols[j][i] == f.rows[j][flds[i]]
  {
    var g := ModifyAll(f, ks, mods).value;
    var k := flds[i];
    assert k in g.cols;
    assert k in f.cols;
    assert f.rows[j].Keys == f.cols;
    ModifyAllUntouched(f, ks, mods, j);
  }

  /** The modifier loop itself: column by column, in field order. */
  method ApplyModifiers(f: Frame, ks: seq<string>, mods: Dict<string, Modifier>) returns (r: Result<Frame>)
    requires Wf(f)
    ensures r == ModifyAll(f, ks, mods)
  {
    var df := f;
    var i := 0;
    while i < |ks|
      invariant 0 <= i <= |ks|
      invariant ModifyAll(f, ks[..i], mods) == Ok(df)
    {
      assert ks[..i + 1][..i] == ks[..i];
      var m := Get(mods, ks[i]);
      if m.Some? {
        var c := ModifyColumn(df, ks[i], m.value);
        if c.Err? {
          ModifyAllStops(f, ks, mods, i + 1);
          return c;
        }
        df := c.value;
      }
      i := i + 1;
    }
    assert ks[..|ks|] == ks;
    return Ok(df);
  }

  // ---------------------------------------------------------------------------
  // df[flds].rename(columns=rename).transpose()
  // ---------------------------------------------------------------------------

  /** The label of a field: its entry in the rename dict, or the field name itself. */
  function Label(rename: map<string, string>, k: string): string
  {
    if k in rename then rename[k] else k
  }

  function SelectRenamed(f: Frame, flds: seq<string>, rename: map<string, string>): (r: Result<Table>)
    requires Wf(f)
    ensures r.Ok? <==> forall k :: k in flds ==> k in f.cols
    ensures r.Err? ==> exists k :: k in flds && k !in f.cols && r.error == KeyError(k)
    ensures r.Ok? ==> |r.value.labels| == |flds| && |r.value.cols| == |f.rows|
    ensures r.Ok? ==> forall i :: 0 <= i < |flds| ==> r.value.labels[i] == Label(rename, flds[i])
    ensures r.Ok? ==> forall j :: 0 <= j < |f.rows| ==>
                        |r.value.cols[j]| == |flds|
                        && forall i :: 0 <= i < |flds| ==> r.value.cols[j][i] == f.rows[j][flds[i]]
  {
    match MissingCol(flds, f.cols)
    case Some(k) => Err(KeyError(k))
    case None =>
      Ok(Table(
        seq(|flds|, i requires 0 <= i < |flds| => Label(rename, flds[i])),
        seq(|f.rows|, j requires 0 <= j < |f.rows| =>
          seq(|flds|, i requires 0 <= i < |flds| => f.rows[j][flds[i]]))))
  }

  // ---------------------------------------------------------------------------
  // The modifier loop works row by row
  // ---------------------------------------------------------------------------

  /** Two rows agree on the columns a modifier reads. */
  predicate AgreeOn(a: Row, b: Row, ks: seq<string>)
  {
    forall k :: k in ks ==> (k in a <==> k in b) && (k in a ==> a[k] == b[k])
  }

  lemma {:induction false} RenderLocal(pieces: seq<Piece>, a: Row, b: Row)
    requires AgreeOn(a, b, TemplateKeys(pieces))
    ensures Render(pieces, a) == Render(pieces, b)
    decreases |pieces|
  {
    if pieces != [] {
      var ks := TemplateKeys(pieces);
      assert ks == (if pieces[0].Col? then [pieces[0].key] else []) + TemplateKeys(pieces[1..]);
      RenderLocal(pieces[1..], a, b);
    }
  }

  /** A modifier's text depends only on the columns it reads. */
  lemma ApplyLocal(m: Modifier, a: Row, b: Row)
    requires AgreeOn(a, b, Reads(m))
    ensures Apply(m, a) == Apply(m, b)
  {
    if m.Template? {
      RenderLocal(m.pieces, a, b);
    }
  }

  /** The fields of ks that the loop rewrites. */
  predicate Rewritten(ks: seq<string>, mods: Dict<string, Modifier>, k: string)
  {
    k in ks && Get(mods, k).Some?
  }

  /** No modifier used by the loop reads a column that the loop rewrites. */
  ghost predicate NoChaining(ks: seq<string>, mods: Dict<string, Modifier>)
  {
    forall k, x :: Rewritten(ks, mods, k) && x in Reads(Get(mods, k).value) ==> !Rewritten(ks, mods, x)
  }

  /** The cell the loop leaves in column k of a row whose original contents were `row`. */
  function Cell(row: Row, k: string, ks: seq<string>, mods: Dict<string, Modifier>): Option<Value>
  {
    if Rewritten(ks, mods, k) then
      (match Apply(Get(mods, k).value, row)
       case Ok(t) => Some(Str(t))
       case Err(_) => None)
    else if k in row then Some(row[k])
    else None
  }

  /** When no modifier reads a rewritten column, the loop acts on each row on its own:
      every rewritten column holds its modifier's text for the original row, and every
      other column is untouched. */
  lemma {:induction false} ModifyAllRowWise(f: Frame, ks: seq<string>, mods: Dict<string, Modifier>)
    requires Wf(f) && NoChaining(ks, mods)
    requires ModifyAll(f, ks, mods).Ok?
    ensures var g := ModifyAll(f, ks, mods).value;
            forall j, k :: 0 <= j < |f.rows| && k in g.rows[j] ==> Cell(f.rows[j], k, ks, mods) == Some(g.rows[j][k])
    ensures var g := ModifyAll(f, ks, mods).value;
            forall j, k :: 0 <= j < |f.rows| && Rewritten(ks, mods, k) ==> k in g.rows[j]
    decreases |ks|
  {
    if ks != [] {
      var p := ks[..|ks| - 1];
      var last := ks[|ks| - 1];
      assert ks == p + [last];
      assert NoChaining(p, mods) by {
        forall k, x | Rewritten(p, mods, k) && x in Reads(Get(mods, k).value)
          ensures !Rewritten(p, mods, x)
        {
          assert Rewritten(ks, mods, k);
          assert forall y :: y in p ==> y in ks;
        }
      }
      ModifyAllRowWise(f, p, mods);
      var g := ModifyAll(f, p, mods).value;
      var h := ModifyAll(f, ks, mods).value;
      match Get(mods, last)
      case None =>
        assert h == g;
        forall j, k | 0 <= j < |f.rows| && k in h.rows[j]
          ensures Cell(f.rows[j], k, ks, mods) == Some(h.rows[j][k])
        {
          assert Rewritten(ks, mods, k) == Rewritten(p, mods, k);
        }
        forall j, k | 0 <= j < |f.rows| && Rewritten(ks, mods, k) ensures k in h.rows[j] {
          assert Rewritten(p, mods, k);
        }
      case Some(m) =>
        forall j | 0 <= j < |f.rows|
          ensures Apply(m, g.rows[j]) == Apply(m, f.rows[j])
        {
          forall x | x in Reads(m)
            ensures (x in g.rows[j] <==> x in f.rows[j]) && (x in g.rows[j] ==> g.rows[j][x] == f.rows[j][x])
          {
            assert Rewritten(ks, mods, last);
            assert !Rewritten(ks, mods, x);
            assert !Rewritten(p, mods, x);
            assert x in f.rows[j] ==> x in g.rows[j];
          }
          ApplyLocal(m, g.rows[j], f.rows[j]);
        }
        forall j, k | 0 <= j < |f.rows| && k in h.rows[j]
          ensures Cell(f.rows[j], k, ks, mods) == Some(h.rows[j][k])
        {
          if k != last {
            assert Rewritten(ks, mods, k) == Rewritten(p, mods, k);
          }
        }
        forall j, k | 0 <= j < |f.rows| && Rewritten(ks, mods, k) ensures k in h.rows[j] {
          if k != last {
            assert Rewritten(p, mods, k);
          }
        }
    }
  }
}
