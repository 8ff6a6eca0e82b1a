/**
 * The display modifiers: the per-row lambdas that turn query columns into the text
 * shown in a comparison table. Every lambda in the code is either an f-string over
 * some columns of the row (a template) or the min/max collapse built by
 * `get_min_max_modified`.
 */
module Modifiers {
  import opened Wrappers
  import opened Text
  import opened Values

  /** One piece of an f-string: literal text, or `{row['key']}`. */
  datatype Piece = Lit(text: string) | Col(key: string)

  datatype Modifier =
    | Template(pieces: seq<Piece>)   // an f-string over the row's columns
    | MinMax(fld: string)            // `get_min_max_modified(fld)`

  /** The key names of the min/max pair that `MinMax(fld)` reads. */
  function MinKey(fld: string): string { "min_" + fld }
  function MaxKey(fld: string): string { "max_" + fld }

  /** The columns a modifier reads, in the order Python evaluates them. */
  function Reads(m: Modifier): seq<string>
  {
    match m
    case Template(pieces) => TemplateKeys(pieces)
    case MinMax(fld) => [MinKey(fld), MaxKey(fld)]
  }

  function TemplateKeys(pieces: seq<Piece>): seq<string>
  {
    if pieces == [] then []
    else (if pieces[0].Col? then [pieces[0].key] else []) + TemplateKeys(pieces[1..])
  }

  /** An f-string evaluated on a row: the pieces left to right; the first missing
      column raises KeyError. */
  function Render(pieces: seq<Piece>, row: Row): Result<string>
  {
    if pieces == [] then Ok("")
    else
      match pieces[0]
      case Lit(t) =>
        (match Render(pieces[1..], row)
         case Ok(rest) => Ok(t + rest)
         case Err(e) => Err(e))
      case Col(k) =>
        if k !in row then Err(KeyError(k))
        else
          match Render(pieces[1..], row)
          case Ok(rest) => Ok(Show(row[k]) + rest)
          case Err(e) => Err(e)
  }

  /** An f-string reads exactly the columns it names. */
  lemma {:induction false} TemplateKeysCols(pieces: seq<Piece>)
    ensures forall x :: x in TemplateKeys(pieces) <==> Col(x) in pieces
    decreases |pieces|
  {
    if pieces != [] {
      TemplateKeysCols(pieces[1..]);
      assert pieces == [pieces[0]] + pieces[1..];
    }
  }

  /** Calling the lambda on one row (`df.apply(lambda, axis=1)` calls it once per row). */
  function Apply(m: Modifier, row: Row): Result<string>
  {
    match m
    case Template(pieces) => Render(pieces, row)
    case MinMax(fld) =>
      if MinKey(fld) !in row then Err(KeyError(MinKey(fld)))
      else if MaxKey(fld) !in row then Err(KeyError(MaxKey(fld)))
      else
        var lo, hi := Show(row[MinKey(fld)]), Show(row[MaxKey(fld)]);
        Ok(if lo == hi then lo else lo + " a " + hi)
  }

  /** The first column of `keys` missing from the row, if any. */
  function FirstMissing(keys: seq<string>, row: Row): Option<string>
  {
    if keys == [] then None
    else if keys[0] !in row then Some(keys[0])
    else FirstMissing(keys[1..], row)
  }

  lemma {:induction false} FirstMissingNone(keys: seq<string>, row: Row)
    ensures FirstMissing(keys, row).None? <==> forall x :: x in keys ==> x in row
    decreases |keys|
  {
    if keys != [] {
      FirstMissingNone(keys[1..], row);
      assert keys == [keys[0]] + keys[1..];
    }
  }

  lemma {:induction false} RenderFails(pieces: seq<Piece>, row: Row)
    ensures Render(pieces, row).Err? <==> FirstMissing(TemplateKeys(pieces), row).Some?
    ensures Render(pieces, row).Err? ==>
              Render(pieces, row).error == KeyError(FirstMissing(TemplateKeys(pieces), row).value)
    decreases |pieces|
  {
    if pieces != [] {
      RenderFails(pieces[1..], row);
      if pieces[0].Col? {
        assert TemplateKeys(pieces) == [pieces[0].key] + TemplateKeys(pieces[1..]);
        assert TemplateKeys(pieces)[1..] == TemplateKeys(pieces[1..]);
      } else {
        assert TemplateKeys(pieces) == TemplateKeys(pieces[1..]);
      }
    }
  }

  /** A modifier fails exactly when one of the columns it reads is missing, and then
      with a KeyError naming the first such column in evaluation order. */
  lemma ApplyFails(m: Modifier, row: Row)
    ensures Apply(m, row).Err? <==> FirstMissing(Reads(m), row).Some?
    ensures Apply(m, row).Err? ==> Apply(m, row).error == KeyError(FirstMissing(Reads(m), row).value)
  {
    if m.Template? {
      RenderFails(m.pieces, row);
    } else {
      var lo, hi := MinKey(m.fld), MaxKey(m.fld);
      assert Reads(m) == [lo, hi] && [lo, hi][1..] == [hi] && [hi][1..] == [];
      if lo in row {
        assert FirstMissing(Reads(m), row) == FirstMissing([hi], row);
        assert FirstMissing([hi], row) == if hi !in row then Some(hi) else FirstMissing([], row);
      }
    }
  }

  /** The min/max display is the min text alone exactly when the two texts are equal:
      the comparison is on the printed strings, not on the numbers. */
  lemma MinMaxCollapse(fld: string, row: Row)
    requires MinKey(fld) in row && MaxKey(fld) in row
    ensures Apply(MinMax(fld), row) == Ok(Show(row[MinKey(fld)]))
            <==> Show(row[MinKey(fld)]) == Show(row[MaxKey(fld)])
  {
    var lo, hi := Show(row[MinKey(fld)]), Show(row[MaxKey(fld)]);
    if lo != hi {
      assert |lo + " a " + hi| > |lo|;
    }
  }

  /** When neither text contains the letter 'a', splitting the display at " a " gives
      back [min] or [min, max]: the display loses nothing. */
  lemma MinMaxSplit(fld: string, row: Row)
    requires MinKey(fld) in row && MaxKey(fld) in row
    requires 'a' !in Show(row[MinKey(fld)]) && 'a' !in Show(row[MaxKey(fld)])
    ensures Apply(MinMax(fld), row).Ok?
    ensures var lo, hi := Show(row[MinKey(fld)]), Show(row[MaxKey(fld)]);
            Split(Apply(MinMax(fld), row).value, " a ") == if lo == hi then [lo] else [lo, hi]
  {
    var lo, hi := Show(row[MinKey(fld)]), Show(row[MaxKey(fld)]);
    assert Marker(" a ", 1);
    if lo == hi {
      SplitWithoutMarker(lo, " a ", 1);
    } else {
      SplitPair(lo, " a ", hi, 1);
    }
  }

  /** An integer 10 and a float 10.0 print differently, so they do not collapse. */
  lemma MinMaxComparesText()
    ensures Apply(MinMax("height"), map["min_height" := Int(10), "max_height" := Real("10.0")])
            == Ok("10 a 10.0")
  {
    var row := map["min_height" := Int(10), "max_height" := Real("10.0")];
    assert MinKey("height") == "min_height" && MaxKey("height") == "max_height";
    assert NatToString(10) == NatToString(1) + [DigitChar(0)] == "10";
    assert Show(row[MinKey("height")]) == "10";
    assert Show(row[MaxKey("height")]) == "10.0";
    assert "10" != "10.0" by { assert |"10"| != |"10.0"|; }
    assert "10" + " a " + "10.0" == "10 a 10.0";
  }

  /** `f"{row['district']} - {row['city']}"`. */
  const Address: Modifier := Template([Col("district"), Lit(" - "), Col("city")])

  /** The address display is district and city joined by " - "; when neither contains
      '-', splitting at " - " gives the two back. */
  lemma AddressSplit(row: Row)
    requires "district" in row && "city" in row
    ensures Apply(Address, row) == Ok(Show(row["district"]) + " - " + Show(row["city"]))
    ensures '-' !in Show(row["district"]) && '-' !in Show(row["city"]) ==>
              Split(Apply(Address, row).value, " - ") == [Show(row["district"]), Show(row["city"])]
  {
    var d, c := Show(row["district"]), Show(row["city"]);
    var tail := [Lit(" - "), Col("city")];
    assert tail[1..] == [Col("city")] && [Col("city")][1..] == [];
    assert Render([], row) == Ok("");
    assert Render([Col("city")], row) == Ok(c) by { assert c + "" == c; }
    assert Render(tail, row) == Ok(" - " + c);
    assert Address.pieces[1..] == tail;
    assert d + (" - " + c) == d + " - " + c;
    if '-' !in d && '-' !in c {
      assert Marker(" - ", 1);
      SplitPair(d, " - ", c, 1);
    }
  }
}
