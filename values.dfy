/**
 * Python values as they reach the modelled code: SQLite result cells and HTML form
 * fields. A query row (and a pandas row) is a map from column name to value.
 */
module Values {
  import opened Wrappers
  import opened Text

  /** A SQLite cell as Python sees it. A float carries its Python `repr` text, since
      only its printed form matters to the code (arithmetic on it is not modelled). */
  datatype Value = Null | Int(i: int) | Real(repr: string) | Str(s: string)

  /** Python `str(v)`, which is also what an f-string `{v}` prints. */
  function Show(v: Value): string
  {
    match v
    case Null => "None"
    case Int(i) => IntToString(i)
    case Real(r) => r
    case Str(s) => s
  }

  /** Python truthiness: None, 0, 0.0 and "" are false. */
  predicate Truthy(v: Value)
  {
    match v
    case Null => false
    case Int(i) => i != 0
    case Real(r) => r != "0.0" && r != "-0.0"
    case Str(s) => s != ""
  }

  /** A value of a form dict: one value, or a list when the field was multi-valued. */
  datatype Field = One(v: Value) | Many(vs: seq<Value>)

  predicate FieldTruthy(f: Field)
  {
    match f
    case One(v) => Truthy(v)
    case Many(vs) => vs != []
  }

  /** One query result row. */
  type Row = map<string, Value>

  /** Python `int(v)` for a query cell or form string: an integer stays, a decimal
      string is parsed, anything else fails. */
  function IntOf(v: Value): Option<int>
  {
    match v
    case Int(i) => Some(i)
    case Str(s) => ParseInt(s)
    case _ => None
  }

  /** Python `int(v)` as a result: None is a TypeError, a string that is not a decimal
      integer a ValueError. */
  function PyInt(v: Value): (r: Result<int>)
    ensures r.Ok? <==> IntOf(v).Some?
    ensures r.Ok? ==> r.value == IntOf(v).value
  {
    match IntOf(v)
    case Some(i) => Ok(i)
    case None => if v.Null? then Err(TypeError("int")) else Err(ValueError("int"))
  }
}
