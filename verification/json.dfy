/** Decoded JSON values as the Python routes see them, with Python's
    truthiness (`bool(v)`, `x or y`), `dict.get` and `int(v)`.
    Floating-point numbers are not modelled: every number is an integer. */
module Json {
  import opened Common
  import opened Text

  datatype Json =
    | JNull
    | JBool(b: bool)
    | JInt(i: int)
    | JStr(s: string)
    | JArr(items: seq<Json>)
    | JObj(fields: map<string, Json>)

  /** Python `bool(v)`: `None`, `False`, `0`, `""`, `[]` and `{}` are false. */
  predicate Truthy(v: Json) {
    match v
    case JNull => false
    case JBool(b) => b
    case JInt(i) => i != 0
    case JStr(s) => s != ""
    case JArr(items) => |items| > 0
    case JObj(fields) => |fields| > 0
  }

  /** Python `x or y`. */
  function Or(x: Json, y: Json): (r: Json)
    ensures Truthy(x) ==> r == x
    ensures !Truthy(x) ==> r == y
  {
    if Truthy(x) then x else y
  }

  /** Python `d.get(k)`: `None` (here `JNull`) when the key is absent. */
  function Field(d: map<string, Json>, k: string): (r: Json)
    ensures k !in d ==> r == JNull
  {
    if k in d then d[k] else JNull
  }

  /** Python `int(v)`. `None` stands for the `TypeError` or `ValueError`
      it raises: `int(None)`, `int([..])`, `int({..})` and a string that
      is not an optionally signed run of digits. */
  function PyInt(v: Json): (r: Option<int>)
    ensures v.JInt? ==> r == Some(v.i)
    ensures v.JNull? || v.JArr? || v.JObj? ==> r.None?
  {
    match v
    case JBool(b) => Some(if b then 1 else 0)
    case JInt(i) => Some(i)
    case JStr(s) => PyIntOfString(s)
    case _ => None
  }

  /** Python `int(d.get(k) or 0)`: an absent or falsy field reads as 0. */
  function IntOrZero(d: map<string, Json>, k: string): (r: Option<int>)
    ensures !Truthy(Field(d, k)) ==> r == Some(0)
    ensures k in d && d[k].JInt? ==> r == Some(d[k].i)
  {
    PyInt(Or(Field(d, k), JInt(0)))
  }

  /** A number sent as its decimal string reads back unchanged. */
  lemma IntOrZeroDecimal(d: map<string, Json>, k: string, n: int)
    requires k in d && d[k] == JStr(IntToDecimal(n))
    ensures IntOrZero(d, k) == Some(n)
  {
    DecimalRoundTrip(n);
  }
}
