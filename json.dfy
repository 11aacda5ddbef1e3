/**
 * JSON values as produced by Python's `json.loads` (also the arguments of a
 * tool call), and the two ways the application reads them: `dict.get(key,
 * default)` and iteration with a `for` loop whose body immediately subscripts
 * or calls `.get` on each element. A number without fraction or exponent is
 * an integer; any other number is a `JReal`.
 */
module Json {
  import opened Wrappers

  datatype Json =
    | JNull
    | JBool(b: bool)
    | JNum(n: int)
    | JReal(r: real)
    | JStr(s: string)
    | JArr(items: seq<Json>)
    | JObj(fields: map<string, Json>)

  /** `obj.get(key)`, with `None` for a missing key (the caller supplies the default). */
  function Lookup(fields: map<string, Json>, key: string): (r: Option<Json>)
    ensures r.Some? <==> key in fields
    ensures r.Some? ==> r.value == fields[key]
  {
    if key in fields then Some(fields[key]) else None
  }

  /**
   * The elements a Python `for x in v:` loop visits when its body starts with
   * `x.get(...)` or `x[key]`; `None` when that loop raises before creating anything.
   * A list yields its items. An empty string or dict is iterated zero times. A
   * non-empty string or dict yields strings, whose first `.get` raises; null,
   * booleans and numbers are not iterable at all.
   */
  function Elements(v: Json): (r: Option<seq<Json>>)
    ensures v.JArr? ==> r == Some(v.items)
    ensures r.Some? && r.value != [] ==> v.JArr?
  {
    match v
    case JArr(items) => Some(items)
    case JStr(s) => if s == "" then Some([]) else None
    case JObj(m) => if m == map[] then Some([]) else None
    case _ => None
  }
}
