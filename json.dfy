/** The part of Python's JSON values that `_parse_response` touches:
    subscripting with `[key]` and `[index]`, and truthiness. `json.loads`
    itself is not modelled, its result is an input. */
module JsonData {

  datatype Json =
    | JNull
    | JBool(b: bool)
    | JNum(x: real)
    | JStr(s: string)
    | JArr(items: seq<Json>)
    | JObj(fields: map<string, Json>)

  /** A subscript, `x['name']` or `x[i]`. */
  datatype Key = Field(name: string) | Index(i: nat)

  /** The outcome of a subscript: a value, a KeyError or IndexError (Missing),
      or a TypeError (the value cannot be subscripted that way). */
  datatype Lookup = Found(v: Json) | Missing | Raises

  /** `j[k]` with Python's rules: a dict has only string keys, a list only
      integer indices, a str gives its one-character substring, and numbers,
      booleans and None cannot be subscripted. */
  function Sub(j: Json, k: Key): (r: Lookup)
    ensures r.Raises? <==> (j.JNull? || j.JBool? || j.JNum?
                             || ((j.JArr? || j.JStr?) && k.Field?))
  {
    match (j, k)
    case (JObj(m), Field(n)) => if n in m then Found(m[n]) else Missing
    case (JObj(_), Index(_)) => Missing
    case (JArr(xs), Index(i)) => if i < |xs| then Found(xs[i]) else Missing
    case (JStr(s), Index(i)) => if i < |s| then Found(JStr([s[i]])) else Missing
    case _ => Raises
  }

  /** `j[k0][k1]...` evaluated left to right, stopping at the first error. */
  function Walk(j: Json, path: seq<Key>): Lookup
    decreases |path|
  {
    if |path| == 0 then Found(j)
    else
      match Sub(j, path[0])
      case Found(v) => Walk(v, path[1..])
      case Missing => Missing
      case Raises => Raises
  }

  /** `bool(j)` */
  predicate Truthy(j: Json)
  {
    match j
    case JNull => false
    case JBool(b) => b
    case JNum(x) => x != 0.0
    case JStr(s) => |s| > 0
    case JArr(xs) => |xs| > 0
    case JObj(m) => |m| > 0
  }
}
