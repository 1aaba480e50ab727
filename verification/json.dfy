/**
 * Decoded JSON values, as Python's `json` module hands them to the bot, and the
 * few dictionary operations the bot applies to them.
 */
module Json {

  /**
   * A decoded JSON document. Integers and fractional numbers are told apart
   * because Python decodes them to `int` and `float`; a fraction is kept as the
   * decimal `digits / 10^scale` (no floating-point arithmetic is done on it).
   */
  datatype Json =
    | JNull
    | JBool(b: bool)
    | JInt(i: int)
    | JDecimal(digits: int, scale: nat)
    | JStr(s: string)
    | JArr(items: seq<Json>)
    | JObj(fields: map<string, Json>)

  /** Python's truth value of the decoded value (`if value:`). */
  predicate Truthy(j: Json)
  {
    match j
    case JNull => false
    case JBool(b) => b
    case JInt(i) => i != 0
    case JDecimal(d, _) => d != 0
    case JStr(s) => s != ""
    case JArr(a) => a != []
    case JObj(m) => m != map[]
  }

  /** `m.get(key, default)` on a dictionary. */
  function Get(m: map<string, Json>, key: string, default: Json): (r: Json)
    ensures key in m ==> r == m[key]
    ensures key !in m ==> r == default
  {
    if key in m then m[key] else default
  }

  /** The name of the Python type the value decodes to, as Python's error messages spell it. */
  function TypeName(j: Json): string
  {
    match j
    case JNull => "NoneType"
    case JBool(_) => "bool"
    case JInt(_) => "int"
    case JDecimal(_, _) => "float"
    case JStr(_) => "str"
    case JArr(_) => "list"
    case JObj(_) => "dict"
  }

  /** An empty dictionary, `{}`. */
  const EmptyObject: Json := JObj(map[])
}
