/**
 * Decoded JSON documents as Python sees them after `json.loads`, together
 * with Python's truthiness and `dict.get`, which the normaliser relies on.
 * Numbers are kept as opaque reals: they are copied through and compared
 * with zero only (zero is falsy in Python).
 */
module JsonValue {

  datatype Json =
    | JNull
    | JBool(b: bool)
    | JNum(n: real)
    | JStr(s: string)
    | JArr(items: seq<Json>)
    | JObj(fields: map<string, Json>)

  /** The six values Python's `bool(x)` maps to `False`. */
  const Falsy: set<Json> := {JNull, JBool(false), JNum(0.0), JStr(""), JArr([]), JObj(map[])}

  /** Python's `bool(x)`: None, False, 0, "", [] and {} are falsy. */
  predicate Truthy(j: Json)
    ensures !Truthy(j) <==> j in Falsy
  {
    match j
    case JNull => false
    case JBool(b) => b
    case JNum(n) => n != 0.0
    case JStr(s) => s != []
    case JArr(a) => a != []
    case JObj(m) => m != map[]
  }

  /** Python's `a or b`: the first operand when truthy, else the second. */
  function Or(a: Json, b: Json): (r: Json)
    ensures Truthy(a) ==> r == a
    ensures !Truthy(a) ==> r == b
  {
    if Truthy(a) then a else b
  }

  /** Python's `d.get(k)` on a dict: the value, or None when the key is missing. */
  function Get(d: map<string, Json>, k: string): (r: Json)
    ensures k in d ==> r == d[k]
    ensures k !in d ==> r == JNull
  {
    if k in d then d[k] else JNull
  }
}
