/** Decoded JSON values as the integration's Python code sees them, with the
    few Python operations it applies to them: truthiness (`not x`), `dict.get`,
    and the short-circuit `or`. */
module JsonValue {

  datatype Option<+T> = None | Some(value: T)

  /** A decoded JSON document. `JNull` is Python's `None`; it is also what
      `dict.get` yields for an absent key. */
  datatype Json =
    | JNull
    | JBool(b: bool)
    | JInt(i: int)
    | JReal(r: real)
    | JStr(s: string)
    | JList(items: seq<Json>)
    | JObj(fields: map<string, Json>)

  /** Python truthiness: `None`, `False`, zero and empty containers are falsy. */
  predicate Truthy(j: Json) {
    match j
    case JNull => false
    case JBool(b) => b
    case JInt(i) => i != 0
    case JReal(r) => r != 0.0
    case JStr(s) => |s| > 0
    case JList(items) => |items| > 0
    case JObj(fields) => |fields| > 0
  }

  /** `d.get(key)`: the value stored under `key`, or `None` when it is absent. */
  function Get(d: map<string, Json>, key: string): Json {
    if key in d then d[key] else JNull
  }

  /** `d.get(key, default)`. */
  function GetOr(d: map<string, Json>, key: string, default: Json): Json {
    if key in d then d[key] else default
  }

  /** Python's `a or b`: `a` when it is truthy, otherwise `b` (whatever it is). */
  function Or(a: Json, b: Json): (r: Json)
    ensures Truthy(r) <==> Truthy(a) || Truthy(b)
    ensures Truthy(a) ==> r == a
  {
    if Truthy(a) then a else b
  }

  /** The number a value stands for in Python arithmetic (`bool` is an `int`
      subclass); `None` for values that make subtraction raise `TypeError`. */
  function Numeric(j: Json): (n: Option<real>)
    ensures n.Some? <==> j.JInt? || j.JReal? || j.JBool?
  {
    match j
    case JInt(i) => Some(i as real)
    case JReal(r) => Some(r)
    case JBool(b) => Some(if b then 1.0 else 0.0)
    case _ => None
  }
}
