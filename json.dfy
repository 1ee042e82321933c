/** JavaScript values as the bot sees them in decoded API bodies. */
module JsValues {

  /** A decoded JSON body, with `undefined` for properties that are absent.
      Numbers are integers: the bot only compares and subtracts scores. */
  datatype Json =
    | JUndefined
    | JNull
    | JBool(b: bool)
    | JNum(n: int)
    | JStr(s: string)
    | JArr(items: seq<Json>)
    | JObj(fields: map<string, Json>)

  /** `v.key` (or `v?.key`) on a value that does not throw: objects give the
      property or `undefined`; every other value has none of the keys read here. */
  function Get(v: Json, key: string): (r: Json)
    ensures v.JObj? && key in v.fields ==> r == v.fields[key]
    ensures !(v.JObj? && key in v.fields) ==> r == JUndefined
  {
    match v
    case JObj(fields) => if key in fields then fields[key] else JUndefined
    case _ => JUndefined
  }

  /** JavaScript truthiness: false, 0, "", null and undefined are falsy. */
  predicate Truthy(v: Json)
  {
    match v
    case JUndefined => false
    case JNull => false
    case JBool(b) => b
    case JNum(n) => n != 0
    case JStr(s) => s != ""
    case JArr(_) => true
    case JObj(_) => true
  }

  /** `a || b`: the first operand when truthy, otherwise the second. */
  function Or(a: Json, b: Json): (r: Json)
    ensures r == a || r == b
    ensures Truthy(r) <==> Truthy(a) || Truthy(b)
  {
    if Truthy(a) then a else b
  }

  /** `typeof v === "object" && v !== null` */
  predicate IsObjectLike(v: Json)
  {
    v.JObj? || v.JArr?
  }

  /** The relational `a > b` for the operands the bot compares (scores).
      Only two numbers compare; `undefined` and the other shapes give false. */
  predicate Greater(a: Json, b: Json)
  {
    a.JNum? && b.JNum? && a.n > b.n
  }
}
