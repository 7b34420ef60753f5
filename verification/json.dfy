/** Parsed JSON values as the server sends them and the browser receives them. */
module Json {
  import opened Wrappers

  /** A JSON value. Numbers are exact reals; an object maps each of its keys to a value. */
  datatype Json =
    | JNull
    | JBool(b: bool)
    | JNum(n: real)
    | JStr(s: string)
    | JArr(items: seq<Json>)
    | JObj(fields: map<string, Json>)

  /** JavaScript truthiness: null, false, 0 and "" are falsy; arrays and objects are always truthy. */
  predicate Truthy(j: Json) {
    match j
    case JNull => false
    case JBool(b) => b
    case JNum(n) => n != 0.0
    case JStr(s) => s != ""
    case JArr(_) => true
    case JObj(_) => true
  }

  /** The empty object `{}`. */
  const EmptyObject: Json := JObj(map[])

  /** Property access `j[key]`: `None` (JavaScript `undefined`) unless `j` is an object carrying `key`. */
  function Get(j: Json, key: string): (r: Option<Json>)
    ensures r.Some? <==> j.JObj? && key in j.fields
    ensures r.Some? ==> r.value == j.fields[key]
  {
    if j.JObj? && key in j.fields then Some(j.fields[key]) else None
  }

  /** Property access read as a number: `Some(n)` only for a numeric value. */
  function GetNumber(j: Json, key: string): (r: Option<real>)
    ensures r.Some? <==> Get(j, key).Some? && Get(j, key).value.JNum?
    ensures r.Some? ==> Get(j, key) == Some(JNum(r.value))
  {
    match Get(j, key)
    case Some(JNum(n)) => Some(n)
    case _ => None
  }

  /**
   * `j?.[key] ?? fallback` for a numeric field: the number when there is one,
   * and the fallback when the field is absent or null. Other kinds of value
   * are read as absent.
   */
  function NumberOr(j: Json, key: string, fallback: real): (r: real)
    ensures GetNumber(j, key).Some? ==> r == GetNumber(j, key).value
    ensures GetNumber(j, key).None? ==> r == fallback
  {
    match GetNumber(j, key)
    case Some(n) => n
    case None => fallback
  }

  /** `shown` is the figure a card displays for `j?.[key] ?? fallback`: the field's number if it has one, else the fallback. */
  predicate ShowsField(j: Json, key: string, fallback: real, shown: real) {
    (GetNumber(j, key).Some? ==> shown == GetNumber(j, key).value)
    && (GetNumber(j, key).None? ==> shown == fallback)
  }
}
