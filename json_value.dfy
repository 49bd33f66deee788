/**
 * JavaScript values as the booking frontend handles them: parsed JSON
 * documents, `undefined`, and the truthiness rule that `if (x)`, `!x`,
 * `x || y`, `x?.length` and `filter(Boolean)` apply to them.
 */
module JsonValue {

  /** `None` stands for a value that is absent (`undefined` or a missing key). */
  datatype Option<+T> = None | Some(value: T) {
    function GetOr(default: T): T {
      match this
      case Some(v) => v
      case None => default
    }
  }

  /** A JSON document. Numbers are restricted to integers; NaN is not modelled. */
  datatype Json =
    | JNull
    | JBool(b: bool)
    | JNum(n: int)
    | JStr(s: string)
    | JArr(items: seq<Json>)
    | JObj(fields: map<string, Json>)

  /** JavaScript truthiness of a value that may be undefined. */
  predicate Truthy(v: Option<Json>) {
    match v
    case None => false
    case Some(JNull) => false
    case Some(JBool(b)) => b
    case Some(JNum(n)) => n != 0
    case Some(JStr(s)) => s != ""
    case Some(JArr(_)) => true
    case Some(JObj(_)) => true
  }

  /** Optional member access `v?.[key]`: undefined unless `v` is an object holding `key`. */
  function Member(v: Option<Json>, key: string): Option<Json> {
    if v.Some? && v.value.JObj? && key in v.value.fields then Some(v.value.fields[key]) else None
  }

  /** The `length` property of a value (`v?.length`), or 0 when it has none. */
  function Length(v: Option<Json>): nat {
    match v
    case Some(JArr(items)) => |items|
    case Some(JStr(s)) => |s|
    case _ => 0
  }

  /** The string a value holds, when it is a string. */
  function AsText(v: Option<Json>): Option<string> {
    if v.Some? && v.value.JStr? then Some(v.value.s) else None
  }
}
