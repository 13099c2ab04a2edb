/** Values shared by every part of the dashboard: an optional value (a field
    that may be null, undefined or absent) and a JSON value with JavaScript's
    notion of truthiness. */
module Values {

  datatype Option<+T> = None | Some(value: T) {
    /** `x || d` / `x ?? d` on a value that is either present or missing */
    function GetOr(default: T): T {
      match this
      case Some(v) => v
      case None => default
    }
  }

  /** A JSON value as the browser sees it after `JSON.parse` / `response.json()`.
      Numbers are modelled as reals (no NaN, no infinities). */
  datatype Json =
    | JNull
    | JBool(b: bool)
    | JNum(n: real)
    | JStr(s: string)
    | JArr(items: seq<Json>)
    | JObj(fields: map<string, Json>)

  /** JavaScript truthiness: null, false, 0 and the empty string are falsy;
      every array and every object, even an empty one, is truthy. */
  predicate Truthy(j: Json) {
    match j
    case JNull => false
    case JBool(b) => b
    case JNum(n) => n != 0.0
    case JStr(s) => s != ""
    case JArr(_) => true
    case JObj(_) => true
  }

  /** Truthiness of a value that may be missing altogether (`undefined`). */
  predicate TruthyOpt(j: Option<Json>) {
    j.Some? && Truthy(j.value)
  }
}
