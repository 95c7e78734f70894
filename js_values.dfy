/** JavaScript values as the worker's validator and `matrixToObject` see
    them, and JavaScript completions (a value, or a thrown error). */
module JsValues {
  datatype JsValue =
    | JUndefined
    | JNull
    /** A finite JavaScript number. */
    | JNumber(x: real)
    | JString(s: string)
    | JBool(b: bool)
    | JArray(items: seq<JsValue>)
    /** Any non-array object. */
    | JObject

  /** `new Error(message)`, `new TypeError(message)` and the `SyntaxError`
      that `JSON.parse` throws. */
  datatype JsError = Error(message: string) | TypeError(message: string) | SyntaxError(message: string)

  /** The completion of a call: its value, or the error it threw. */
  datatype Completion<T> = Normal(value: T) | Throw(error: JsError)

  /** ECMAScript ToBoolean. */
  predicate Truthy(v: JsValue) {
    match v
    case JUndefined => false
    case JNull => false
    case JNumber(x) => x != 0.0
    case JString(s) => s != ""
    case JBool(b) => b
    case JArray(_) => true
    case JObject => true
  }

  /** `(value) => ['number', 'string', 'boolean'].includes(typeof value)`. */
  predicate IsValidScalar(v: JsValue) {
    v.JNumber? || v.JString? || v.JBool?
  }
}
