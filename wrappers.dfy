/** Optional values and the outcome of a JavaScript expression that may throw. */
module Wrappers {

  /** A value that may be absent: `undefined` (and, where the source treats them alike, `null`). */
  datatype Option<+T> = None | Some(value: T) {
    /** The value, or `default` when absent. */
    function GetOr(default: T): T {
      match this
      case Some(v) => v
      case None => default
    }
  }

  /** The errors the modelled JavaScript can raise. */
  datatype JsError = TypeError

  /** Either the value an expression evaluates to, or the error it throws. */
  datatype Result<+T> = Ok(value: T) | Throws(error: JsError)
}
