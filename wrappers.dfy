/** Optional values and pass/fail outcomes shared by every module. */
module Wrappers {

  /** A value that may be absent (JavaScript `undefined` or `null`, depending on context). */
  datatype Option<+T> = None | Some(value: T) {
    function GetOr(default: T): T {
      match this
      case Some(v) => v
      case None => default
    }
  }

  /** The completion of an operation that returns nothing but may throw `error`. */
  datatype Outcome<+E> = Pass | Fail(error: E)
}
