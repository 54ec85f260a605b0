/** Failure-compatible wrappers shared by the whole model: an optional value
    (a missing dictionary key, an `undefined` in the dashboard) and a result
    carrying either a value or an error (an HTTP error, a raised exception). */
module Wrappers {

  datatype Option<+T> = None | Some(value: T) {

    /** Returns the value, or `default` when absent (Python's `dict.get(k, d)`,
        JavaScript's `x || d` on objects). */
    function GetOr(default: T): T {
      match this
      case Some(v) => v
      case None => default
    }
  }

  datatype Result<+R, +E> = Success(value: R) | Failure(error: E)
}
