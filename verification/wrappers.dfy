/** Optional values and results shared by the model: a parsed field that may be
    missing (JavaScript's NaN or undefined) and an outcome that may be an error. */
module Wrappers {

  /** A value that may be absent. */
  datatype Option<+T> = None | Some(value: T) {

    /** The value, or `default` when it is absent. */
    function GetOr(default: T): T {
      match this
      case Some(v) => v
      case None => default
    }
  }

  /** A successful value or an error. */
  datatype Result<+R, +E> = Success(value: R) | Failure(error: E)
}
