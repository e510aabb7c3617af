/** Optional values and success/failure results, used wherever the
    application returns `undefined`, throws, or answers with an error object. */
module Wrappers {

  /** A value that may be absent (`undefined` in the application). */
  datatype Option<+T> = None | Some(value: T) {

    /** The value, or `default` when absent. */
    function GetOr(default: T): T {
      match this
      case Some(v) => v
      case None => default
    }
  }

  /** Either a successful value or the error that was thrown instead. */
  datatype Result<+R, +E> = Success(value: R) | Failure(error: E)
}
