/** Failure-compatible wrappers used for Python's `None` and for raised exceptions. */
module Wrappers {

  /** `Some(v)` for a present value, `None` for Python's `None` or a missing key. */
  datatype Option<+T> = None | Some(value: T) {
    function GetOr(default: T): T {
      match this
      case Some(v) => v
      case None => default
    }
  }

  /** `Success(v)` for a normal return, `Failure(e)` for a raised exception. */
  datatype Result<+R, +E> = Success(value: R) | Failure(error: E)
}
