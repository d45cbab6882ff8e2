/** Option and Result, the two shapes the server's outcomes take. */
module Wrappers {

  /** A value that may be absent: Python's `None` versus a present value. */
  datatype Option<+T> = None | Some(value: T) {
    function GetOr(default: T): T
    {
      match this
      case Some(v) => v
      case None => default
    }
  }

  /** The outcome of a call that either succeeds with a value or raises. */
  datatype Result<+R, +E> = Success(value: R) | Failure(error: E)
}
