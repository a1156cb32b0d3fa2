/** Option and Result values, used wherever the Swift code has an optional or throws. */
module Wrappers {

  /** Swift's `T?`. */
  datatype Option<+T> = None | Some(value: T) {

    /** Swift's `x ?? default`. */
    function GetOr(default: T): T {
      match this
      case Some(v) => v
      case None => default
    }
  }

  /** The outcome of a Swift function that `throws`: a value, or the error it threw. */
  datatype Result<+T, +E> = Success(value: T) | Failure(error: E)
}
