/** Optional values and fallible results, the two shapes every reply of the
    façade is built from. */
module Wrappers {

  /** A value that may be missing: Go's nil pointer or nil map. */
  datatype Option<+T> = None | Some(value: T) {

    /** The carried value, or `default` when there is none. */
    function GetOr(default: T): T {
      match this
      case Some(v) => v
      case None => default
    }
  }

  /** Either a value or an error: Go's `(value, err)` pair where exactly one
      of the two is meaningful. */
  datatype Result<+R, +E> = Success(value: R) | Failure(error: E)
}
