/** Optional values and fallible results, standing in for Python's None and raised exceptions. */
module Wrappers {

  /** A value that may be absent (Python's `None`). */
  datatype Option<+T> = None | Some(value: T) {
    function GetOr(default: T): T {
      match this
      case Some(v) => v
      case None => default
    }
  }

  /** The result of an operation that either returns a value or raises with a message. */
  datatype Result<+T> = Success(value: T) | Failure(error: string)
}
