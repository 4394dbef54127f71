/** Optional values (`undefined` or a value), and results that are either a value or a thrown error. */
module Wrappers {

  datatype Option<+T> = None | Some(value: T) {
    function GetOr(default: T): T {
      match this
      case Some(v) => v
      case None => default
    }
  }

  /** An operation either returns a value or throws an error. */
  datatype Result<+T, +E> = Success(value: T) | Failure(error: E)
}
