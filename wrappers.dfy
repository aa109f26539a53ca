/** Optional values and results with an error, the two shapes every operation of the
    back end returns: a value that may be absent (an unset document field, an
    `undefined` in a request body) and a value that may be replaced by a thrown error. */
module Wrappers {

  datatype Option<+T> = None | Some(value: T) {
    function GetOr(default: T): T {
      match this
      case Some(v) => v
      case None => default
    }
  }

  datatype Result<+T, +E> = Success(value: T) | Failure(error: E)
}
