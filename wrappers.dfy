/** Optional values (Java's nullable references and Optional) and error outcomes. */
module Wrappers {

  datatype Option<+T> = None | Some(value: T) {
    /** The value, or `default` when there is none (Java's `x != null ? x : default`). */
    function GetOr(default: T): T {
      match this
      case Some(v) => v
      case None => default
    }
  }

  /** A computation that either produces a value or fails with an error, as a thrown exception does. */
  datatype Result<+R, +E> = Success(value: R) | Failure(error: E)
}
