/** Optional values and typed results, the two shapes Swift's `T?` and
    `Result<T, E>` take in this model. */
module Wrappers {

  datatype Option<+T> = None | Some(value: T) {
    /** Swift's `self ?? default`. */
    function GetOr(default: T): T {
      match this
      case Some(v) => v
      case None => default
    }
  }

  datatype Result<+T, +E> = Success(value: T) | Failure(error: E)

  /** `Result<Void, E>`: success carries nothing. */
  datatype Outcome<+E> = Pass | Fail(error: E)
}
