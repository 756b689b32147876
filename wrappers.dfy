/** Optional values: a key that is absent from a partial record, or a nullable result. */
module Wrappers {

  datatype Option<+T> = None | Some(value: T) {

    /** The wrapped value, or `default` when there is none (the `??` of a partial update). */
    function GetOr(default: T): T {
      match this
      case Some(v) => v
      case None => default
    }
  }

  /** A value, or the error an app function throws instead of returning one. */
  datatype Result<+T, +E> = Success(value: T) | Failure(error: E)
}
