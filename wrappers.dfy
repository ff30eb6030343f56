/** Optional values and the outcome of an asynchronous call. */
module Wrappers {

  /** A value that may be absent: an omitted argument or a missing field. */
  datatype Option<+T> = None | Some(value: T) {
    function GetOr(default: T): T {
      match this
      case Some(v) => v
      case None => default
    }
  }

  /** What an observable delivers to `subscribe`: its `next` value or its `error`. */
  datatype Result<+T, +E> = Success(value: T) | Failure(error: E)
}
