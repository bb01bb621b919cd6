/** Option and Result, the two wrappers the rest of the model uses for
    JavaScript's `null`/`undefined` and for settled promises. */
module Wrappers {

  datatype Option<+T> = None | Some(value: T) {
    function GetOr(default: T): T {
      match this
      case Some(v) => v
      case None => default
    }
  }

  /** A settled promise: fulfilled with a value or rejected with a reason. */
  datatype Result<+T, +E> = Success(value: T) | Failure(error: E)
}
