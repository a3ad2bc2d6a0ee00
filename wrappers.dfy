/** Optional values and results with an error, as used throughout the model. */
module Wrappers {

  /** Python's `Optional[...]`: `None` or a present value. */
  datatype Option<+T> = None | Some(value: T) {
    function GetOr(default: T): T {
      match this
      case Some(v) => v
      case None => default
    }
  }

  /** The outcome of a validation step: a value or the reason it was rejected. */
  datatype Result<+R, +E> = Success(value: R) | Failure(error: E)
}
