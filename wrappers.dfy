/** Optional values and results with an error, used for Python's `None` and raised exceptions. */
module Wrappers {

  /** `None` stands for Python's `None` (or an absent value); `Some(v)` for a present one. */
  datatype Option<+T> = None | Some(value: T)
  {
    /** The present value, or `default` when absent. */
    function GetOr(default: T): T
    {
      match this
      case Some(v) => v
      case None => default
    }
  }

  /** The outcome of an operation that either returns a value or raises an error. */
  datatype Result<+T, +E> = Success(value: T) | Failure(error: E)
}
