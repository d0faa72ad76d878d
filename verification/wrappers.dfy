/** Optional values and results with an error, as used across the model. */
module Wrappers {

  /** A value that may be absent: Python's `None` or a value. */
  datatype Option<+T> = None | Some(value: T) {
    /** The value, or `default` when absent (Python's `x or default`, `dict.get(k, default)`). */
    function GetOr(default: T): T {
      match this
      case Some(v) => v
      case None => default
    }
  }

  /** The outcome of an operation that can raise: a value, or the error it raises. */
  datatype Result<+R, +E> = Ok(value: R) | Err(error: E)
}
