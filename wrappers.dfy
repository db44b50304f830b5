/** Optional values and results with an error message, used wherever the
    source reads a property that may be absent or calls something that throws. */
module Wrappers {

  /** A property that may be absent (`undefined` in the source). */
  datatype Option<+T> = None | Some(value: T) {
    /** The value, or `default` when absent: the source's `x || default`. */
    function GetOr(default: T): T {
      match this
      case Some(v) => v
      case None => default
    }
  }

  /** The outcome of an operation that may throw: the thrown message on failure. */
  datatype Result<+T> = Ok(value: T) | Err(error: string)
}
