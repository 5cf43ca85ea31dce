/** Optional values and results with an error, as used throughout the model. */
module Wrappers {

  /** A value that may be absent: the model of a C# null reference. */
  datatype Option<+T> = None | Some(value: T) {

    /** The value, or `default` when absent: the C# `??` operator. */
    function GetOr(default: T): (r: T)
      ensures Some? ==> r == value
      ensures None? ==> r == default
    {
      match this
      case Some(v) => v
      case None => default
    }
  }

  /** The outcome of an operation that may throw: either a value or the exception it throws. */
  datatype Result<+T, +E> = Ok(value: T) | Err(error: E)
}
