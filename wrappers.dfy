/** Option and Result, the two shapes the model uses for Java's null and for
    Java's exceptions. */
module Wrappers {

  /** A value that may be absent (Java `null`). */
  datatype Option<T> = None | Some(value: T)
  {
    /** The value, or `default` when absent (Java's `x != null ? x : default`). */
    function GetOr(default: T): T
    {
      match this
      case Some(v) => v
      case None => default
    }
  }

  /** The outcome of an operation that may throw: `Err` carries what was thrown. */
  datatype Result<T, E> = Ok(value: T) | Err(error: E)
}
