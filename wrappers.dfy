/** Option and Result values used wherever the source has `None`/`null`, a raised HTTP error or a thrown error. */
module Wrappers {

  /** A value that may be absent: Python `None`, JavaScript `null` or `undefined`, a missing JSON key. */
  datatype Option<+T> = None | Some(value: T) {

    /** The value, or `default` when absent (JavaScript `??`). */
    function GetOr(default: T): T {
      match this
      case Some(v) => v
      case None => default
    }
  }

  /** The outcome of an operation that can fail with an error of type E. */
  datatype Result<+T, +E> = Ok(value: T) | Err(error: E)
}
