/** Option and Result, the two failure-carrying datatypes the rest of the model uses
    in place of Python's None and raised exceptions. */
module Wrappers {

  /** A value that may be absent (Python's None). */
  datatype Option<+T> = None | Some(value: T) {

    /** The carried value, or `default` when there is none (Python's `x if x is not None else default`). */
    function GetOr(default: T): T {
      match this
      case Some(v) => v
      case None => default
    }
  }

  /** The outcome of a call that may raise: Ok(value) or Err(message), where the
      message is what Python's `str(e)` gives for the exception raised. */
  datatype Result<+T, +E> = Ok(value: T) | Err(error: E)
}
