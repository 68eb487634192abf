/** Option and Result values shared by every module of the model. */
module Wrappers {

  datatype Option<+T> = None | Some(value: T) {
    /** The value, or a default when absent (Python's `x or default` on a possibly-None value). */
    function GetOr(default: T): T {
      match this
      case Some(v) => v
      case None => default
    }
  }

  /** A value or the error that a Python function would raise instead. */
  datatype Result<+T, +E> = Ok(value: T) | Err(error: E)
}
