/** Option and Result values, standing in for Python's `None`-or-value and
    value-or-exception outcomes. */
module Wrappers {

  /** A value that may be absent (Python `None`). */
  datatype Option<+T> = None | Some(value: T) {

    /** The value, or `default` when absent (Python's `d.get(k, default)`). */
    function GetOr(default: T): T {
      match this
      case Some(v) => v
      case None => default
    }
  }

  /** Either a value or the fault that prevented it. */
  datatype Result<+T, +E> = Ok(value: T) | Err(error: E)
}
