/** Failure-compatible wrapper used across the model for Python's `None`
    and for operations that raise. */
module Wrappers {

  /** `None` stands for Python's `None` or for an operation that raised. */
  datatype Option<+T> = None | Some(value: T) {

    /** Returns the wrapped value, or `default` when there is none. */
    function GetOr(default: T): T {
      match this
      case Some(v) => v
      case None => default
    }
  }
}
