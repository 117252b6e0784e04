/** Option and Result, and Python's truthiness test for an optional string. */
module Common {

  /** A value that may be absent: Python's `None` or a missing dictionary key. */
  datatype Option<+T> = None | Some(value: T) {
    function GetOr(default: T): T {
      match this
      case Some(v) => v
      case None => default
    }
  }

  /** The outcome of an operation that raises or reports an error in the source. */
  datatype Result<+T, +E> = Ok(value: T) | Err(error: E)

  /** `bool(x)` for `x` that is either `None` or a `str`: only a non-empty string is truthy. */
  predicate Truthy(x: Option<string>) {
    x.Some? && x.value != ""
  }
}
