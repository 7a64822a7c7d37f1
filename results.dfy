/** Optional values and results with an error, shared by every module. */
module Results {

  /** A value that may be absent: Python's `None` or a value. */
  datatype Option<+T> = None | Some(value: T) {

    /** The value when present, `current` otherwise. */
    function GetOr(current: T): T {
      match this
      case Some(v) => v
      case None => current
    }
  }

  /** The outcome of an operation that may raise. */
  datatype Result<+T, +E> = Ok(value: T) | Err(error: E)
}
