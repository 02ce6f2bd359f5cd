/** Failure-carrying values used throughout the model: a JavaScript value that
    may be null/undefined/NaN is an `Option`, and an operation that reports a
    problem through `alert(...)` instead of changing state returns a `Result`. */
module Results {

  datatype Option<+T> = None | Some(value: T) {

    /** The value, or `default` when there is none (JavaScript's `x || default`
        when `x` can only be falsy by being absent). */
    function GetOr(default: T): T {
      match this
      case Some(v) => v
      case None => default
    }
  }

  datatype Result<+T, +E> = Ok(value: T) | Err(error: E)
}
