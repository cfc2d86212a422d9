/** Option and Result, the two failure-carrying shapes the wrapper's signatures use. */
module Wrappers {

  datatype Option<+T> = None | Some(value: T) {
    /** `unwrap_or`: the held value, or `default` when there is none. */
    function GetOr(default: T): T {
      match this
      case Some(v) => v
      case None => default
    }
  }

  /** Rust's `Result<T, E>`. */
  datatype Result<+T, +E> = Ok(value: T) | Err(error: E) {
    /** Rust's `map`: transforms the success value and keeps the error as it is. */
    function Map<U>(f: T -> U): Result<U, E> {
      match this
      case Ok(v) => Ok(f(v))
      case Err(e) => Err(e)
    }
  }
}
