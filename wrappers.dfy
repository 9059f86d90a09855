/** Small failure-carrying datatypes shared by the model. */
module Wrappers {

  datatype Option<+T> = None | Some(value: T)

  /** A success value or an error value. */
  datatype Result<+T, +E> = Ok(value: T) | Err(error: E)

  /**
   * The `(value, error)` pair a Go function returns. Unlike `Result`, the
   * value is present even when `err` is set: callers in the modelled code
   * assign it before they look at the error.
   */
  datatype Returned<+T, +E> = Returned(value: T, err: Option<E>) {
    predicate Failed() { err.Some? }
  }
}
