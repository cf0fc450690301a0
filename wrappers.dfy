/** Failure-carrying values: a Python value that may be `None`, and a
    computation that either returns a value or raises an exception. */
module Wrappers {

  /** A Python value that may be `None`. */
  datatype Option<+T> = None | Some(value: T)

  /** A computation that returns `value` or raises `error`. */
  datatype Result<+T, +E> = Ok(value: T) | Err(error: E)
}
