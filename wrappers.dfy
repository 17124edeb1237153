/** Failure-carrying return values: Go's `(T, error)` and bare `error` results. */
module Wrappers {

  datatype Option<T> = None | Some(value: T)

  /** A value, or the error that prevented computing it. */
  datatype Result<T, E> = Ok(value: T) | Err(error: E)

  /** The outcome of an operation that returns only an error (nil is `Pass`). */
  datatype Outcome<E> = Pass | Fail(error: E)
}
