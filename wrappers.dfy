// Option and Result: the nillable fields and (value, error) pairs of the backend,
// and the rejected promises of the front end.
module Wrappers {
  datatype Option<T> = None | Some(value: T)

  datatype Result<T, E> = Success(value: T) | Failure(error: E)

  /** An operation that returns only an error value (`error` in Go, nil on success). */
  datatype Outcome<E> = Pass | Fail(error: E)
}
