/** Optional values (Go's nil pointers) and results (Go's `value, err` pairs). */
module Wrappers {

  /** A value that may be absent: a Go pointer that may be nil. */
  datatype Option<T> = None | Some(value: T)

  /** The outcome of an operation that returns either a value or an error. */
  datatype Result<T, E> = Success(value: T) | Failure(error: E)
}
