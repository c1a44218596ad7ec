/** Failure-carrying results shared by the error taxonomy and the NFS driver. */
module Wrappers {

  datatype Option<+T> = None | Some(value: T)

  /** A value or an error: Go's `(T, error)` return pair. */
  datatype Result<+T, +E> = Success(value: T) | Failure(error: E)

  /** No value, possibly an error: Go's bare `error` return. */
  datatype Outcome<+E> = Pass | Fail(error: E)
}
