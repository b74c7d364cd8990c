/** Failure-carrying values used in place of Go's (value, error) pairs and nil pointers. */
module Wrappers {

  /** `None` stands for a Go nil pointer. */
  datatype Option<+T> = None | Some(value: T)

  /** Either a value or the error that Go would return beside a nil value. */
  datatype Result<+R, +E> = Success(value: R) | Failure(error: E)
}
