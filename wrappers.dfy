/** Option and Result, the two ways a Go `(value, error)` pair or a nil pointer is returned. */
module Wrappers {

  datatype Option<T> = None | Some(value: T)

  /** A Go error value: only its message is observable. */
  datatype Error = Error(message: string)

  datatype Result<T> = Success(value: T) | Failure(error: Error)
}
