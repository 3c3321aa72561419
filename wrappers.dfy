/** Option and Result, the two failure-carrying wrappers the model uses. */
module Wrappers {

  /** A value that may be absent (a nil slice or pointer on the Go side). */
  datatype Option<+T> = None | Some(value: T)

  /** The outcome of one remote call: the response, or the error's message. */
  datatype Result<+T> = Success(value: T) | Failure(error: string)
}
