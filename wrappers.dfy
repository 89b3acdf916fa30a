/** Option and Result, the two failure-carrying shapes the model needs. */
module Wrappers {

  /** A value that may be absent: an unread file, a missing response field,
      JavaScript's `undefined`. */
  datatype Option<+T> = None | Some(value: T)

  /** The outcome of a call that returns a value or throws with a message. */
  datatype Result<+R> = Success(value: R) | Failure(error: string)
}
