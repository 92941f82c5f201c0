/** The optional and failure-carrying results shared by the rest of the model. */
module Wrappers {

  /** A value that may be absent (Ruby's `nil` where the source returns it). */
  datatype Option<+T> = None | Some(value: T)

  /** The outcome of a call that either answers or raises. */
  datatype Result<+R, +E> = Success(value: R) | Failure(error: E)
}
