/** Option and Result, the two failure-carrying shapes used by the rest of the model. */
module Wrappers {

  /** A value that may be absent; stands for Python's `X | None`. */
  datatype Option<+T> = None | Some(value: T)

  /** The outcome of an operation that can raise; `Failure` carries the exception's message. */
  datatype Result<+R, +E> = Success(value: R) | Failure(error: E)
}
