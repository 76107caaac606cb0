/** Option and Result, the two failure-carrying wrappers used throughout the model. */
module Wrappers {

  datatype Option<+T> = None | Some(value: T)

  /** A completed call of an async function: its resolved value, or what it threw. */
  datatype Result<+T, +E> = Success(value: T) | Failure(error: E)
}
