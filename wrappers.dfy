/** Failure-carrying values used for the results of the pipeline's collaborators. */
module Wrappers {

  /** An optional value; `None` stands for Go's `nil` error. */
  datatype Option<+T> = None | Some(value: T)

  /** A completed call's value, or the execution error that kept the call from completing. */
  datatype Result<+T, +E> = Success(value: T) | Failure(error: E)
}
