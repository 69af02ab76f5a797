/** Option and Result, the two shapes the model uses for Swift optionals and thrown errors. */
module Wrappers {

  /** A Swift optional: `nil` is None. */
  datatype Option<+T> = None | Some(value: T)

  /** The outcome of a Swift call that can throw: either its value or the error it threw. */
  datatype Result<+R, +E> = Success(value: R) | Failure(error: E)
}
