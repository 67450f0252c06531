/** Option and Result, the two failure-carrying shapes the model uses.
    `None` stands for Go's nil error. */
module Wrappers {

  datatype Option<+T> = None | Some(value: T)

  datatype Result<+T, +E> = Success(value: T) | Failure(error: E)
}
