/** Option and Result, the failure-compatible wrappers used throughout the model
    for C# nullable references and for exceptions turned into values. */
module Wrappers {

  datatype Option<+T> = None | Some(value: T)

  datatype Result<+R, +E> = Success(value: R) | Failure(error: E)
}
