/** Option and Result, the failure-carrying values used throughout the model
    in place of Java's null returns and checked exceptions. */
module Wrappers {

  datatype Option<+T> = None | Some(value: T)

  datatype Result<+R, +E> = Success(value: R) | Failure(error: E)
}
