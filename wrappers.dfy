/** Option and Result, the failure-carrying values the analytics return instead of
    raising or returning an empty frame. */
module Wrappers {

  datatype Option<+T> = None | Some(value: T)

  datatype Result<+T, +E> = Success(value: T) | Failure(error: E)
}
