/** Option and Result, the two failure-carrying values the model uses for
    Python's `None` and for the exceptions a handler can raise. */
module Wrappers {

  datatype Option<+T> = None | Some(value: T)

  datatype Result<+R, +E> = Success(value: R) | Failure(error: E)
}
