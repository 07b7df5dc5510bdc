/** Option and Result values, standing for JavaScript's `null` and for an
    operation that either yields a value or fails with a message. */
module Wrappers {

  datatype Option<+T> = None | Some(value: T)

  datatype Result<+T, +E> = Success(value: T) | Failure(error: E)
}
