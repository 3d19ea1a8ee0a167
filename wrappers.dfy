/** Option and Result, used for JavaScript's `undefined` return values and for
    the TypeError a call on a destroyed store raises. */
module Wrappers {

  datatype Option<T> = None | Some(value: T)

  datatype Result<T, E> = Success(value: T) | Failure(error: E)
}
