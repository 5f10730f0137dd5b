/** Option and Result, used for Python's `None` on optional base values and for
    the TypeError a constructor raises on an unexpected keyword argument. */
module Wrappers {

  datatype Option<+T> = None | Some(value: T)

  datatype Result<+R, +E> = Success(value: R) | Failure(error: E)
}
