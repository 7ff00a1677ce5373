/** Option and Result, used for values that may be missing
    (a localStorage read, an environment lookup, a React context)
    and for operations that fail with an error message. */
module Wrappers {

  datatype Option<+T> = None | Some(value: T)

  datatype Result<+R, +E> = Success(value: R) | Failure(error: E)
}
