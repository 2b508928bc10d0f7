/** Option and Result, used for the tree lookups that may find nothing and
    for the exceptions the parser raises. */
module Wrappers {

  datatype Option<+T> = None | Some(value: T)

  datatype Result<+R, +E> = Success(value: R) | Failure(error: E)
}
