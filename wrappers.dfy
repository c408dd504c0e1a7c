/** Option and Result: the null references and the thrown exceptions of the
    modelled code become values of these two datatypes. */
module Wrappers {

  datatype Option<+T> = None | Some(value: T)

  datatype Result<+R, +E> = Success(value: R) | Failure(error: E)
}
