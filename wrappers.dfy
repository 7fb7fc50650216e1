/** Failure-carrying values shared by the other modules: the model's stand-in
    for a Python exception escaping a call. */
module Wrappers {

  datatype Option<+T> = None | Some(value: T)

  datatype Result<+R, +E> = Success(value: R) | Failure(error: E)
}
