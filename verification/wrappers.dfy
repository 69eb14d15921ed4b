/** Option and Result: the absent marker (Python's None) and the
    value-or-exception outcome of a call. */
module Wrappers {

  datatype Option<+T> = None | Some(value: T)

  /** Either the value a call returns or the exception it raises. */
  datatype Result<+R, +E> = Success(value: R) | Failure(error: E)
}
