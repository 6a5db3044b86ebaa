/** Option and Result, used for the source's absent values and for the
    exception that escapes the detector. */
module Wrappers {

  datatype Option<+T> = None | Some(value: T)

  datatype Result<+R, +E> = Success(value: R) | Failure(error: E)
}
