/** Option and Result values, used for absent values and for the error paths
    that the Python code signals with exceptions. */
module Wrappers {

  datatype Option<+T> = None | Some(value: T)

  datatype Result<+R, +E> = Ok(value: R) | Err(error: E)
}
