/** Option and Result values for the "undefined" and "thrown" outcomes of the
    JavaScript source. */
module Wrappers {

  datatype Option<+T> = None | Some(value: T)

  datatype Result<+T, +E> = Ok(value: T) | Err(error: E)
}
