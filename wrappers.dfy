/** Option and Result, the shapes in which the model reports absent values and
    the error paths of the tool (including the ones where it panics). */
module Wrappers {

  datatype Option<+T> = None | Some(value: T)

  datatype Result<+T, +E> = Ok(value: T) | Err(error: E)
}
