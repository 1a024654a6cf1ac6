/** Option and Result, used for the macro's optional handler kind and for its
    fatal, expansion-time diagnostics. */
module Wrappers {

  datatype Option<+T> = None | Some(value: T)

  datatype Result<+T, +E> = Ok(value: T) | Err(error: E)
}
