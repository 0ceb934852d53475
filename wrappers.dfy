/** Option and Result, the failure-carrying values used for the source's
    exceptions and for collaborators that may fail. */
module Wrappers {

  datatype Option<+T> = None | Some(value: T)

  datatype Result<+T, +E> = Ok(value: T) | Err(error: E)
}
