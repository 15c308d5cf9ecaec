/** Option and Result: the error paths of the modelled code (a Go `error`, a `panic`,
    or a process exit through `Fail`) become values instead of preconditions. */
module Wrappers {

  datatype Option<+T> = None | Some(value: T)

  datatype Result<+T, +E> = Ok(value: T) | Err(error: E)
}
