/** Results shared by the modules: values that may be missing, and what a parser returns. */
module Wrappers {

  datatype Option<T> = None | Some(value: T)

  /** A parsed value and the position after it. */
  datatype Result<T> = Ok(value: T, pos: nat) | Err
}
