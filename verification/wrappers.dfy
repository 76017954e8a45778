/** Option and Result values standing in for the C code's NULL pointers and
    its `exit()` error paths. */
module Wrappers {

  /** A value that may be absent: the model of a C pointer that may be NULL. */
  datatype Option<+T> = None | Some(value: T)

  /** Either a value or the error that stopped the computation. */
  datatype Result<+T, +E> = Ok(value: T) | Err(error: E)
}
