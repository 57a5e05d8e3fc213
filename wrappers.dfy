/** Option and Result: the outcomes that replace Go's nil values and fatal exits. */
module Wrappers {

  datatype Option<+T> = None | Some(value: T)

  /** `Err` stands for a call that the Go code ends with log.Fatal. */
  datatype Result<+T, +E> = Ok(value: T) | Err(error: E)
}
