/** Option and Result: absent values and raised errors of the modelled code. */
module Wrappers {

  datatype Option<+T> = None | Some(value: T)

  /** `Err(msg)` stands for an exception whose text is `msg`. */
  datatype Result<+T> = Ok(value: T) | Err(msg: string)
}
