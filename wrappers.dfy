/** Option and Result, used for values the source leaves `undefined`/`null` and for thrown errors. */
module Wrappers {

  datatype Option<+T> = None | Some(value: T)

  /** `Err` carries the `message` of the error the source throws or receives. */
  datatype Result<+T> = Ok(value: T) | Err(message: string)
}
