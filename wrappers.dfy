/** Option and Result types, and the exceptions the modelled code raises. */
module Wrappers {

  datatype Option<+T> = None | Some(value: T)

  /** The Python exception classes raised by the modelled code, with their message text. */
  datatype Error =
    | NotImplementedError(detail: string)
    | ValueError(message: string)
    | TypeError(message: string)
    | RuntimeError(message: string)

  /** A computation that either returns a value or raises an exception. */
  datatype Result<+T> = Ok(value: T) | Err(error: Error)
}
