/** Option and Result values for the error paths of the inspection tools. */
module Wrappers {

  datatype Option<+T> = None | Some(value: T)

  datatype Result<+T, +E> = Ok(value: T) | Err(error: E)

  /** An HTTP error answer: status code and the message of its JSON body. */
  datatype HttpError = HttpError(code: int, message: string)
}
