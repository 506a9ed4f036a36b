/** The Python exceptions that can end an invocation of the handler, and the
    result shapes used to carry them. */
module Outcomes {

  datatype Option<T> = None | Some(value: T)


  /** An exception the handler lets escape; the hosting runtime turns it into a
      failed invocation instead of a chat reply. */
  datatype Exception =
    | KeyError(key: string)          // a missing dictionary key
    | TypeError                      // `hmac.compare_digest` given a non-ASCII str
    | RuntimeError(message: string)  // raised explicitly by the signature check
    | HTTPError(status: int)         // raised by `raise_for_status`

  /** A step that either completes or raises. */
  datatype Check = Pass | Fail(error: Exception)

  /** A computation that either yields a value or raises. */
  datatype Result<T> = Ok(value: T) | Err(error: Exception)
}
