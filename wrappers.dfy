/** Option and Result values for the error paths of the modelled code. */
module Wrappers {

  datatype Option<+T> = None | Some(value: T) {
    function GetOr(default: T): T {
      match this
      case Some(v) => v
      case None => default
    }
  }

  datatype Result<+T, +E> = Ok(value: T) | Err(error: E)
}

/** HTTP errors raised by the handlers (`HTTPException(status_code, detail)`). */
module Http {
  datatype HttpError = HttpError(status: nat, detail: string)
}
