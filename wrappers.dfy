/** Option and Result, the failure-carrying values used across the model. */
module Wrappers {

  datatype Option<+T> = None | Some(value: T) {
    function GetOr(default: T): T {
      match this
      case Some(v) => v
      case None => default
    }
  }

  /** Python exception classes that the modelled code can raise; ServiceError stands for any
      exception raised inside a call the model leaves out (the Gemini client, the database). */
  datatype PyError = TypeError | ValueError | IndexError | AttributeError | ServiceError

  datatype Result<+R, +E> = Success(value: R) | Failure(error: E)
}
