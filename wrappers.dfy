/** Failure-carrying datatypes shared by every module of the model. */
module Wrappers {

  /** Python's `None` versus a present value. */
  datatype Option<+T> = None | Some(value: T) {
    function GetOr(default: T): T {
      match this
      case Some(v) => v
      case None => default
    }
  }

  /** The Python exception classes the core raises or lets propagate. */
  datatype ErrorKind =
    | ValueError
    | KeyError
    | TypeError
    | AttributeError
    | JsonDecodeError
    | GeminiSafetyError
    | FileNotFoundError
    | NotADirectoryError
    | ExternalError   // raised by a collaborator (model endpoint, cache, vector store)

  /** A raised exception: its class and its `str(e)`. */
  datatype Error = Error(kind: ErrorKind, message: string)

  /** Either a returned value or a raised exception. */
  datatype Result<+T> = Ok(value: T) | Err(error: Error)
}
