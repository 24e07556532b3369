/** Optional values, results and the Python exceptions the modelled code raises. */
module Wrappers {

  datatype Option<+T> = None | Some(value: T)

  /** The outcome of a Python call that either returns a value or raises. */
  datatype Result<+T> = Ok(value: T) | Err(error: Exception)

  /** The outcome of a Python call that returns nothing or raises. */
  datatype Outcome = Pass | Fail(error: Exception)

  /** The exception classes the modelled code raises or catches. */
  datatype Exception =
    | ValueError(message: string)
    | AttributeError
    | KeyError(key: string)
    | IndexError
    | FileNotFoundError
    | RecursionError
    | OtherException(name: string)
}
