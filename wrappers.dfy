/** Option and Result values, and the exceptions the analyzer raises or converts. */
module Wrappers {

  datatype Option<+T> = None | Some(value: T) {
    /** The wrapped value, or `default` when absent (Python's `dict.get(key, default)`). */
    function GetOr(default: T): T {
      match this
      case Some(v) => v
      case None => default
    }
  }

  datatype Result<+R, +E> = Success(value: R) | Failure(error: E)

  /** The Python exceptions that cross the core's boundary. */
  datatype PyError =
    | ValueError(message: string)
      /** any other exception raised by the front-end, carried with its `str(e)` */
    | OtherException(message: string)

  function Max(a: int, b: int): int { if a < b then b else a }
}
