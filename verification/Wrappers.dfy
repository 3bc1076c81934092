/** Optional values and results, for Python's `None` and raised exceptions. */
module Wrappers {

  /** `None` or a present value (Python's `Optional[T]`). */
  datatype Option<+T> = None | Some(value: T) {

    /** The wrapped value, or `default` when there is none. */
    function GetOr(default: T): T {
      match this
      case Some(v) => v
      case None => default
    }
  }

  /** A value, or the message of the exception that was raised instead. */
  datatype Result<+T> = Ok(value: T) | Err(error: string) {

    /** Drops the error message, as an `except ...: return None` handler does. */
    function ToOption(): Option<T> {
      match this
      case Ok(v) => Some(v)
      case Err(_) => None
    }
  }
}
