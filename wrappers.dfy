/** Option and Result, for the nil values and the raised exceptions of the Ruby source. */
module Wrappers {

  datatype Option<T> = None | Some(value: T) {
    /** The value, or `default` when None: Ruby's `(x or default)`. */
    function GetOr(default: T): T {
      match this
      case Some(v) => v
      case None => default
    }
  }

  datatype Result<T, E> = Success(value: T) | Failure(error: E)
}
