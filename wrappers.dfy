/** Optional values and results with an error, used where the JavaScript code returns
    `null`/`undefined` or throws. */
module Wrappers {
  datatype Option<T> = None | Some(value: T)
  {
    function UnwrapOr(default: T): T {
      match this
      case None => default
      case Some(v) => v
    }
  }

  datatype Result<T, E> = Ok(value: T) | Err(error: E)
}
