/** Optional values and results with a message, shared by every module of the model. */
module Common {

  /** A value that may be absent (`null` / `undefined` in the storefront). */
  datatype Option<T> = None | Some(value: T) {
    function GetOr(default: T): T {
      match this
      case Some(v) => v
      case None => default
    }
  }

  /** The outcome of a user action: the value it produced, or the error message it shows. */
  datatype Result<T> = Ok(value: T) | Err(msg: string)
}
