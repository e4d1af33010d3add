/** Option and Result values: the store's `{ data, error }` answers and the
    source's optional (`?:`) fields. */
module Wrappers {

  datatype Option<+T> = None | Some(value: T) {
    function GetOr(default: T): T {
      match this
      case Some(v) => v
      case None => default
    }
  }

  /** `{ data, error: null }` is Ok(data); `{ data: null, error: { message } }` is Err(message). */
  datatype Result<+R> = Ok(value: R) | Err(message: string)
}
