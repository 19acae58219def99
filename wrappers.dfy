/** Optional values and the outcome of a computation that may raise. */
module Wrappers {

  /** A value that may be absent (a missing dictionary key, a tag BeautifulSoup did not find). */
  datatype Option<+T> = None | Some(value: T) {
    function GetOr(default: T): T {
      match this
      case Some(v) => v
      case None => default
    }
  }

  /** The outcome of Python code that may raise: `Err` carries `str(e)` of the exception. */
  datatype Result<+T> = Ok(value: T) | Err(msg: string)
}
