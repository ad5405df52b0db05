/** Optional values and results with an error, shared by every module. */
module Wrappers {

  /** Python's `None` or a present value. */
  datatype Option<+T> = None | Some(value: T)
  {
    function GetOr(default: T): T
    {
      match this
      case Some(v) => v
      case None => default
    }
  }

  /** A value, or the exception Python would raise instead. */
  datatype Result<+T, +E> = Success(value: T) | Failure(error: E)
}
