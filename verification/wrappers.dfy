/** Option and Result datatypes used by the estimation model. */
module Wrappers {

  /** A value that may be absent: the model of Python's `Optional[float]`. */
  datatype Option<+T> = None | Some(value: T) {

    /** The contained value, or `default` when absent. */
    function GetOr(default: T): T
    {
      match this
      case Some(x) => x
      case None => default
    }
  }

  /** Either a computed value or the error that stopped the computation. */
  datatype Result<+T, +E> = Success(value: T) | Failure(error: E)
}
