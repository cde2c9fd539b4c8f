/** Failure-compatible wrappers shared by every module of the model. */
module Wrappers {

  /** An optional value; used for the source's optional arguments and nullable lookups. */
  datatype Option<+T> = None | Some(value: T) {

    /** The wrapped value, or `default` when there is none. */
    function GetOr(default: T): T {
      match this
      case Some(v) => v
      case None => default
    }
  }

  /** Either a computed value or an error value. */
  datatype Result<+R, +E> = Success(value: R) | Failure(error: E)
}
