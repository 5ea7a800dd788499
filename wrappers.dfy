/** Option and Result values used where the program may lack a value or fail. */
module Wrappers {

  /** A value that may be absent (a cell the embedding leaves undefined). */
  datatype Option<+T> = None | Some(value: T) {
    function GetOr(default: T): T {
      match this
      case Some(v) => v
      case None => default
    }
  }

  /** The outcome of an operation that raises an error instead of returning. */
  datatype Result<+R, +E> = Success(value: R) | Failure(error: E)
}
