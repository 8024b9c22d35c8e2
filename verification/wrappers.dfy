/** Optional values and results shared by the other modules. */
module Wrappers {

  /** A value that may be absent: a Go nil pointer or an unset interface field. */
  datatype Option<+T> = None | Some(value: T) {

    /** The pointee, or `default` when absent (Go's "nil becomes empty" idiom). */
    function GetOr(default: T): T {
      match this
      case Some(v) => v
      case None => default
    }
  }

  /** Either a value or the error a handler reports instead. */
  datatype Result<+T, +E> = Success(value: T) | Failure(error: E)
}
