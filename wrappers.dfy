/** Option and Result, the shapes the converter uses for absent fields and for errors that abort a run. */
module Wrappers {

  datatype Option<+T> = None | Some(value: T) {

    function GetOr(default: T): T {
      match this
      case Some(v) => v
      case None => default
    }
  }

  /** A fatal error carries a message, as the converter's panics and io errors do. */
  datatype Result<+T> = Success(value: T) | Failure(error: string)
}
