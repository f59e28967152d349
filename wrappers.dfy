/** Failure-carrying values shared by the modules of the weather model. */
module Wrappers {

  /** A value that may be absent (Python's `None`). */
  datatype Option<+T> = None | Some(value: T) {
    function GetOr(default: T): T {
      match this
      case Some(v) => v
      case None => default
    }
  }

  /**
   * The outcome of a step that may raise a Python exception; `Err` carries
   * the text `str(e)` of the exception, which is what the tool handlers print.
   */
  datatype Result<+T> = Ok(value: T) | Err(message: string)
}
