/** Failure-compatible wrappers shared by the whole model. */
module Wrappers {

  /** Python's `None` versus a present value. */
  datatype Option<+T> = None | Some(value: T) {
    function GetOr(default: T): T {
      match this
      case Some(v) => v
      case None => default
    }
  }

  /**
   * The outcome of a call that may raise: `Err` carries the text that
   * `str(e)` gives for the exception.
   */
  datatype Result<+T> = Ok(value: T) | Err(error: string)
}
