/** Optional values and results with an error message, the shapes the
    analyzers use for "absent" and for a caught exception. */
module Wrappers {

  datatype Option<+T> = None | Some(value: T) {
    function GetOr(default: T): T {
      match this
      case Some(v) => v
      case None => default
    }
  }

  /** `Err(message)` stands for an exception the source catches and
      reports as `{"error": str(e)}`. */
  datatype Result<+T> = Ok(value: T) | Err(message: string)
}
