/** Option and Result: Java's nullable references and thrown exceptions, as values. */
module Wrappers {

  /** `None` stands for a Java `null`. */
  datatype Option<+T> = None | Some(value: T) {
    function GetOr(default: T): T {
      match this
      case Some(v) => v
      case None => default
    }
  }

  /** `Err` stands for an exception that leaves the operation. */
  datatype Result<+T, +E> = Ok(value: T) | Err(error: E)
}
