/** Failure-carrying values shared by the modules of the pump-command layer. */
module Wrappers {

  /** A value that may be absent: the model's stand-in for a Java `null`. */
  datatype Option<+T> = None | Some(value: T) {
    /** The value, or `default` when absent. */
    function GetOr(default: T): T {
      match this
      case Some(v) => v
      case None => default
    }
  }

  /** The outcome of a decoding step: a value, or the error that stopped it. */
  datatype Result<+T, +E> = Success(value: T) | Failure(error: E)
}
