/** Failure-compatible helper datatypes shared by every module of the model. */
module Wrappers {

  /** An optional value: the model's rendering of a TypeScript `T | undefined` field. */
  datatype Option<+T> = None | Some(value: T) {

    /** The value, or `default` when absent. */
    function GetOr(default: T): T {
      match this
      case Some(v) => v
      case None => default
    }
  }

  /** A computation that either yields a value or fails with an error value. */
  datatype Result<+T, +E> = Ok(value: T) | Err(error: E)
}
