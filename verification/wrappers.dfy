/** Option and Result datatypes shared by every module of the model. */
module Wrappers {

  /** An optional value: a TypeScript `T | undefined`, or a field marked `?`. */
  datatype Option<+T> = None | Some(value: T) {

    /** The value if present, else `default`: the `??` operator of TypeScript. */
    function GetOr(default: T): T {
      match this
      case Some(v) => v
      case None => default
    }
  }

  /** The outcome of an operation that can fail with an error of type `E`. */
  datatype Result<+T, +E> = Ok(value: T) | Err(error: E)
}
