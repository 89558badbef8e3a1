/** Failure-compatible wrappers shared by every module of the model. */
module Wrappers {

  /** A value that may be absent (Rust's `Option`, or a Java reference that may be null). */
  datatype Option<+T> = None | Some(value: T) {

    predicate IsFailure() {
      None?
    }

    function PropagateFailure<U>(): Option<U>
      requires None?
    {
      None
    }

    function Extract(): T
      requires Some?
    {
      value
    }

    /** The wrapped value, or `default` when absent. */
    function GetOr(default: T): T {
      match this
      case Some(v) => v
      case None => default
    }
  }

  /** The outcome of an operation that may fail with an error of type `E` (Rust's `Result`). */
  datatype Result<+R, +E> = Ok(value: R) | Err(error: E) {

    predicate IsFailure() {
      Err?
    }

    function PropagateFailure<U>(): Result<U, E>
      requires Err?
    {
      Err(error)
    }

    function Extract(): R
      requires Ok?
    {
      value
    }

    /** The success value, or `default` on failure (Rust's `unwrap_or`). */
    function GetOr(default: R): R {
      match this
      case Ok(v) => v
      case Err(_) => default
    }
  }
}
