/** Failure-compatible wrappers shared by the Rust-side and Python-side models:
    `Option` for values that may be absent and `Result` for an operation that
    either yields a value or fails with an error (a Rust `Err`, a Python
    exception). Both work with the `:-` operator. */
module Wrappers {

  datatype Option<+T> = None | Some(value: T) {
    predicate IsFailure() { None? }

    function PropagateFailure<U>(): Option<U>
      requires None?
    {
      None
    }

    function Extract(): T
      requires Some?
    {
      value
    }
  }

  datatype Result<+T, +E> = Ok(value: T) | Err(error: E) {
    predicate IsFailure() { Err? }

    function PropagateFailure<U>(): Result<U, E>
      requires Err?
    {
      Err(error)
    }

    function Extract(): T
      requires Ok?
    {
      value
    }
  }

  /** Why a Rust call aborted: `.unwrap()` on an `Err`, or reaching `todo!()`. */
  datatype Panic = UnwrapOnErr | Todo
}
