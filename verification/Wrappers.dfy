/** Result types shared by the modules of this project. */
module Wrappers {

  datatype Option<+T> = None | Some(value: T)

  /** A computation that returns a value or raises. */
  datatype Result<+T, +E> = Ok(value: T) | Err(error: E)

  /** A command that returns or raises. */
  datatype Status<+E> = Pass | Fail(error: E) {
    predicate IsFailure() {
      Fail?
    }

    function PropagateFailure(): Status<E>
      requires Fail?
    {
      this
    }
  }
}
