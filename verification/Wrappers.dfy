/** Option, Result and Outcome, used for absent fields, thrown errors and failing calls. */
module Wrappers {
  datatype Option<+T> = None | Some(value: T)

  /** A returned value, or the error the original throws. */
  datatype Result<+T, +E> = Ok(value: T) | Err(error: E) {
    predicate IsFailure() { Err? }

    function PropagateFailure<U>(): Result<U, E>
      requires Err?
    {
      Err(error)
    }

    function Extract(): T
      requires Ok?
    {
      value
    }
  }

  /** The result of an awaited call that returns nothing. */
  datatype Outcome<+E> = Pass | Fail(error: E) {
    predicate IsFailure() { Fail? }

    function PropagateFailure(): Outcome<E>
      requires Fail?
    {
      this
    }
  }

  /** Why an awaited call did not return: it threw, or the process died during it. */
  datatype Fault = Thrown | Crashed
}
