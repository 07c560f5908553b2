/** Results and optional values shared by the modules of the model. */
module Outcomes {
  datatype Option<+T> = None | Some(value: T)

  datatype Result<+T, +E> = Ok(value: T) | Err(error: E) {
    predicate IsFailure() {
      Err?
    }

    function PropagateFailure<U>(): Result<U, E>
      requires Err?
    {
      Err(error)
    }

    function Extract(): T
      requires Ok?
    {
      value
    }
  }

  /** The unit result of a check: `Pass` or the error that aborts the instruction. */
  datatype Outcome<+E> = Pass | Fail(error: E) {
    predicate IsFailure() {
      Fail?
    }

    function PropagateFailure<U>(): Result<U, E>
      requires Fail?
    {
      Err(error)
    }
  }

  function Need<E>(condition: bool, error: E): Outcome<E> {
    if condition then Pass else Fail(error)
  }
}
