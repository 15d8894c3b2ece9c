/** Failure-compatible wrappers shared by every module of the model.
    `Option` stands for the source's nullable references and `Result` for
    operations that either return a value or throw. */
module Results {

  datatype Option<+T> = None | Some(value: T)

  /** `Err` carries the exception the source would throw; `:-` propagates it. */
  datatype Result<+T, +E> = Ok(value: T) | Err(error: E) {

    predicate IsFailure() {
      Err?
    }

    function PropagateFailure<U>(): Result<U, E>
      requires Err?
    {
      Err(error)
    }

    function Extract(): T
      requires Ok?
    {
      value
    }
  }
}
