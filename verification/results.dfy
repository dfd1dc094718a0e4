/** Stand-ins for Rust's `Option` and `Result`, usable with Dafny's `:-` operator. */
module Results {

  datatype Option<+T> = None | Some(value: T)

  /** `Ok` carries the success value, `Err` the error; no other state. */
  datatype Result<+T, +E> = Ok(value: T) | Err(error: E) {

    predicate IsFailure() {
      Err?
    }

    function PropagateFailure<U>(): Result<U, E>
      requires Err?
    {
      Err(error)
    }

    function Extract(): T
      requires Ok?
    {
      value
    }
  }
}
