/** Option and Result values used by the transpiler in place of nulls and thrown exceptions. */
module Results {

  datatype Option<+T> = None | Some(value: T)

  /** Either the value a step produced or the error that aborted it; usable with `:-`. */
  datatype Result<+T, +E> = Ok(value: T) | Fail(error: E) {

    predicate IsFailure() {
      Fail?
    }

    function PropagateFailure<U>(): Result<U, E>
      requires Fail?
    {
      Fail(error)
    }

    function Extract(): T
      requires Ok?
    {
      value
    }

    /** The error a failed step carries, or None when it succeeded. */
    function ErrorOf(): Option<E> {
      if Fail? then Some(error) else None
    }
  }
}
