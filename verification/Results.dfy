/** Outcome types shared by every component. */
module Results {

  /** Absence or presence of a value. */
  datatype Option<+T> = None | Some(value: T)

  /** A value, or the reason there is none. Works with `:-`. */
  datatype Result<+T, +E> = Ok(value: T) | Err(error: E) {
    predicate IsFailure() {
      Err?
    }

    function PropagateFailure<U>(): Result<U, E>
      requires Err?
    {
      Err(error)
    }

    function Extract(): T
      requires Ok?
    {
      value
    }

    /** The same result with every failure reported as `error`. */
    function OrElse<F>(error: F): Result<T, F> {
      if Ok? then Ok(value) else Err(error)
    }
  }

  /** A guard: nothing to return when it passes. */
  type Check<+E> = Result<(), E>

  function Need<E>(condition: bool, error: E): Check<E> {
    if condition then Ok(()) else Err(error)
  }
}
