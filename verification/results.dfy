/** The two-variant success/failure container the registry layer returns
    instead of throwing, plus the `undefined`-or-value shape used for
    optional fields and for "no provider matched". Both work with `:-`. */
module Results {

  /** An optional value: JavaScript's `undefined` is `None`. */
  datatype Option<+T> = None | Some(value: T) {

    /** The carried value, or `default` when there is none
        (the `x = default` destructuring default). */
    function GetOr(default: T): T {
      match this
      case Some(v) => v
      case None => default
    }
  }

  /** `Ok(value)` or `Err(error)`, as the repository's `Result<T, E>`. */
  datatype Result<+T, +E> = Ok(value: T) | Err(error: E) {

    predicate IsFailure() {
      Err?
    }

    function PropagateFailure<U>(): Result<U, E>
      requires Err?
    {
      Err(error)
    }

    function Extract(): T
      requires Ok?
    {
      value
    }

    /** Rewrites the error, keeping a success as it is. */
    function MapErr<F>(f: E -> F): Result<T, F> {
      match this
      case Ok(v) => Ok(v)
      case Err(e) => Err(f(e))
    }
  }
}
