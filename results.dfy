// Rust's Option and Result, with the members Dafny's `:-` needs so that the
// model can propagate errors the way the source's `?` operator does.
module Results {

  datatype Option<+T> = None | Some(value: T) {
    /** `Option::unwrap_or_default`, with the default given explicitly. */
    function UnwrapOr(default: T): (r: T)
      ensures Some? ==> r == value
      ensures None? ==> r == default
    {
      match this
      case Some(v) => v
      case None => default
    }
  }

  datatype Result<+T, +E> = Ok(value: T) | Err(error: E) {
    predicate IsFailure() {
      Err?
    }

    function PropagateFailure<U>(): Result<U, E>
      requires Err?
    {
      Err(error)
    }

    function Extract(): T
      requires Ok?
    {
      value
    }
  }
}
