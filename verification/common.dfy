/** Failure-carrying wrappers shared by every module of the model:
    `Option` for Python's `None`-or-value returns (`dict.get`, `Optional[...]`)
    and `Result` for a computation that either returns or raises.
 */
module Common {

  datatype Option<+T> = None | Some(value: T) {

    /** The encapsulated value, or `default` when there is none (Python's `x or default`
        on an optional, and `dict.get(key, default)`). */
    function GetOr(default: T): T {
      match this
      case Some(v) => v
      case None => default
    }
  }

  datatype Result<+T, +E> = Ok(value: T) | Err(error: E) {

    predicate IsFailure() {
      Err?
    }

    function PropagateFailure<U>(): Result<U, E>
      requires Err?
    {
      Err(error)
    }

    function Extract(): T
      requires Ok?
    {
      value
    }
  }
}
