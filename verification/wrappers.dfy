/** Failure-compatible wrappers shared by the whole model: `Option` for the
    source's `Option<T>` and `Result` for its `Result<T, E>`, both usable with
    the `:-` operator so that the `?` early returns of the Rust parsers read
    the same way here. */
module Wrappers {

  datatype Option<+T> = None | Some(value: T) {

    predicate IsFailure() {
      None?
    }

    function PropagateFailure<U>(): Option<U>
      requires None?
    {
      None
    }

    function Extract(): T
      requires Some?
    {
      value
    }

    /** `opt.unwrap_or(default)` */
    function GetOr(default: T): T {
      match this
      case Some(v) => v
      case None => default
    }
  }

  datatype Result<+T, +E> = Success(value: T) | Failure(error: E) {

    predicate IsFailure() {
      Failure?
    }

    function PropagateFailure<U>(): Result<U, E>
      requires Failure?
    {
      Failure(error)
    }

    function Extract(): T
      requires Success?
    {
      value
    }
  }

  /** `opt.ok_or(error)` */
  function OkOr<T, E>(opt: Option<T>, error: E): (r: Result<T, E>)
    ensures r.Success? <==> opt.Some?
    ensures opt.Some? ==> r.value == opt.value
    ensures opt.None? ==> r.error == error
  {
    match opt
    case Some(v) => Success(v)
    case None => Failure(error)
  }
}
