/** Failure-compatible wrappers used throughout the model: `Option` for the
    source's `Option<T>` and `Result` for its `Result<T, E>`, both usable with
    `:-` so that Rust's `?` operator reads the same way here. */
module Wrappers {

  datatype Option<+T> = None | Some(value: T) {

    predicate IsFailure() {
      None?
    }

    function PropagateFailure<U>(): Option<U>
      requires None?
    {
      None
    }

    function Extract(): T
      requires Some?
    {
      value
    }
  }

  datatype Result<+T, +E> = Success(value: T) | Failure(error: E) {

    predicate IsFailure() {
      Failure?
    }

    function PropagateFailure<U>(): Result<U, E>
      requires Failure?
    {
      Failure(error)
    }

    function Extract(): T
      requires Success?
    {
      value
    }

    /** The same outcome with the error converted, as Rust's `?` does
        through `From`. */
    function MapFailure<E2>(f: E -> E2): (r: Result<T, E2>)
      ensures r.Success? <==> Success?
      ensures Success? ==> r.value == value
      ensures Failure? ==> r.error == f(error)
    {
      match this
      case Success(v) => Success(v)
      case Failure(e) => Failure(f(e))
    }
  }
}
