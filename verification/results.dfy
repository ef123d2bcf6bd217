/** Failure-compatible wrappers used throughout the model: an optional value
    (Python's `None`-or-object) and the outcome of a step that may raise. */
module Results {

  datatype Option<+T> = None | Some(value: T)

  datatype Result<+R, +E> = Success(value: R) | Failure(error: E) {

    predicate IsFailure() {
      Failure?
    }

    function PropagateFailure<U>(): (r: Result<U, E>)
      requires Failure?
      ensures r.Failure? && r.error == error
    {
      Failure(error)
    }

    function Extract(): (v: R)
      requires Success?
      ensures v == value
    {
      value
    }
  }
}
