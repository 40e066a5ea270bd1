/** Failure-compatible result and option types shared by the whole model. */
module Wrappers {

  datatype Option<+T> = None | Some(value: T)

  /** The `Result<T, E>` of the Rust code: `Success` is `Ok`, `Failure` is `Err`. */
  datatype Result<+T, +E> = Success(value: T) | Failure(error: E) {

    predicate IsFailure() {
      Failure?
    }

    function PropagateFailure<U>(): Result<U, E>
      requires Failure?
    {
      Failure(error)
    }

    function Extract(): T
      requires Success?
    {
      value
    }
  }
}
