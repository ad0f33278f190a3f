/** Failure-carrying result types used throughout the model. */
module Wrappers {

  /** A possibly absent value; `None` stands for Go's nil pointer. */
  datatype Option<+T> = None | Some(value: T)

  /** Either a value or an error; stands for Go's `(T, error)` returns. */
  datatype Result<+T, +E> = Success(value: T) | Failure(error: E)
  {
    predicate IsFailure()
    {
      Failure?
    }

    function PropagateFailure<U>(): Result<U, E>
      requires Failure?
    {
      Failure(error)
    }

    function Extract(): T
      requires Success?
    {
      value
    }
  }
}
