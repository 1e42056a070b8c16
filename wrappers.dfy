/** Option and Result, the two failure-carrying wrappers the model uses:
    Option stands for Swift's `T?`, Result for a throwing call. */
module Wrappers {

  datatype Option<+T> = None | Some(value: T)
  {
    /** Swift's `??`: the wrapped value, or `fallback` when there is none. */
    function OrElse(fallback: Option<T>): Option<T>
    {
      if Some? then this else fallback
    }
  }

  datatype Result<+T, +E> = Success(value: T) | Failure(error: E)
  {
    predicate IsFailure()
    {
      Failure?
    }

    function PropagateFailure<U>(): Result<U, E>
      requires Failure?
    {
      Failure(error)
    }

    function Extract(): T
      requires Success?
    {
      value
    }
  }
}
