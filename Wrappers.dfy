/** Failure-compatible result type used for the Python exceptions of the handler. */
module Wrappers {

  /** Either a value or the text of the exception that was raised instead. */
  datatype Result<+T> = Success(value: T) | Failure(error: string) {

    predicate IsFailure() {
      Failure?
    }

    function PropagateFailure<U>(): Result<U>
      requires Failure?
    {
      Failure(error)
    }

    function Extract(): T
      requires Success?
    {
      value
    }
  }
}
