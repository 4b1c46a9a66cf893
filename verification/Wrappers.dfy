// Result types shared by every component of the model.
module Wrappers {

  datatype Option<+T> = None | Some(value: T)

  // A thrown exception is a Failure that carries the message or error code the program gives.
  datatype Result<+T> = Success(value: T) | Failure(error: string) {
    predicate IsFailure() {
      Failure?
    }

    function PropagateFailure<U>(): Result<U>
      requires Failure?
    {
      Failure(error)
    }

    function Extract(): T
      requires Success?
    {
      value
    }
  }
}
