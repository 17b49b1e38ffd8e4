/** Optional values and the outcome of a step that may throw. */
module Wrappers {

  datatype Option<+T> = None | Some(value: T)

  /** The exceptions the modelled services throw, by what went wrong. */
  datatype Error =
    | IllegalTransition
    | NotFound
    | NodeFull
    | RiderNotActive
    | RiderFull
    | NotClaimable
    | InvalidCode
    | NotConfigured
    | NotReady
    | InvalidRule
    | DuplicateId
    | ProviderUnavailable

  /** Success carries the new value; Failure is a thrown exception. */
  datatype Result<+T> = Success(value: T) | Failure(error: Error) {
    predicate IsFailure() {
      Failure?
    }

    function PropagateFailure<U>(): Result<U>
      requires Failure?
    {
      Failure(error)
    }

    function Extract(): T
      requires Success?
    {
      value
    }
  }

  /** How a method ends: it returns, or it throws. */
  datatype Outcome = Pass | Fail(error: Error)

  function OutcomeOf<T>(result: Result<T>): Outcome {
    if result.Success? then Pass else Fail(result.error)
  }
}
