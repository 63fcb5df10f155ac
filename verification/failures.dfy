/** The Ruby exceptions the core can raise, and a failure-compatible
    `Result` that carries them instead of unwinding. */
module Failures {
  import opened Values

  datatype Raised =
    /** `Payload::InvalidStatusError`, with the status that was received. */
    | InvalidStatusError(received: Atom)
    /** `KeyError` from a fetch or delete of an absent key. */
    | KeyError(key: Key)
    /** `NoMatchingPatternError` from a `case/in` without a matching arm. */
    | NoMatchingPatternError
    /** `NoMethodError`: a receiver without the named method. */
    | NoMethodError(name: string)
    /** Any other exception a step raises on its own (an `ArgumentError`
        from a mismatched arity, a domain error), named by its class. */
    | StepRaised(name: string)

  datatype Result<+T> = Success(value: T) | Failure(error: Raised) {

    predicate IsFailure() {
      Failure?
    }

    function PropagateFailure<U>(): Result<U>
      requires Failure?
    {
      Failure(error)
    }

    function Extract(): T
      requires Success?
    {
      value
    }
  }
}
