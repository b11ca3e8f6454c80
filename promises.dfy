/** How an awaited call ends, and what a thrown value carries. */
module Promises {

  /** What a thrown value carries: an `Error` has a message, anything else does not. */
  datatype Thrown = ErrorValue(message: string) | OtherValue

  /** How an awaited call ends: it resolves to a boolean, or it throws. */
  datatype Settled = Fulfilled(success: bool) | Rejected(thrown: Thrown)

  /** `err instanceof Error ? err.message : fallback`. */
  function ThrownMessage(thrown: Thrown, fallback: string): string
  {
    match thrown
    case ErrorValue(m) => m
    case OtherValue => fallback
  }
}
