/** Optional values, results, and the outcome of the simulated network delay
    that every store awaits before it commits. */
module Wrappers {

  datatype Option<+T> = None | Some(value: T) {
    /** The value, or `default` when there is none (`x ?? default`). */
    function GetOr(default: T): T {
      match this
      case Some(v) => v
      case None => default
    }
  }

  /** A store call resolves with a value or rejects with an error message. */
  datatype Result<+T> = Success(value: T) | Failure(error: string)

  /** What the awaited `simulateAIProcessing(x)` does: resolve with `x`
      unchanged, reject with an `Error` carrying a message, or reject with
      something that is not an `Error`. */
  datatype Delay = Resolves | RejectsWithError(message: string) | RejectsWithNonError

  /** The message a store's `catch` block records:
      `error instanceof Error ? error.message : fallback`. */
  function RejectionMessage(d: Delay, fallback: string): (m: string)
    requires !d.Resolves?
    ensures d.RejectsWithError? ==> m == d.message
    ensures d.RejectsWithNonError? ==> m == fallback
  {
    if d.RejectsWithError? then d.message else fallback
  }
}
