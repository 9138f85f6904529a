/** Nullable values and settled asynchronous requests. */
module Wrappers {

  /** A value that may be absent: TypeScript's `T | null` (or `T | undefined`). */
  datatype Option<+T> = None | Some(value: T)

  /** How an awaited request settled: with its payload, or by throwing.
      The network itself is not modelled; each request is given as its outcome. */
  datatype Settled<+T> = Fulfilled(value: T) | Rejected
}
