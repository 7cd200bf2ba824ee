/** Small value wrappers shared by every module of the storefront model. */
module Wrappers {

  /** A value that may be absent: TypeScript's `T | null` (or `T | undefined`). */
  datatype Option<+T> = None | Some(value: T)

  /** The outcome of a call that may throw: it either returns a value or raises an exception. */
  datatype Outcome<+T> = Returns(value: T) | Throws
}
