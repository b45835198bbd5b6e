/** Failure-carrying wrappers shared by the modules of this model. */
module Wrappers {

  /** A value that may be absent (TypeScript's `T | undefined | null`). */
  datatype Option<+T> = None | Some(value: T)

  /** The outcome of an asynchronous call that yields a value: it resolves
      with a value or rejects with an error message. */
  datatype Result<+T> = Success(value: T) | Failure(error: string)

  /** The outcome of an asynchronous call that yields nothing (`Promise<void>`). */
  datatype Outcome = Pass | Fail(error: string)
}
