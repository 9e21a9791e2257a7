/** Option and Result types standing for the source's `null` returns, thrown
    errors and `Either` values. */
module Wrappers {

  datatype Option<+T> = None | Some(value: T)

  /** `Right` carries the value of a successful call, `Left` the error it
      returned or threw. */
  datatype Either<+L, +R> = Left(error: L) | Right(value: R)

  /** The outcome of a call that returns nothing but may throw. */
  datatype Outcome<+E> = Pass | Fail(error: E)
}
