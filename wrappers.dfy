/** Option and call-outcome types used across the model. */
module Wrappers {

  /** A value that may be absent. For the submission fields `None` stands for
      a JavaScript field that is missing, `undefined` or `null`: the `||` and
      `??` that read them treat the three alike. */
  datatype Option<+T> = None | Some(value: T)

  /** The outcome of a remote call that returns data on success. */
  datatype Result<+T, +E> = Success(value: T) | Failure(error: E)

  /** The outcome of a remote call that returns no data. */
  datatype Outcome<+E> = Pass | Fail(error: E)
}
