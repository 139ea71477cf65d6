/** Failure-carrying values shared by every module of the model.

    Go reports failure by returning an `error` next to (or instead of) a
    value.  The model keeps the text of that error, since the text is what
    the callers wrap and pass upward. */
module Wrappers {

  /** A value that may be absent. */
  datatype Option<+T> = None | Some(value: T)

  /** The result of a Go function that returns `(T, error)`. */
  datatype Result<+T> = Ok(value: T) | Err(error: string)

  /** The result of a Go function that returns only `error`. */
  datatype Outcome = Pass | Fail(error: string)

  /** `fmt.Errorf("<context>: %v", cause)`: the wrapping every verb applies
      to the error of the step that failed. */
  function Wrap(context: string, cause: string): string
  {
    context + ": " + cause
  }
}
