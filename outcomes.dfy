/** Optional values and the outcome of a step that may throw, shared by the
    modules of the contract-console model. */
module Outcomes {

  /** A value that may be absent (`undefined` in the console's TypeScript). */
  datatype Option<+T> = None | Some(value: T)

  /** What a failing step throws: the error's `message` property ("" when it is
      missing or empty) and the text the error itself renders to in a template. */
  datatype Thrown = Thrown(message: string, rendered: string)

  /** A step that either produces a value or throws. */
  datatype Outcome<+T> = Ok(value: T) | Err(error: Thrown)

  /** The text `${error.message || error}` shows for a thrown error: the message
      when it is non-empty, otherwise the error rendered as a whole. */
  function Describe(e: Thrown): string
  {
    if e.message != "" then e.message else e.rendered
  }
}
