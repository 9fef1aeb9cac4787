/** Small value wrappers shared by the other modules. */
module Common {

  /** A value that may be absent (a JavaScript `undefined`/`null` property). */
  datatype Option<+T> = None | Some(value: T)

  /** The outcome of an asynchronous library call whose callback receives `(err, value)`. */
  datatype Outcome<+T> = Ok(value: T) | Failed
}
