/** Failure-carrying values used across the model: the Go code returns
    `(value, error)` pairs and bare `error`s, which become `Result` and
    `Outcome` here. Error values are the text of Go's `err.Error()`. */
module Results {

  /** An optional value. */
  datatype Option<+T> = None | Some(value: T)

  /** A value or the text of the error that replaced it. */
  datatype Result<+T> = Ok(value: T) | Err(error: string)

  /** The outcome of an operation that returns only an `error`. */
  datatype Outcome = Pass | Fail(error: string)
}
