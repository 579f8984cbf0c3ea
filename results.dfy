/** Error kinds and failure-carrying wrappers shared by the model.
    The Java code reports failures by throwing; here each failure is a value. */
module Results {

  /** The two exception classes the core throws. */
  datatype Error = IllegalArgument | IllegalState

  datatype Option<+T> = None | Some(value: T)

  /** The outcome of an operation that either returns a value or throws. */
  datatype Result<+T> = Ok(value: T) | Err(error: Error)

  /** The outcome of a validation that returns nothing when it succeeds. */
  datatype Outcome = Pass | Fail(error: Error)
}
