/** The three error kinds of the program and the two shapes in which Go returns them. */
module Errors {

  /** Every error the core can produce; each carries the message the code builds with errors.New. */
  datatype Error = EmptyStringSlice | EmptyCommandList | RedoNotImplemented {
    function Message(): string {
      match this
      case EmptyStringSlice => "Nothing to pop off the string slice"
      case EmptyCommandList => "Nothing to pop off the slice"
      case RedoNotImplemented => "redo not implemented yet"
    }
  }

  /** A Go function returning a bare `error`: Pass is nil, Fail a non-nil error. */
  datatype Outcome = Pass | Fail(error: Error)

  /** A Go function returning `(T, error)`: the value is only meaningful when the error is nil. */
  datatype Result<T> = Ok(value: T) | Err(error: Error)
}
