/** Exceptions of both halves of the system, as values.

    An `Error` carries the exception's type name (Java or Python class name)
    and its message; `Result<T>` is a value or the exception that replaced it,
    and `Outcome` is its value-less counterpart for code that returns nothing.
    Both support Dafny's `:-` so that a sequence of calls that may throw reads
    like the source. */
module Outcomes {

  datatype Option<+T> = None | Some(value: T)

  datatype Error = Error(kind: string, message: string)

  datatype Result<+T> = Ok(value: T) | Err(error: Error) {
    predicate IsFailure() { Err? }

    function PropagateFailure<U>(): Result<U>
      requires Err?
    {
      Err(error)
    }

    function Extract(): T
      requires Ok?
    {
      value
    }
  }

  datatype Outcome = Pass | Fail(error: Error) {
    predicate IsFailure() { Fail? }

    function PropagateFailure(): Outcome
      requires Fail?
    {
      this
    }
  }

  /** A Java `RuntimeException` with the given message. */
  function Runtime(message: string): Error {
    Error("RuntimeException", message)
  }

  /** Python's `KeyError` for a missing key; its text is the key's `repr`. */
  function KeyError(key: string): Error {
    Error("KeyError", "'" + key + "'")
  }

  /** A Python `Exception` raised with the given message. */
  function PyException(message: string): Error {
    Error("Exception", message)
  }
}
