/** Failure-carrying values used for the program's exceptions and missing values. */
module Types {

  datatype Option<T> = None | Some(value: T)

  /** The value of a call that either returns or raises. */
  datatype Result<T, E> = Success(value: T) | Failure(error: E)

  /** The value of a call that returns nothing or raises. */
  datatype Outcome<E> = Pass | Fail(error: E)

  /** Python's FileNotFoundError, with the text of its message. */
  datatype IOError = FileNotFound(message: string)
}
