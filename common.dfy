/** Small shared vocabulary: optional values, results carrying an error text, bytes. */
module Common {

  datatype Option<+T> = None | Some(value: T)

  /** The outcome of a call that can raise: `Failure` carries the exception's text. */
  datatype Result<+T> = Success(value: T) | Failure(error: string)

  /** The outcome of a call that returns nothing useful, or raises. */
  datatype Outcome = Pass | Fail(error: string)

  newtype byte = x: int | 0 <= x < 256
}
