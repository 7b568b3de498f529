/** Types shared by every module of the model. */
module Common {

  /** Python's `Optional`: a value or `None`. */
  datatype Option<T> = None | Some(value: T)

  /** The outcome of a call that may raise: a value or the error it raised. */
  datatype Result<T, E> = Ok(value: T) | Err(error: E)

  /** A reading of the wall clock (`datetime.now()`), as an ordered number. */
  type Time = int

  /** An HTTP error response: its status code and its `detail` text. */
  datatype HttpError = HttpError(status: int, detail: string)
}
