/** The failures the library raises, and the wrappers that carry them. */
module Results {

  /** The three exception kinds the library raises. */
  datatype Error = TypeError | ValueError | IndexError

  /** Either the value an operation returns or the exception it raises. */
  datatype Result<T> = Ok(value: T) | Err(error: Error)

  /** An optional argument, such as the `data` of a new matrix. */
  datatype Option<T> = None | Some(value: T)
}
