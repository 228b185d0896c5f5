/** Python-style outcomes of a call: a value, `None`, or a raised exception. */
module Results {

  /** The `None`-or-value convention of Python return values. */
  datatype Option<+T> = None | Some(value: T)

  /** A call either returns a value or raises; `error` is the exception's `str(e)`. */
  datatype Result<+T> = Ok(value: T) | Err(error: string)

  /** A call returning nothing of interest: it either completes or raises. */
  datatype Outcome = Pass | Fail(error: string)
}
