/** Option and Result, used for JavaScript's `undefined`, thrown errors and the
    outcome of the upstream model call. */
module Results {

  /** `None` stands for an absent value: JavaScript `undefined` for a property
      read, a SyntaxError for JSON.parse. */
  datatype Option<+T> = None | Some(value: T)

  /** `Err` carries the message of a thrown error. */
  datatype Result<+T, +E> = Ok(value: T) | Err(error: E)
}
