/** Values shared by the modules of the model: Python's `None`, and the
    Python exceptions the core can raise, as an explicit error result. */
module Common {

  datatype Option<+T> = None | Some(value: T)

  /** The exceptions the modelled Python code raises on malformed input. */
  datatype PyError =
    | IndexError           // a list index past the end
    | ValueError           // `float()` of text that is not a number
    | KeyError(key: string) // a missing DataFrame column

  datatype Result<+T> = Ok(value: T) | Err(error: PyError)
}
