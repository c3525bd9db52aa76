/** Failure-carrying values for the places where the Python code raises. */
module Results {

  datatype Option<+T> = None | Some(value: T)

  datatype Result<+R, +E> = Success(value: R) | Failure(error: E)

  /** The Python exceptions the modelled code can raise. */
  datatype PyError =
    | ValueError      // int() applied to a character that is not a decimal digit
    | AttributeError  // a method called on None
}
