/** Option and Result values shared by the modules of the model. */
module Results {

  datatype Option<+T> = None | Some(value: T)

  /** The outcome of an operation that in the JavaScript source either
      returns a value or throws. */
  datatype Result<+T, +E> = Success(value: T) | Failure(error: E) {
    predicate IsFailure() { Failure? }
  }
}
