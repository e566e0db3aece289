/** The exceptions numpy raises on the network's inputs, as values. */
module Outcomes {

  /** The four tensors of the flat parameter vector, in layout order. */
  datatype Block = W1 | B1 | W2 | B2

  datatype Error =
    | ReshapeError(block: Block)  // `np.reshape` of a slice of the wrong length (ValueError)
    | ShapeMismatch               // operands of `@`, `-` or `*` whose shapes do not agree (ValueError)
    | EmptyArgmax                 // `np.argmax` of an empty row (ValueError)
    | IndexOutOfRange             // a row or column index past the end of an array (IndexError)

  datatype Result<+T> = Success(value: T) | Failure(error: Error) {
    predicate IsFailure() {
      Failure?
    }

    function PropagateFailure<U>(): Result<U>
      requires Failure?
    {
      Failure(error)
    }

    function Extract(): T
      requires Success?
    {
      value
    }
  }
}
