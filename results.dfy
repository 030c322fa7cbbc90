/** Failure values shared by the model: the Python exceptions the core can
    raise, and the runtime shape errors PyTorch raises when a layer receives
    a tensor with the wrong number of channels. */
module Results {

  datatype Error =
    | IndexError      // indexing an empty Python list
    | ShapeMismatch   // a layer got a channel count it was not built for
    | EmptyConcat     // concatenating an empty list of tensors

  /** Either a value or the error that ended the computation; usable with `:-`. */
  datatype Result<+T> = Ok(value: T) | Err(error: Error) {
    predicate IsFailure() { Err? }

    function PropagateFailure<U>(): Result<U>
      requires Err?
    {
      Err(error)
    }

    function Extract(): T
      requires Ok?
    {
      value
    }
  }

  /** A Python argument that may be `None`. */
  datatype Option<+T> = None | Some(value: T)
}
