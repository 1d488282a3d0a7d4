/** Optional values and failure-compatible results shared by the parser and
    the JSON generator. Both support Dafny's `:-` so that a failure aborts the
    rest of a parse, as the first error aborts a parse in the source. */
module Results {

  datatype Option<+T> = None | Some(value: T)

  datatype Result<+T, +E> = Ok(value: T) | Err(error: E) {

    predicate IsFailure() {
      Err?
    }

    function PropagateFailure<U>(): Result<U, E>
      requires Err?
    {
      Err(error)
    }

    function Extract(): T
      requires Ok?
    {
      value
    }
  }
}
