/** Option and Result values shared by the lexer and the parser. */
module Results {

  datatype Option<+T> = None | Some(value: T)

  /** The outcome of a lexing or parsing step; usable with `:-`. */
  datatype Result<+T, +E> = Ok(value: T) | Err(error: E) {

    predicate IsFailure() {
      Err?
    }

    function PropagateFailure<U>(): Result<U, E>
      requires Err?
    {
      Err(error)
    }

    function Extract(): T
      requires Ok?
    {
      value
    }
  }
}
