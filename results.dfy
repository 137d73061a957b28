/** Success-or-failure values shared by the three checker drafts. A JavaScript
    `throw` (a string, an `Error`, or the parser module's `error` helper) is
    modelled as `Err` carrying the message. */
module Results {

  datatype Result<+T, +E> = Ok(value: T) | Err(error: E) {

    predicate IsFailure() {
      Err?
    }

    function PropagateFailure<U>(): Result<U, E>
      requires Err?
    {
      Err(error)
    }

    function Extract(): T
      requires Ok?
    {
      value
    }
  }
}
