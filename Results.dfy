/** Failure-carrying values shared by the whole model.
    A Java `null` argument is `None`; an exception is an `Err`/`Fail`. */
module Results {

  datatype Option<+T> = None | Some(value: T)

  /** The exceptions the core raises, by kind. */
  datatype Error =
    | InvalidArgument(reason: string)   // IllegalArgumentException from a constructor or mutator
    | MissingField(key: string)         // JSONException: the key is absent
    | WrongType(key: string)            // JSONException or ClassCastException: the value has the wrong JSON type
    | BadDate(text: string)             // DateTimeParseException

  datatype Result<+T> = Ok(value: T) | Err(error: Error) {
    predicate IsFailure() { Err? }
    function PropagateFailure<U>(): Result<U>
      requires Err?
    {
      Err(error)
    }
    function Extract(): T
      requires Ok?
    {
      value
    }
  }

  /** The outcome of a mutator that either completes or throws. */
  datatype Outcome = Pass | Fail(error: Error) {
    predicate IsFailure() { Fail? }
    function PropagateFailure(): Outcome
      requires Fail?
    {
      this
    }
  }

  /** A Java string argument that is neither null nor empty. */
  predicate Present(s: Option<string>) {
    s.Some? && s.value != []
  }
}
