/** Nullable values, the exceptions the engine can raise, and a failure-compatible result. */
module Results {

  /** A .NET reference or nullable value: `None` stands for `null`. */
  datatype Option<+T> = None | Some(value: T)

  /** The .NET exceptions a step of the engine can throw, by kind. */
  datatype Error =
    | JsonReader     // JsonReaderException: the text is not JSON, or not a JSON object where one is required
    | ArgumentNull   // ArgumentNullException: a null string or token handed to a parser, reader or cast
    | InvalidCast    // ArgumentException from an explicit JToken conversion of the wrong token type
    | ChildAccess    // InvalidOperationException / ArgumentException: a string key applied to a token that has no such children
    | Format         // FormatException: a string token that does not spell a number or a boolean
    | Overflow       // OverflowException: a value outside the range of Int32, or a checked sum that leaves it

  /** Either a value or the exception that was thrown instead. */
  datatype Result<+T> = Ok(value: T) | Err(error: Error) {

    predicate IsFailure() {
      Err?
    }

    function PropagateFailure<U>(): Result<U>
      requires Err?
    {
      Err(error)
    }

    function Extract(): T
      requires Ok?
    {
      value
    }
  }
}
