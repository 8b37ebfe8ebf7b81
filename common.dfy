/** Failure-carrying wrappers shared by every component: Java's `null` and its exceptions
    are modelled as values so that every error path is part of a member's contract. */
module Common {

  /** `None` stands for a Java `null` reference. */
  datatype Option<+T> = None | Some(value: T)

  /** The exceptions the modelled Java code raises. */
  datatype Error =
    | IllegalArgument(message: string)
    | IllegalState(message: string)
    | NullReference  // a dereference of a Java `null`
    | IndexOutOfBounds
    | NumberFormat(input: string)
    | BuilderFailure(builder: string, message: string)

  /** Either a returned value or a thrown exception. */
  datatype Result<+T> = Ok(value: T) | Err(error: Error)

  /** The result of a Java `void` method: it returned normally or it threw. */
  datatype Outcome = Pass | Fail(error: Error)
}
