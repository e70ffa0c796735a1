/** Values shared by every part of the model: C#'s nullable references and the
    exceptions the core raises, written as data. */
module Common {

  /** A value that may be C#'s `null`: `None` is `null`. */
  datatype Option<+T> = None | Some(value: T)

  /** The exception kinds the core raises or lets through. */
  datatype Error =
    | ArgumentNull    // ArgumentNullException
    | ArgumentBlank   // ArgumentException from ThrowIfNullOrWhiteSpace on a whitespace-only string
    | NullReference   // NullReferenceException from dereferencing a null collection or element
    | JsonParse       // JsonException from the deserializer
    | Validation      // ValidationException from the DataAnnotations validator

  /** A call that returns a value or throws. */
  datatype Result<+T> = Success(value: T) | Failure(error: Error)

  /** A call that returns nothing or throws. */
  datatype Outcome = Pass | Fail(error: Error)
}
