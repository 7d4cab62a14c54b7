/** Optional values, and the exceptions of the modelled code as values.

    Java reports failures by throwing; here every operation that can throw
    returns a `Result` or an `Outcome` carrying the `Failure` it threw. */
module Wrappers {

  datatype Option<+T> = None | Some(value: T)

  /** The exceptions the modelled code throws or lets through. */
  datatype Failure =
    | XmlFault(message: string)   // XmlPullParserException
    | EndOfStream                 // EOFException raised by the reader
    | IoFault(message: string)    // any other IOException
    | NullReference               // NullPointerException
    | BadNumber(text: string)     // NumberFormatException
    | Raised(message: string)     // a plain Exception thrown by the code itself

  datatype Result<+T> = Ok(value: T) | Err(failure: Failure)

  datatype Outcome = Pass | Fail(failure: Failure)

  /** Java's `String.valueOf` of a possibly-null string: null prints as "null". */
  function OrNull(s: Option<string>): string
  {
    match s
    case Some(v) => v
    case None => "null"
  }
}
