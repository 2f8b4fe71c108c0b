/*
  Outcomes of operations that the source ends by calling its error handler
  or by running into a Java runtime exception.
*/
module Outcomes {

  /** Why an operation could not complete. */
  datatype Fault =
    | IndexOutOfBounds          // an ArrayIndexOutOfBoundsException in the source
    | LinkIndexOutOfRange(index: int, knownLinks: int)
    | NegativeConcentration(value: real)
    | UnknownPollutant(selector: int)
    | MissingDispersion         // the dispersion parameters were cleared (a NullPointerException)
    | MissingMatrix             // no concentration matrix has been built (a NullPointerException)
    | ReceptorNamesExhausted    // fewer names than receptor rows
    | PointsReleased            // the point vector was already handed out and nulled (a NullPointerException)
    | PointsCleared             // the link's point array was cleared (a NullPointerException)

  /** Completion of an operation that returns nothing. */
  datatype Outcome = Completed | Halted(fault: Fault)
  {
    predicate IsCompleted() { this.Completed? }
  }

  /** A reference that may be null. */
  datatype Option<T> = None | Some(value: T)

  /** Completion of an operation that returns a value. */
  datatype Result<T> = Ok(value: T) | Err(fault: Fault)
  {
    predicate IsOk() { this.Ok? }
  }
}
