/** Failure-compatible result types and the Java exceptions the settings layer can raise. */
module Wrappers {

  /** A Java reference that may be null. */
  datatype Option<+T> = None | Some(value: T)

  /** The unchecked exceptions thrown by the modelled code or by the calls it makes. */
  datatype Exception =
    | IllegalState      // IllegalStateException: a required key is missing
    | IllegalArgument   // IllegalArgumentException: unknown enum name, unhandled stream type, bad port
    | NullPointer       // NullPointerException: a null argument
    | ClassCast         // ClassCastException: a stored value of the other kind (string vs boolean)

  /** Either a value or the exception that a Java call throws instead of returning. */
  datatype Result<+T> = Ok(value: T) | Err(error: Exception) {

    predicate IsFailure() {
      Err?
    }

    function PropagateFailure<U>(): Result<U>
      requires Err?
    {
      Err(error)
    }

    function Extract(): T
      requires Ok?
    {
      value
    }
  }
}
