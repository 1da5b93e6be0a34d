/** Option and Result datatypes, and the ways an operation of the
    cost engine can fail. */
module Outcomes {

  datatype Option<+T> = None | Some(value: T)

  /** The exceptions the engine raises:
      - MissingData: a parameter group has not been set (a ValueError);
      - DivisionByZero: a divisor in a cost formula is zero (a ZeroDivisionError);
      - MissingColumn: a column read from a table that has none (a KeyError). */
  datatype TeaError = MissingData | DivisionByZero | MissingColumn

  datatype Result<+T> = Success(value: T) | Failure(error: TeaError)
}
