/** Outcomes of the operations of the core: a value, or the exception the
    Python code raises, as data. */
module Results {

  datatype Option<+T> = None | Some(value: T)

  /** The exceptions the modelled code raises or lets through. */
  datatype Error =
    | InvalidName(message: string)          // ValueError from the dimension-name validator
    | NotImplemented                        // an abstract dispatch reached with no matching case
    | StopIteration                         // `next` on an empty physical-type name set
    | CannotConvertToValue(message: string) // TypeError: a quantity offered as a value
    | UnitParseError(text: string)          // the catalog does not parse the unit string
    | UnitConversionError                   // the catalog cannot convert between two units
    | DimensionMismatch                     // a dimension-parametrised class given a unit of another dimension
    | NoUnitForDimension                    // a unit system without a unit for the dimension

  datatype Result<+T> = Ok(value: T) | Err(error: Error) {

    predicate IsFailure() {
      Err?
    }

    function PropagateFailure<U>(): Result<U>
      requires Err?
    {
      Err(error)
    }

    function Extract(): T
      requires Ok?
    {
      value
    }
  }
}
