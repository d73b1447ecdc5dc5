/** Outcomes of the modelled operations: a value, or the Python exception
    the original code raises. */
module Results {

  /** The exception kinds the modelled code can raise. */
  datatype Error =
    | IndexError         // list index out of range, `str[0]` of an empty string
    | ValueError         // `int(..)` / `float(..)` of malformed text, `min` of an empty list
    | ZeroDivisionError  // division by zero on Python numbers

  /** A value, or the exception that replaced it. Usable with `:-`. */
  datatype Result<+T> = Ok(value: T) | Err(error: Error) {
    predicate IsFailure() { Err? }

    function PropagateFailure<U>(): Result<U>
      requires Err?
    {
      Err(error)
    }

    function Extract(): T
      requires Ok?
    {
      value
    }
  }

  /** Python's `None`-or-value for optional arguments. */
  datatype Option<+T> = None | Some(value: T) {
    function GetOr(default: T): T {
      if Some? then value else default
    }
  }
}
