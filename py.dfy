/** Python conventions the two decomposition classes rely on: the exceptions
    they raise (as values), failure-carrying results, and Python's negative
    indexing of a sequence from its end. */
module Py {

  /** Why an exception was raised. */
  datatype Cause =
    | NotTabular        // data is neither a DataFrame nor an ndarray
    | ByNotString       // DataFrame data, non-string group selector
    | EndoNotString     // DataFrame data, non-string response selector
    | ByNotColumn       // group selector is not a column name
    | EndoNotColumn     // response selector is not a column name
    | ByNotInt          // ndarray data, non-int group selector
    | ValTypeNotInt     // decomposition selector is not an int
    | ColumnOutOfRange  // a positional index outside the array
    | EndoNotPosition   // ndarray data, response selector is not an int position
    | NotTwoGroups      // the group column does not hold exactly two values
    | TooFewGroups      // the group column holds fewer than two values
    | LengthMismatch    // response length differs from the number of rows
    | LabelNotFound     // a label to drop is not among the labels

  /** The Python exception classes raised by the modelled code. */
  datatype Exception =
    | ValueError(cause: Cause)
    | KeyError(cause: Cause)
    | IndexError(cause: Cause)
    | TypeError(cause: Cause)

  datatype Option<T> = None | Some(value: T)

  datatype Result<T> = Ok(value: T) | Err(error: Exception)

  datatype Outcome = Pass | Fail(error: Exception)

  /** Python's reading of index `i` into a sequence of length `n`:
      `-n <= i < 0` counts from the end, anything outside `[-n, n)` raises. */
  function PyIndex(i: int, n: nat): (r: Option<nat>)
    ensures r.Some? <==> -(n as int) <= i < n
    ensures r.Some? ==> r.value < n && (if i >= 0 then r.value == i else r.value == (n as int) + i)
  {
    if 0 <= i < n then Some(i)
    else if -(n as int) <= i < 0 then Some((n as int + i) as nat)
    else None
  }
}
