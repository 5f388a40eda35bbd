/** Optional values, and the results of operations that the source ends by throwing. */
module Wrappers {

  datatype Option<+T> = None | Some(value: T)

  /** The exceptions the core throws, by their .NET type. */
  datatype Error =
    | ArgumentError      // ArgumentException: unknown parameter key, location or table
    | KeyNotFound        // KeyNotFoundException: a dictionary indexer with a missing key
    | IndexOutOfRange    // ArgumentOutOfRangeException: a list indexer, or Enumerable.Range with a negative count
    | InvalidOperation   // InvalidOperationException
    | InvalidCast        // InvalidCastException: Cast<T> over an element of the wrong kind
    | FormatError        // FormatException: DateTime.Parse or Convert.ToDouble of an unparsable string
    | GeneralError       // a plain Exception, such as "No weather data results to merge"

  /** The value an operation returns, or the exception it throws. */
  datatype Result<+T> = Success(value: T) | Failure(error: Error)

  /** The end of an operation that returns nothing: it completes, or throws. */
  datatype Outcome = Pass | Fail(error: Error)
}
