/** Option and Result values, and the exception kinds the control plane raises. */
module Wrappers {

  datatype Option<+T> = None | Some(value: T) {
    function GetOr(default: T): T {
      match this
      case Some(v) => v
      case None => default
    }
  }

  /** The Java exception classes that cross the modelled boundary. */
  datatype Exception =
    | IllegalArgument        // java.lang.IllegalArgumentException
    | IllegalState           // java.lang.IllegalStateException
    | UnsupportedOperation   // java.lang.UnsupportedOperationException
    | Runtime                // a bare java.lang.RuntimeException
    | DataProvider(code: int) // a DataProviderException raised by the market-data provider

  /** A call that either returns a value or throws. */
  datatype Result<+T> = Ok(value: T) | Err(error: Exception)
}
