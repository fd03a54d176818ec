/**
 * The exceptions the drivers and the registry can raise, the result of an
 * operation that may raise one, and an optional value (Python's `None` or a value).
 */
module Errors {

  datatype Error =
    | IOError            // OSError from the SMBus controller
    | ZeroDivisionError  // Python's `//` by zero in the BMP085 compensation
    | DriverNotFound     // raised by the registry lookup
    | KeyError           // a dictionary lookup with a missing key

  datatype Result<T> = Ok(value: T) | Err(error: Error)

  datatype Option<T> = None | Some(value: T)
}
