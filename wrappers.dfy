/** Option and Result, and the Python exceptions the modelled code raises. */
module Wrappers {

  datatype Option<+T> = None | Some(value: T)

  /** A Python exception: its class and its message. */
  datatype Exception =
    | ValueError(message: string)
    | SystemError(message: string)
    | IndexError(message: string)
    | FileNotFoundError(path: string)
    /** `cv2.error`, raised by the named OpenCV operation. */
    | OpenCvError(operation: string)

  /** Either the value a Python call returns, or the exception it raises. */
  datatype Result<+T> = Ok(value: T) | Err(error: Exception) {
    predicate IsFailure() { Err? }

    function PropagateFailure<U>(): Result<U>
      requires Err?
    {
      Err(error)
    }

    function Extract(): T
      requires Ok?
    {
      value
    }
  }

  /** The message Python gives for a list index out of range. */
  const ListIndexOutOfRange := "list index out of range"
}
