/** Option and Result, the failure-compatible wrappers used throughout the model.
    `Result` carries the kind of Python exception that escapes uncaught. */
module Wrappers {

  datatype Option<+T> = None | Some(value: T) {
    predicate IsFailure() { None? }

    function PropagateFailure<U>(): Option<U>
      requires None?
    {
      None
    }

    function Extract(): T
      requires Some?
    {
      value
    }
  }

  /** The exceptions the modelled code lets escape. */
  datatype Exc =
    | IndexError      // `[0]` on an empty xpath result
    | TypeError       // `None` text used as a string or passed to the base64 decoder
    | ValueError      // `int(...)` or `float(...)` rejected its text, or `int` of a NaN
    | OverflowError   // `int` of an infinite float
    | DecodeError     // base64 or charset decoding failed
    | TransportError  // the HTTPS post failed or its body did not parse as XML

  datatype Result<+T> = Ok(value: T) | Raise(exc: Exc) {
    predicate IsFailure() { Raise? }

    function PropagateFailure<U>(): Result<U>
      requires Raise?
    {
      Raise(exc)
    }

    function Extract(): T
      requires Ok?
    {
      value
    }
  }
}
