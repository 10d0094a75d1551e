/** Optional values and results, and the exception classes the components raise. */
module Wrappers {

  datatype Option<+T> = None | Some(value: T)

  /** The exception classes that reach a handler. AuthenticationError and
      LegacyDecryptionError are subclasses of CryptoError; Unhandled stands for the
      built-in errors that no handler names (AttributeError, TypeError). */
  datatype Exn =
    | ConnectionClosed
    | ProtocolError
    | ProcessingError
    | AuthenticationError
    | LegacyDecryptionError
    | CryptoError
    | OsError
    | Unhandled
  {
    /** What `except CryptoError` catches. */
    predicate IsCrypto() {
      CryptoError? || AuthenticationError? || LegacyDecryptionError?
    }
  }

  datatype Result<+T> = Ok(value: T) | Err(error: Exn) {
    predicate IsFailure() { Err? }

    function PropagateFailure<U>(): Result<U>
      requires Err?
    {
      Err(error)
    }

    function Extract(): T
      requires Ok?
    {
      value
    }
  }
}
