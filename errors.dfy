/**
 * The error values this crate reports, and the status code the native
 * TensorFlow Lite Micro engine returns from its calls.
 */
module Errors {

  /** The crate's own error enum, restricted to the variants the core raises. */
  datatype Error =
    | InterpreterInitError
    | AllocateTensorsError
    | InputDataLenMismatch
    | ElementTypeUnimplemented

  /** TfLiteStatus, the engine's status code; the crate's Status mirrors it variant for variant. */
  datatype Status =
    | Ok
    | Error
    | DelegateError
    | ApplicationError
    | DelegateDataNotFound
    | DelegateDataWriteError
    | DelegateDataReadError
    | UnresolvedOps
    | Cancelled
}
