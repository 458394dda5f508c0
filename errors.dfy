/** Go `error` values as the request builder passes them around. */
module Errors {

  /**
   * An error raised by code outside the model (URL parsing, JSON, I/O, the
   * transport) is opaque; `goerr.Wrap(cause, msg)` adds a stage message.
   */
  datatype Error = Opaque(id: nat) | Wrapped(cause: Error, msg: string)
}
