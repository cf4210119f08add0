/** The error codes of the process execution core. */
module Errors {
  datatype ErrorCode =
    | InvalidArgument
    | ResourceLimit
    | UnsupportedOperation
    | NotFound
    | PreconditionFailed
    | IdempotencyConflict
    | Unavailable
    | Io
}
