/** Failure-carrying results shared by every model in this project. */
module Wrappers {

  datatype Option<+T> = None | Some(value: T)

  /** The error codes the modelled code raises; the message text is not modelled. */
  datatype Error =
    | InvalidRequest | InvalidState | NotFound | IdempotencyConflict | BindingMismatch
    | BudgetUnknown | BudgetExhausted | LeaseConflict | LeaseLost | CursorExpired
    | UnknownRemote | PathOutOfScope | InvalidArgument | Forbidden | RevisionConflict
    | RateLimited | CapabilityUnsupported | AuthRequired

  datatype Result<+T> = Ok(value: T) | Err(error: Error) {
    predicate IsFailure() {
      Err?
    }

    function PropagateFailure<U>(): Result<U>
      requires Err?
    {
      Err(error)
    }

    function Extract(): T
      requires Ok?
    {
      value
    }
  }

  /** 2^53 - 1, the largest integer the wire protocol may carry. */
  const MAX_INT: nat := 9007199254740991
}
