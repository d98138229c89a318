/** Outcomes of the platform's operations: a value, or the error that made its transaction roll back. */
module Results {

  datatype Option<+T> = None | Some(value: T)

  /** Why an operation was refused. Each constructor is one error code of the platform. */
  datatype Error =
    | InvalidAmount
    | InvalidDiscount
    | DiscountExceedsCommission
    | SplitNegative
    | LedgerEmpty
    | LedgerUnbalanced
    | InvalidTransition
    | ConstraintViolation
    | Forbidden
    | FourEyes
    | InvalidReason
    | NotRefundable
    | AlreadyOpen
    | ExceedsCaptured
    | NotPending
    | NotFound
    | WindowClosed
    | NotScheduled
    | ProviderUnavailable
    | NotEligible
    | BelowProviderCost
    | RuleBackdated
    | RuleInvalid
    | RuleOverlap
    | RuleMissing
    | RuleGlobalRequired
    | StaleVersion
    | KeyConfiguration
    | CryptoFailure

  datatype Result<+T> = Ok(value: T) | Err(error: Error)
  {
    predicate IsFailure() {
      Err?
    }

    function PropagateFailure<U>(): Result<U>
      requires Err?
    {
      Err(error)
    }

    function Extract(): T
      requires Ok?
    {
      value
    }
  }
}
