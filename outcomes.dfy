/** Optional values, and the error channel of the chaincode's operations. */
module Outcomes {

  datatype Option<+T> = None | Some(value: T)

  /** The ways an operation can fail. */
  datatype Error =
    | AlreadyExists        // a create found its composite key occupied
    | NotFound             // no record under the composite key
    | InvalidState         // the contract is not in the state the transition needs
    | NoFunds              // the payer holds no coin at all
    | InsufficientBalance  // the payer's coins do not reach the amount
    | NotClaimable         // the claim condition does not hold
    | UnknownKind          // a contract kind other than "Loan" and "Insurance"

  /** An operation that returns a value or an error. */
  datatype Result<+T> = Ok(value: T) | Err(error: Error)

  /** An operation that returns only an error, or nothing. */
  datatype Outcome = Pass | Fail(error: Error)
}
