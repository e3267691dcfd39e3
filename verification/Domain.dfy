/** What every part of the model shares: identifiers, instants, failure codes and
    the classified errors of the domain. */
module Domain {

  /** Identifiers are compared, never computed with. Zero stands for the nil identifier. */
  type ID = nat

  const NIL_ID: ID := 0

  /** Instants come from clocks nobody synchronises. Zero stands for the unset instant. */
  type Time = int

  const ZERO_TIME: Time := 0

  datatype Option<+T> = None | Some(value: T)

  /** NoFailure stands for the empty code. */
  datatype FailureCode =
    | NoFailure
    | InvalidInput
    | InvalidAmount
    | AmountOverflow
    | CurrencyMismatch
    | InsufficientFunds
    | InsufficientFundsForReversal
    | ReferenceNotFound
    | ReferenceNotProcessed
    | ReferenceMismatch
    | ReferenceAmountMismatch
    | ReferenceAlreadyReversed
    | InvalidStateTransition
    | KindNotAllowed
    | IdempotencyConflict
    | WalletAlreadyExists
    | WalletNotFound
    | WalletPlayerMismatch

  /** A Rejection is a business refusal, recorded rather than rolled back; `shortfall`
      is its insufficient-funds cause. ReferencePending and ConcurrentUpdate are the two
      sentinels of the use cases. Violation is a constraint no repository translates. */
  datatype Error =
    | Validation(code: FailureCode)
    | Rejection(code: FailureCode, shortfall: bool)
    | Conflict(code: FailureCode)
    | NotFound(code: FailureCode)
    | ReferencePending
    | ConcurrentUpdate
    | Violation

  datatype Result<+T> = Ok(value: T) | Err(error: Error) {
    predicate IsFailure() {
      Err?
    }

    function PropagateFailure<U>(): Result<U>
      requires Err?
    {
      Err(error)
    }

    function Extract(): T
      requires Ok?
    {
      value
    }
  }

  /** The check that stops a computation with `error` when `condition` fails. */
  function Require(condition: bool, error: Error): Result<()> {
    if condition then Ok(()) else Err(error)
  }

  function RequireID(id: ID): Result<()> {
    Require(id != NIL_ID, Validation(InvalidInput))
  }

  function RequireTime(at: Time): Result<()> {
    Require(at != ZERO_TIME, Validation(InvalidInput))
  }
}
