/** Checked amounts and the reasons a vault transition is refused. */
module Amounts {
  import opened Results
  import opened Words

  type AccountId = U64
  type EpochId = U64
  type Timestamp = U64

  /** A 32-byte transfer identity, read as one big-endian number. Zero means "none". */
  type TransferId = U256

  datatype Rejection =
    | InvalidVaultState
    | EpochNotOpen
    | EpochAlreadyOpen
    | CutoffNotReached
    | EpochAlreadyCutOff
    | EpochNotCutOff
    | EpochAlreadyFinalized
    | EpochNotFinalized
    | EpochNotAborted
    | RequestNotFound
    | RequestAlreadyCancelled
    | RequestAlreadySettled
    | ClaimNotFound
    | ClaimAlreadyConsumed
    | CancellationAfterCutoff
    | ZeroAmount
    | AmountBelowMinimum
    | InsufficientAssetBalance
    | InsufficientShareBalance
    | InsufficientRedemptionLiquidity
    | ArithmeticOverflow
    | ArithmeticUnderflow
    | DivisionByZero
    | UnauthorizedActor
    | InvalidConfiguration
    | DuplicateAccount
    | TimestampNotMonotonic
    | ActiveTransferExists
    | NoActiveTransfer
    | TransferIdReused
    | InsufficientRemotePrincipal
    | InvalidRecallSentAmounts
    | RemoteValuationRequired
    | ValuationAlreadyFixed
    | AllocateNotAllowed
    | CloseAlreadyRequested
    | NoPendingSettlement
    | NothingToRecover
    | SettlementMismatch

  type Refusable<+T> = Result<T, Rejection>

  /** Narrows a natural number to 128 bits. */
  function Fit(x: nat): Refusable<U128> {
    if x < LIMIT128 then Ok(x) else Err(ArithmeticOverflow)
  }

  function CheckedAdd(a: U128, b: U128): Refusable<U128> {
    Fit(a + b)
  }

  function CheckedSub(a: U128, b: U128): Refusable<U128> {
    if b <= a then Ok(a - b) else Err(ArithmeticUnderflow)
  }

  function SaturatingAdd(a: U128, b: U128): U128 {
    if a + b < LIMIT128 then a + b else LIMIT128 - 1
  }

  function SaturatingSub(a: U128, b: U128): U128 {
    if b <= a then a - b else 0
  }
}
