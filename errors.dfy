/** The error codes the instructions return, and the result of an instruction.

    A Solana instruction either succeeds or fails as a whole: when it returns an error every
    account it touched is restored. The model keeps that rule: a handler method that returns
    `Err` leaves every object it may modify unchanged.
 */
module Errors {

  /** `LegasiError` of the core program, plus the codes the other programs add. */
  datatype Error =
    | InvalidAmount
    | MathOverflow
    | ExceedsLTV
    | InsufficientCollateral
    | InsufficientLiquidity
    | AssetNotSupported
    | AssetNotActive
    | PositionNotFound
    | GadDisabled
    | NoDebtToDeleverage
    | LtvBelowGadThreshold
    | CrankTooSoon
    | NothingToLiquidate
    | BelowCollateralFloor
    | InvalidGadConfig
    | NoLpShares
    | ProtocolPaused
    | Unauthorized
    | StalePriceFeed
    | FlashLoanNotRepaid
    | InvalidOracle
    | SlippageExceeded
    | MaxCollateralTypesReached
    | MaxBorrowTypesReached
      /** `ErrorCode::NoCollateral` of the credit program */
    | NoCollateral
      /** the flash-loan program's slot check (its error code is not declared in `LegasiError`) */
    | InvalidSlot
      /** a Rust arithmetic panic (an unchecked overflow), which aborts the instruction */
    | ArithmeticPanic
      /** a token or lamport transfer that the runtime refused (for example an empty source) */
    | TransferFailed

  datatype Result<+T> = Ok(value: T) | Err(error: Error)
  {
    predicate IsFailure() { Err? }

    function PropagateFailure<U>(): Result<U>
      requires Err?
    {
      Err(error)
    }

    function Extract(): T
      requires Ok?
    {
      value
    }
  }

  /** What a handler returns to the runtime: `Ok(())` or an error. */
  datatype Outcome = Success | Failure(error: Error)

  function OutcomeOf<T>(r: Result<T>): (o: Outcome)
    ensures o.Success? <==> r.Ok?
    ensures r.Err? ==> o == Failure(r.error)
  {
    if r.Ok? then Success else Failure(r.error)
  }
}
