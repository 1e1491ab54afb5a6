/** The leverage program (`legasi-leverage/src/lib.rs`).

    `open_long` takes SOL from the owner, lends USDC worth `multiplier - 1` times that SOL (for the
    owner to swap into more SOL elsewhere) and records both on the owner's lending position and
    in a new leverage record. It applies no loan-to-value limit to the position. `close_position`
    takes back the whole USDC debt, drops every USDC borrow entry and marks the record closed;
    the profit and loss it reports is `current value - entry value - borrowed`, in saturating
    `i64` arithmetic. */
module Leverage {
  import opened Num
  import opened Errors
  import opened Constants
  import opened State
  import opened Ledger
  import Lending

  /** A snapshot of a `LeveragePosition` account. */
  datatype LeverageData = LeverageData(
    owner: Pubkey,
    position: Pubkey,
    collateralType: AssetType,
    borrowType: AssetType,
    initialCollateral: U64,
    totalCollateral: U64,
    totalBorrowed: U64,
    leverageMultiplier: U8,
    entryPriceUsd: U64,
    isLong: bool,
    isActive: bool,
    openedAt: I64)

  /** `LeveragePosition` */
  class LeveragePosition {
    var owner: Pubkey
    var position: Pubkey
    var collateralType: AssetType
    var borrowType: AssetType
    var initialCollateral: U64
    var totalCollateral: U64
    var totalBorrowed: U64
    var leverageMultiplier: U8
    var entryPriceUsd: U64
    var isLong: bool
    var isActive: bool
    var openedAt: I64

    function Data(): LeverageData
      reads this
    {
      LeverageData(owner, position, collateralType, borrowType, initialCollateral, totalCollateral,
                   totalBorrowed, leverageMultiplier, entryPriceUsd, isLong, isActive, openedAt)
    }

    constructor (d: LeverageData)
      ensures Data() == d
    {
      owner := d.owner;
      position := d.position;
      collateralType := d.collateralType;
      borrowType := d.borrowType;
      initialCollateral := d.initialCollateral;
      totalCollateral := d.totalCollateral;
      totalBorrowed := d.totalBorrowed;
      leverageMultiplier := d.leverageMultiplier;
      entryPriceUsd := d.entryPriceUsd;
      isLong := d.isLong;
      isActive := d.isActive;
      openedAt := d.openedAt;
    }
  }

  /** USD value (6 decimals) of `lamports` at a SOL price: `(lamports * price / 1e9) as u64`; the
      `u128` product cannot overflow. */
  function SolValue(lamports: U64, price: U64): U64 {
    EntryValue(CollateralDeposit(SOL, lamports), price)
  }

  // ---------------------------------------------------------------- open

  /** What a successful `open_long` writes: the lending position and the new leverage record. */
  datatype Opened = Opened(position: PositionData, record: LeverageData)

  /** The USDC `open_long` lends: the value of the SOL put in, times `multiplier - 1`
      (`checked_mul`). */
  function LeverageBorrow(initialCollateral: U64, multiplier: U8, solPrice: U64): (r: Result<U64>)
    requires 2 <= multiplier
    ensures r.Err? <==> SolValue(initialCollateral, solPrice) * (multiplier - 1) > U64_MAX
    ensures r.Err? ==> r.error == MathOverflow
    ensures r.Ok? ==> r.value == SolValue(initialCollateral, solPrice) * (multiplier - 1)
                      && r.value >= SolValue(initialCollateral, solPrice)
  {
    var value := SolValue(initialCollateral, solPrice);
    MulMonotone(1, multiplier - 1, value);
    if value * (multiplier - 1) > U64_MAX then Err(MathOverflow) else Ok(value * (multiplier - 1))
  }

  /** `open_long`: a positive amount of SOL and a multiplier from 2 to 5 (both `InvalidAmount`),
      enough USDC in the vault, the two transfers, `initial * multiplier` at least the caller's
      slippage bound, then the SOL into the position's SOL entry and the loan into its USDC entry
      (each found or appended). Nothing compares the new debt with the position's collateral. */
  function OpenLong(d: PositionData, owner: Pubkey, positionKey: Pubkey, initialCollateral: U64, multiplier: U8,
                    minCollateralReceived: U64, solPrice: U64, usdcVault: U64, now: I64, transferOk: bool)
    : (r: Result<Opened>)
    ensures initialCollateral == 0 || multiplier < 2 || multiplier > 5 ==> r == Err(InvalidAmount)
    ensures r.Ok? ==> 2 <= multiplier <= 5 && LeverageBorrow(initialCollateral, multiplier, solPrice).Ok?
    ensures r.Ok? ==> var borrowed := LeverageBorrow(initialCollateral, multiplier, solPrice).value;
                      && borrowed <= usdcVault && transferOk
                      && minCollateralReceived <= initialCollateral * multiplier <= U64_MAX
                      && r.value.record == LeverageData(owner, positionKey, SOL, USDC, initialCollateral,
                                                        initialCollateral, borrowed, multiplier, solPrice,
                                                        true, true, now)
                      && Held(r.value.position.collaterals, SOL) == Held(d.collaterals, SOL) + initialCollateral
                      && DebtValue(r.value.position.borrows, AllAssets) == DebtValue(d.borrows, AllAssets) + borrowed
    ensures r.Ok? ==> forall a :: a != SOL ==> Held(r.value.position.collaterals, a) == Held(d.collaterals, a)
    ensures r.Ok? ==> AddBorrow(d.borrows, USDC, LeverageBorrow(initialCollateral, multiplier, solPrice).value).Ok?
                      && r.value.position.borrows
                         == AddBorrow(d.borrows, USDC, LeverageBorrow(initialCollateral, multiplier, solPrice).value).value
    ensures r.Ok? ==> r.value.position == d.(collaterals := r.value.position.collaterals,
                                             borrows := r.value.position.borrows, lastUpdate := now)
  {
    if initialCollateral == 0 || multiplier < 2 || multiplier > 5 then Err(InvalidAmount)
    else
      var borrowed :- LeverageBorrow(initialCollateral, multiplier, solPrice);
      if usdcVault < borrowed then Err(InsufficientLiquidity)
      else if !transferOk then Err(TransferFailed)
      else if initialCollateral * multiplier > U64_MAX then Err(MathOverflow)
      else if initialCollateral * multiplier < minCollateralReceived then Err(SlippageExceeded)
      else
        var cs :- AddCollateral(d.collaterals, SOL, initialCollateral);
        var bs :- AddBorrow(d.borrows, USDC, borrowed);
        Ok(Opened(d.(collaterals := cs, borrows := bs, lastUpdate := now),
                  LeverageData(owner, positionKey, SOL, USDC, initialCollateral, initialCollateral, borrowed,
                               multiplier, solPrice, true, true, now)))
  }

  /** Opening keeps the position within its bounds, with one entry per asset. */
  lemma OpenLongKeepsValid(d: PositionData, owner: Pubkey, positionKey: Pubkey, initialCollateral: U64, multiplier: U8,
                           minCollateralReceived: U64, solPrice: U64, usdcVault: U64, now: I64, transferOk: bool)
    requires d.Valid()
    requires OpenLong(d, owner, positionKey, initialCollateral, multiplier, minCollateralReceived, solPrice,
                      usdcVault, now, transferOk).Ok?
    ensures OpenLong(d, owner, positionKey, initialCollateral, multiplier, minCollateralReceived, solPrice,
                     usdcVault, now, transferOk).value.position.Valid()
  {
    var borrowed := LeverageBorrow(initialCollateral, multiplier, solPrice).value;
    AddCollateralKeepsDistinct(d.collaterals, SOL, initialCollateral);
    AddBorrowKeepsDistinct(d.borrows, USDC, borrowed);
  }

  /** With no loan-to-value check, opening on an empty position at any price that gives the SOL a
      value leaves a debt of at least that value: more than the lending program's limit of 75 %
      plus the largest reputation bonus of 5 % would ever admit. */
  lemma OpenLongExceedsLendingLimit(d: PositionData, owner: Pubkey, positionKey: Pubkey, initialCollateral: U64,
                                    multiplier: U8, minCollateralReceived: U64, solPrice: U64, usdcVault: U64,
                                    now: I64, transferOk: bool)
    requires d.collaterals == [] && d.borrows == []
    requires SolValue(initialCollateral, solPrice) > 0
    requires OpenLong(d, owner, positionKey, initialCollateral, multiplier, minCollateralReceived, solPrice,
                      usdcVault, now, transferOk).Ok?
    ensures var p := OpenLong(d, owner, positionKey, initialCollateral, multiplier, minCollateralReceived, solPrice,
                              usdcVault, now, transferOk).value.position;
            DebtValue(p.borrows, AllAssets) * BPS_DENOMINATOR
            > CollateralValue(p.collaterals, solPrice, Lending.LENDING_VALUED) * (DEFAULT_SOL_MAX_LTV_BPS + 500)
  {
    var value := SolValue(initialCollateral, solPrice);
    var borrowed := LeverageBorrow(initialCollateral, multiplier, solPrice).value;
    var p := OpenLong(d, owner, positionKey, initialCollateral, multiplier, minCollateralReceived, solPrice,
                      usdcVault, now, transferOk).value.position;
    AddToEmpty(initialCollateral, borrowed);
    assert p.collaterals == [CollateralDeposit(SOL, initialCollateral)];
    assert p.borrows == [BorrowedAmount(USDC, borrowed, 0)];
    SingleEntryValues(initialCollateral, borrowed, solPrice);
    AboveEightyPercent(value, borrowed);
  }

  /** Find-or-push into empty vectors appends the one entry. */
  lemma AddToEmpty(lamports: U64, borrowed: U64)
    ensures AddCollateral([], SOL, lamports) == Ok([CollateralDeposit(SOL, lamports)])
    ensures AddBorrow([], USDC, borrowed) == Ok([BorrowedAmount(USDC, borrowed, 0)])
  {
    assert CollateralIndex([], SOL) == -1 && BorrowIndex([], USDC) == -1;
    assert [] + [CollateralDeposit(SOL, lamports)] == [CollateralDeposit(SOL, lamports)];
    assert [] + [BorrowedAmount(USDC, borrowed, 0)] == [BorrowedAmount(USDC, borrowed, 0)];
  }

  /** The value of a single SOL entry and the debt of a single fresh USDC entry. */
  lemma SingleEntryValues(lamports: U64, borrowed: U64, solPrice: U64)
    ensures CollateralValue([CollateralDeposit(SOL, lamports)], solPrice, Lending.LENDING_VALUED)
            == SolValue(lamports, solPrice)
    ensures DebtValue([BorrowedAmount(USDC, borrowed, 0)], AllAssets) == borrowed
  {
    assert [CollateralDeposit(SOL, lamports)][..0] == [];
    assert [BorrowedAmount(USDC, borrowed, 0)][..0] == [];
  }

  /** A debt at least as large as a positive value exceeds 80 % of it. */
  lemma AboveEightyPercent(value: nat, borrowed: nat)
    requires 0 < value <= borrowed
    ensures borrowed * BPS_DENOMINATOR > value * (DEFAULT_SOL_MAX_LTV_BPS + 500)
  {
    MulMonotone(value, borrowed, BPS_DENOMINATOR);
  }

  // ---------------------------------------------------------------- profit and loss

  /** The profit and loss `close_position` reports: both values are of the record's current
      collateral, at the entry price and at the current price, each cast `as i64`, and
      `current - entry - borrowed` is computed with `saturating_sub`. */
  function Pnl(record: LeverageData, solPrice: U64): (r: I64)
    ensures SolValue(record.totalCollateral, solPrice) <= I64_MAX
            && SolValue(record.totalCollateral, record.entryPriceUsd) <= I64_MAX
            && record.totalBorrowed <= I64_MAX
            && I64_MIN <= SolValue(record.totalCollateral, solPrice) - SolValue(record.totalCollateral, record.entryPriceUsd) - record.totalBorrowed
            ==> r == SolValue(record.totalCollateral, solPrice) - SolValue(record.totalCollateral, record.entryPriceUsd) - record.totalBorrowed
  {
    var current := U64AsI64(SolValue(record.totalCollateral, solPrice));
    var entry := U64AsI64(SolValue(record.totalCollateral, record.entryPriceUsd));
    SatSubI64(SatSubI64(current, entry), U64AsI64(record.totalBorrowed))
  }

  /** `saturating_sub` keeps the order of its first operand. */
  lemma SatSubI64Monotone(a: I64, b: I64, c: I64)
    requires a <= b
    ensures SatSubI64(a, c) <= SatSubI64(b, c)
  {
  }

  /** Where the current value does not wrap, a higher SOL price never lowers the reported result. */
  lemma PnlMonotoneInPrice(record: LeverageData, p1: U64, p2: U64)
    requires p1 <= p2
    requires record.totalCollateral * p2 / LAMPORTS_PER_SOL <= I64_MAX
    ensures Pnl(record, p1) <= Pnl(record, p2)
  {
    var c := record.totalCollateral;
    MulMonotone(p1, p2, c);
    assert p1 * c == c * p1 && p2 * c == c * p2;
    DivMonotone(c * p1, c * p2, LAMPORTS_PER_SOL);
    var v1 := SolValue(c, p1);
    var v2 := SolValue(c, p2);
    assert v1 <= v2 <= I64_MAX;
    var entry := U64AsI64(SolValue(c, record.entryPriceUsd));
    SatSubI64Monotone(v1, v2, entry);
    SatSubI64Monotone(SatSubI64(v1, entry), SatSubI64(v2, entry), U64AsI64(record.totalBorrowed));
  }

  /** `current - current` saturates nowhere, and subtracting a non-negative amount from zero
      cannot reach `i64::MIN`. */
  lemma SatSubSelf(v: I64, b: I64)
    requires 0 <= b
    ensures SatSubI64(SatSubI64(v, v), b) == -b
  {
  }

  /** At the entry price the result is the loss of the whole debt. */
  lemma PnlAtEntryPrice(record: LeverageData)
    requires record.totalBorrowed <= I64_MAX
    ensures Pnl(record, record.entryPriceUsd) == -(record.totalBorrowed as int)
  {
    var v := U64AsI64(SolValue(record.totalCollateral, record.entryPriceUsd));
    SatSubSelf(v, U64AsI64(record.totalBorrowed));
  }

  // ---------------------------------------------------------------- close

  /** What a successful `close_position` writes and reports. */
  datatype Closed = Closed(position: PositionData, record: LeverageData, pnl: I64, repaid: U64)

  /** `retain(|b| b.asset_type != USDC)` */
  function NotUsdc(b: BorrowedAmount): bool { b.assetType != USDC }

  /** Dropping the USDC entries leaves exactly the debt of the other assets. */
  lemma {:induction false} DropUsdcDebt(bs: seq<BorrowedAmount>, counted: set<AssetType>)
    ensures DebtValue(Retain(bs, NotUsdc), counted) == DebtValue(bs, counted - {USDC})
    decreases |bs|
  {
    if bs != [] {
      var init := bs[..|bs| - 1];
      var last := bs[|bs| - 1];
      DropUsdcDebt(init, counted);
      var ri := Retain(init, NotUsdc);
      if NotUsdc(last) {
        assert (ri + [last])[..|ri|] == ri;
      }
    }
  }

  /** `close_position`: an active record (else `PositionNotFound`), the result at the current
      price, a USDC entry on the position (else `PositionNotFound`) whose principal plus interest
      (`checked_add`) the owner pays back, then every USDC entry is dropped, the reputation is
      credited with one repayment of that amount (saturating), and the record is marked closed. */
  function ClosePosition(d: PositionData, record: LeverageData, solPrice: U64, now: I64, transferOk: bool)
    : (r: Result<Closed>)
    ensures !record.isActive ==> r == Err(PositionNotFound)
    ensures record.isActive && BorrowIndex(d.borrows, USDC) == -1 ==> r == Err(PositionNotFound)
    ensures r.Ok? ==> record.isActive && BorrowIndex(d.borrows, USDC) >= 0 && transferOk
    ensures r.Ok? ==> var owed := Owed(d.borrows[BorrowIndex(d.borrows, USDC)]);
                      && r.value.repaid == owed
                      && r.value.record == record.(isActive := false)
                      && r.value.pnl == Pnl(record, solPrice)
                      && r.value.position.reputation
                         == d.reputation.(successfulRepayments := SatAddU32(d.reputation.successfulRepayments, 1),
                                          totalRepaidUsd := SatAddU64(d.reputation.totalRepaidUsd, owed))
    ensures r.Ok? ==> forall b :: b in r.value.position.borrows <==> b in d.borrows && b.assetType != USDC
    ensures r.Ok? ==> r.value.position == d.(borrows := r.value.position.borrows, lastUpdate := now,
                                             reputation := r.value.position.reputation)
  {
    if !record.isActive then Err(PositionNotFound)
    else
      var pnl := Pnl(record, solPrice);
      var i := BorrowIndex(d.borrows, USDC);
      if i == -1 then Err(PositionNotFound)
      else if Owed(d.borrows[i]) > U64_MAX then Err(MathOverflow)
      else if !transferOk then Err(TransferFailed)
      else
        var owed := Owed(d.borrows[i]);
        var rep := d.reputation.(successfulRepayments := SatAddU32(d.reputation.successfulRepayments, 1),
                                 totalRepaidUsd := SatAddU64(d.reputation.totalRepaidUsd, owed));
        Ok(Closed(d.(borrows := Retain(d.borrows, NotUsdc), lastUpdate := now, reputation := rep),
                  record.(isActive := false), pnl, owed))
  }

  /** Closing clears the whole USDC debt and leaves the debt in every other asset as it was. */
  lemma CloseClearsUsdc(d: PositionData, record: LeverageData, solPrice: U64, now: I64, transferOk: bool)
    requires ClosePosition(d, record, solPrice, now, transferOk).Ok?
    ensures var p := ClosePosition(d, record, solPrice, now, transferOk).value.position;
            && DebtValue(p.borrows, {USDC}) == 0
            && DebtValue(p.borrows, AllAssets) == DebtValue(d.borrows, AllAssets - {USDC})
  {
    DropUsdcDebt(d.borrows, {USDC});
    assert {USDC} - {USDC} == {};
    DebtOfNothing(d.borrows);
    DropUsdcDebt(d.borrows, AllAssets);
  }

  /** No entry counts towards the debt of no asset. */
  lemma {:induction false} DebtOfNothing(bs: seq<BorrowedAmount>)
    ensures DebtValue(bs, {}) == 0
    decreases |bs|
  {
    if bs != [] {
      DebtOfNothing(bs[..|bs| - 1]);
    }
  }

  /** A record is closed once: closing it again is refused. */
  lemma CloseOnce(d: PositionData, record: LeverageData, solPrice: U64, now: I64, transferOk: bool,
                  d2: PositionData, solPrice2: U64, now2: I64, transferOk2: bool)
    requires ClosePosition(d, record, solPrice, now, transferOk).Ok?
    ensures ClosePosition(d2, ClosePosition(d, record, solPrice, now, transferOk).value.record, solPrice2, now2,
                          transferOk2) == Err(PositionNotFound)
  {
  }

  // ---------------------------------------------------------------- update

  /** `update_leverage_collateral`: on an active record, a new total no smaller than the initial
      collateral replaces the total. */
  function UpdateLeverageCollateral(record: LeverageData, newTotalCollateral: U64): (r: Result<LeverageData>)
    ensures !record.isActive ==> r == Err(PositionNotFound)
    ensures record.isActive && newTotalCollateral < record.initialCollateral ==> r == Err(InvalidAmount)
    ensures r.Ok? <==> record.isActive && newTotalCollateral >= record.initialCollateral
    ensures r.Ok? ==> r.value == record.(totalCollateral := newTotalCollateral)
  {
    if !record.isActive then Err(PositionNotFound)
    else if newTotalCollateral < record.initialCollateral then Err(InvalidAmount)
    else Ok(record.(totalCollateral := newTotalCollateral))
  }

  // ---------------------------------------------------------------- the handlers

  /** `open_long` on the lending position: creates the leverage record. */
  method OpenLongOn(position: Position, owner: Pubkey, positionKey: Pubkey, initialCollateral: U64, multiplier: U8,
                    minCollateralReceived: U64, solPrice: U64, usdcVault: U64, now: I64, transferOk: bool)
    returns (o: Outcome, record: LeveragePosition?)
    modifies position
    ensures var r := OpenLong(old(position.Data()), owner, positionKey, initialCollateral, multiplier,
                              minCollateralReceived, solPrice, usdcVault, now, transferOk);
            && o == OutcomeOf(r)
            && (o.Success? ==> position.Data() == r.value.position && record != null && fresh(record)
                               && record.Data() == r.value.record)
    ensures o.Failure? ==> position.Data() == old(position.Data()) && record == null
  {
    record := null;
    if initialCollateral == 0 || multiplier < 2 || multiplier > 5 {
      return Failure(InvalidAmount), null;
    }
    var value := WrapU64(initialCollateral * solPrice / LAMPORTS_PER_SOL);
    if value * (multiplier - 1) > U64_MAX {
      return Failure(MathOverflow), null;
    }
    var borrowed := value * (multiplier - 1);
    if usdcVault < borrowed {
      return Failure(InsufficientLiquidity), null;
    }
    if !transferOk {
      return Failure(TransferFailed), null;
    }
    if initialCollateral * multiplier > U64_MAX {
      return Failure(MathOverflow), null;
    }
    if initialCollateral * multiplier < minCollateralReceived {
      return Failure(SlippageExceeded), null;
    }
    var d := position.Data();
    var cs := DepositInto(d.collaterals, SOL, initialCollateral);
    if cs.Err? {
      return Failure(cs.error), null;
    }
    var bs := BorrowInto(d.borrows, USDC, borrowed);
    if bs.Err? {
      return Failure(bs.error), null;
    }
    record := new LeveragePosition(LeverageData(owner, positionKey, SOL, USDC, initialCollateral, initialCollateral,
                                                borrowed, multiplier, solPrice, true, true, now));
    position.Store(d.(collaterals := cs.value, borrows := bs.value, lastUpdate := now));
    o := Success;
  }

  /** `close_position` on the lending position and the leverage record. */
  method ClosePositionOn(position: Position, record: LeveragePosition, solPrice: U64, now: I64, transferOk: bool)
    returns (o: Outcome, pnl: I64)
    modifies position, record
    ensures var r := ClosePosition(old(position.Data()), old(record.Data()), solPrice, now, transferOk);
            && o == OutcomeOf(r)
            && (o.Success? ==> position.Data() == r.value.position && record.Data() == r.value.record
                               && pnl == r.value.pnl)
    ensures o.Failure? ==> position.Data() == old(position.Data()) && record.Data() == old(record.Data())
  {
    pnl := 0;
    if !record.isActive {
      return Failure(PositionNotFound), 0;
    }
    pnl := Pnl(record.Data(), solPrice);
    var d := position.Data();
    var i := FindBorrow(d.borrows, USDC);
    if i == -1 {
      return Failure(PositionNotFound), 0;
    }
    BorrowIndexIs(d.borrows, USDC, i);
    if d.borrows[i].amount + d.borrows[i].accruedInterest > U64_MAX {
      return Failure(MathOverflow), 0;
    }
    var owed := d.borrows[i].amount + d.borrows[i].accruedInterest;
    if !transferOk {
      return Failure(TransferFailed), 0;
    }
    var bs := RetainLoop(d.borrows, NotUsdc);
    var rep := d.reputation.(successfulRepayments := SatAddU32(d.reputation.successfulRepayments, 1),
                             totalRepaidUsd := SatAddU64(d.reputation.totalRepaidUsd, owed));
    position.Store(d.(borrows := bs, lastUpdate := now, reputation := rep));
    record.isActive := false;
    o := Success;
  }

  /** `update_leverage_collateral` on the leverage record. */
  method UpdateLeverageCollateralOn(record: LeveragePosition, newTotalCollateral: U64) returns (o: Outcome)
    modifies record
    ensures o == OutcomeOf(UpdateLeverageCollateral(old(record.Data()), newTotalCollateral))
    ensures o.Success? ==> record.Data() == UpdateLeverageCollateral(old(record.Data()), newTotalCollateral).value
    ensures o.Failure? ==> record.Data() == old(record.Data())
  {
    if !record.isActive {
      return Failure(PositionNotFound);
    }
    if newTotalCollateral < record.initialCollateral {
      return Failure(InvalidAmount);
    }
    record.totalCollateral := newTotalCollateral;
    o := Success;
  }
}
