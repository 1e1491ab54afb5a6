/** The lending program (`legasi-lending/src/lib.rs`).

    A position deposits SOL and tokens as collateral, borrows stablecoins against the SOL and cbBTC
    it holds (both valued at the SOL price) up to 75 % of their value plus a reputation bonus,
    repays interest before principal, withdraws SOL while the debt stays within 75 % of what is
    left, and accrues interest at most once an hour. An agent may borrow USDC within a daily limit
    and repay any debt automatically.

    Each instruction is a function from the accounts it reads to a `Result`, and a method on the
    account objects that performs it with the program's loops; on an error nothing changes. */
module Lending {
  import opened Num
  import opened Errors
  import opened Constants
  import opened State
  import opened Ledger

  // ---------------------------------------------------------------- deposits

  /** The position writes of both deposit handlers: add to the entry of `asset` or append one,
      and stamp the position. */
  function CreditDeposit(d: PositionData, asset: AssetType, amount: U64, now: I64): (r: Result<PositionData>)
    ensures r.Ok? <==> if CollateralIndex(d.collaterals, asset) >= 0 then Held(d.collaterals, asset) + amount <= U64_MAX
                       else |d.collaterals| < MAX_COLLATERAL_TYPES
    ensures r.Err? ==> r.error == MathOverflow || r.error == MaxCollateralTypesReached
    ensures r.Ok? ==> Held(r.value.collaterals, asset) == Held(d.collaterals, asset) + amount
    ensures r.Ok? ==> forall b :: b != asset ==> Held(r.value.collaterals, b) == Held(d.collaterals, b)
    ensures r.Ok? ==> r.value == d.(collaterals := r.value.collaterals, lastUpdate := now)
  {
    var cs :- AddCollateral(d.collaterals, asset, amount);
    Ok(d.(collaterals := cs, lastUpdate := now))
  }

  /** A deposit keeps the position within its bounds, with one entry per asset. */
  lemma CreditKeepsValid(d: PositionData, asset: AssetType, amount: U64, now: I64)
    requires d.Valid() && CreditDeposit(d, asset, amount, now).Ok?
    ensures CreditDeposit(d, asset, amount, now).value.Valid()
  {
    AddCollateralKeepsDistinct(d.collaterals, asset, amount);
  }

  /** `deposit_sol`: a positive amount, the lamport transfer, then the find-or-push. */
  function DepositSol(d: PositionData, amount: U64, now: I64, transferOk: bool): (r: Result<PositionData>)
    ensures amount == 0 ==> r == Err(InvalidAmount)
    ensures amount > 0 && !transferOk ==> r == Err(TransferFailed)
    ensures amount > 0 && transferOk ==> r == CreditDeposit(d, SOL, amount, now)
    ensures r.Ok? ==> Held(r.value.collaterals, SOL) == Held(d.collaterals, SOL) + amount
                      && r.value.borrows == d.borrows && r.value.reputation == d.reputation
  {
    if amount == 0 then Err(InvalidAmount)
    else if !transferOk then Err(TransferFailed)
    else CreditDeposit(d, SOL, amount, now)
  }

  /** A successful token deposit: the new position and the asset's new running total. */
  datatype TokenDeposit = TokenDeposit(position: PositionData, totalDeposited: U64)

  /** `deposit_token` for the asset of a collateral configuration: a positive amount, an active
      asset, the token transfer, the find-or-push, and the configuration's running total
      (`checked_add`). */
  function DepositToken(d: PositionData, asset: AssetType, active: bool, totalDeposited: U64,
                        amount: U64, now: I64, transferOk: bool): (r: Result<TokenDeposit>)
    ensures amount == 0 ==> r == Err(InvalidAmount)
    ensures amount > 0 && !active ==> r == Err(AssetNotActive)
    ensures amount > 0 && active && transferOk && CreditDeposit(d, asset, amount, now).Ok?
            ==> (r.Ok? <==> totalDeposited + amount <= U64_MAX)
    ensures r.Ok? ==> CreditDeposit(d, asset, amount, now).Ok? && r.value.position == CreditDeposit(d, asset, amount, now).value
    ensures r.Ok? ==> Held(r.value.position.collaterals, asset) == Held(d.collaterals, asset) + amount
                      && r.value.totalDeposited == totalDeposited + amount
  {
    if amount == 0 then Err(InvalidAmount)
    else if !active then Err(AssetNotActive)
    else if !transferOk then Err(TransferFailed)
    else
      var p :- CreditDeposit(d, asset, amount, now);
      if totalDeposited + amount > U64_MAX then Err(MathOverflow)
      else Ok(TokenDeposit(p, totalDeposited + amount))
  }

  // ---------------------------------------------------------------- the borrowing limit

  /** The lending program values SOL and cbBTC entries, both at the SOL price. */
  const LENDING_VALUED: set<AssetType> := {SOL, CbBTC}

  /** What the two summing loops of the borrow handlers read off the position. */
  datatype Valuation = Valuation(collateralUsd: U64, debtUsd: U64)

  /** The summing loops of `borrow` and `agent_borrow`: the SOL and cbBTC entries at the SOL price,
      and principal plus interest of every borrow entry, each sum with `checked_add`. */
  function Value(d: PositionData, solPrice: U64): (r: Result<Valuation>)
    ensures r.Err? <==> CollateralValue(d.collaterals, solPrice, LENDING_VALUED) > U64_MAX
                        || DebtValue(d.borrows, AllAssets) > U64_MAX
    ensures r.Err? ==> r.error == MathOverflow
    ensures r.Ok? ==> r.value.collateralUsd == CollateralValue(d.collaterals, solPrice, LENDING_VALUED)
                      && r.value.debtUsd == DebtValue(d.borrows, AllAssets)
  {
    var collateralUsd := CollateralValue(d.collaterals, solPrice, LENDING_VALUED);
    var debtUsd := DebtValue(d.borrows, AllAssets);
    if collateralUsd > U64_MAX || debtUsd > U64_MAX then Err(MathOverflow)
    else Ok(Valuation(collateralUsd, debtUsd))
  }

  /** A cbBTC entry adds to the collateral value what a SOL entry of the same amount adds: its
      amount at the SOL price. */
  lemma CbBtcAtSolPrice(cs: seq<CollateralDeposit>, solPrice: U64, n: U64)
    ensures CollateralValue(cs + [CollateralDeposit(CbBTC, n)], solPrice, LENDING_VALUED)
            == CollateralValue(cs + [CollateralDeposit(SOL, n)], solPrice, LENDING_VALUED)
            == CollateralValue(cs, solPrice, LENDING_VALUED) + EntryValue(CollateralDeposit(SOL, n), solPrice)
  {
    assert (cs + [CollateralDeposit(CbBTC, n)])[..|cs|] == cs;
    assert (cs + [CollateralDeposit(SOL, n)])[..|cs|] == cs;
  }

  /** The LTV limit with the reputation bonus: `7500 + get_ltv_bonus_bps()` (the `saturating_add`
      never saturates); a score that overflows panics. */
  function EffectiveLtv(rep: Reputation): (r: Result<U64>)
    ensures r.Err? <==> Score(rep).None?
    ensures r.Err? ==> r.error == ArithmeticPanic
    ensures r.Ok? ==> r.value == DEFAULT_SOL_MAX_LTV_BPS + LtvBonus(rep).value
    ensures r.Ok? ==> DEFAULT_SOL_MAX_LTV_BPS <= r.value <= DEFAULT_SOL_MAX_LTV_BPS + 500
  {
    match LtvBonus(rep)
    case None => Err(ArithmeticPanic)
    case Some(bonus) => Ok(SatAddU64(DEFAULT_SOL_MAX_LTV_BPS, bonus))
  }

  /** `collateral_usd.checked_mul(ltv)? / 10000`: the largest debt the collateral carries. */
  function MaxBorrow(collateralUsd: U64, ltvBps: U64): (r: Result<U64>)
    ensures r.Ok? <==> collateralUsd * ltvBps <= U64_MAX
    ensures r.Err? ==> r.error == MathOverflow
    ensures r.Ok? ==> r.value * BPS_DENOMINATOR <= collateralUsd * ltvBps < (r.value + 1) * BPS_DENOMINATOR
  {
    if collateralUsd * ltvBps > U64_MAX then Err(MathOverflow)
    else Ok(collateralUsd * ltvBps / BPS_DENOMINATOR)
  }

  /** A debt fits under the limit exactly when ten thousand times it fits under collateral times
      LTV. */
  lemma WithinMaxBorrow(debt: nat, collateralUsd: U64, ltvBps: U64)
    requires MaxBorrow(collateralUsd, ltvBps).Ok?
    ensures debt <= MaxBorrow(collateralUsd, ltvBps).value <==> debt * BPS_DENOMINATOR <= collateralUsd * ltvBps
  {
    var m := MaxBorrow(collateralUsd, ltvBps).value;
    if debt <= m {
      MulMonotone(debt, m, BPS_DENOMINATOR);
    } else {
      MulMonotone(m + 1, debt, BPS_DENOMINATOR);
    }
  }

  // ---------------------------------------------------------------- borrow

  /** `borrow` of the asset of a borrowable configuration: a positive amount, an active asset, a
      vault holding the amount, the summing loops, the new debt (`checked_add`), the limit with the
      reputation bonus, the token transfer, and the find-or-push into the borrow entries. */
  function Borrow(d: PositionData, asset: AssetType, active: bool, vaultBalance: U64, amount: U64,
                  solPrice: U64, now: I64, transferOk: bool): (r: Result<PositionData>)
    ensures amount == 0 ==> r == Err(InvalidAmount)
    ensures amount > 0 && !active ==> r == Err(AssetNotActive)
    ensures amount > 0 && active && vaultBalance < amount ==> r == Err(InsufficientLiquidity)
    ensures r.Ok? ==> r.value == d.(borrows := r.value.borrows, lastUpdate := now)
    ensures r.Ok? ==> AddBorrow(d.borrows, asset, amount).Ok? && r.value.borrows == AddBorrow(d.borrows, asset, amount).value
    ensures r.Ok? ==> DebtValue(r.value.borrows, AllAssets) == DebtValue(d.borrows, AllAssets) + amount
    ensures r.Ok? ==> LtvBonus(d.reputation).Some?
                      && DebtValue(r.value.borrows, AllAssets) * BPS_DENOMINATOR
                         <= CollateralValue(d.collaterals, solPrice, LENDING_VALUED)
                            * (DEFAULT_SOL_MAX_LTV_BPS + LtvBonus(d.reputation).value)
  {
    if amount == 0 then Err(InvalidAmount)
    else if !active then Err(AssetNotActive)
    else if vaultBalance < amount then Err(InsufficientLiquidity)
    else
      var v :- Value(d, solPrice);
      if v.debtUsd + amount > U64_MAX then Err(MathOverflow)
      else
        var ltv :- EffectiveLtv(d.reputation);
        var maxBorrow :- MaxBorrow(v.collateralUsd, ltv);
        if v.debtUsd + amount > maxBorrow then Err(ExceedsLTV)
        else if !transferOk then Err(TransferFailed)
        else
          WithinMaxBorrow(v.debtUsd + amount, v.collateralUsd, ltv);
          var bs :- AddBorrow(d.borrows, asset, amount);
          Ok(d.(borrows := bs, lastUpdate := now))
  }

  /** Conversely, a borrow whose new debt fits the limit with the bonus, and whose entry can be
      found or appended, succeeds. */
  lemma BorrowAdmits(d: PositionData, asset: AssetType, vaultBalance: U64, amount: U64, solPrice: U64, now: I64)
    requires 0 < amount <= vaultBalance && LtvBonus(d.reputation).Some?
    requires CollateralValue(d.collaterals, solPrice, LENDING_VALUED)
             * (DEFAULT_SOL_MAX_LTV_BPS + LtvBonus(d.reputation).value) <= U64_MAX
    requires (DebtValue(d.borrows, AllAssets) + amount) * BPS_DENOMINATOR
             <= CollateralValue(d.collaterals, solPrice, LENDING_VALUED)
                * (DEFAULT_SOL_MAX_LTV_BPS + LtvBonus(d.reputation).value)
    requires AddBorrow(d.borrows, asset, amount).Ok?
    ensures Borrow(d, asset, true, vaultBalance, amount, solPrice, now, true).Ok?
  {
    var c := CollateralValue(d.collaterals, solPrice, LENDING_VALUED);
    var ltv := DEFAULT_SOL_MAX_LTV_BPS + LtvBonus(d.reputation).value;
    MulMonotone(1, ltv, c);
    var debt := DebtValue(d.borrows, AllAssets) + amount;
    MulMonotone(1, BPS_DENOMINATOR, debt);
    WithinMaxBorrow(debt, c, ltv);
  }

  /** A borrow keeps the position within its bounds, with one entry per asset. */
  lemma BorrowKeepsValid(d: PositionData, asset: AssetType, active: bool, vaultBalance: U64, amount: U64,
                         solPrice: U64, now: I64, transferOk: bool)
    requires d.Valid() && Borrow(d, asset, active, vaultBalance, amount, solPrice, now, transferOk).Ok?
    ensures Borrow(d, asset, active, vaultBalance, amount, solPrice, now, transferOk).value.Valid()
  {
    AddBorrowKeepsDistinct(d.borrows, asset, amount);
  }

  // ---------------------------------------------------------------- repay

  /** The payment into the entry of the repaid asset: interest first (`min`), the rest from the
      principal, both with `saturating_sub`. */
  function RepayEntry(b: BorrowedAmount, paid: nat): (nb: BorrowedAmount)
    ensures nb.assetType == b.assetType && nb.amount <= b.amount && nb.accruedInterest <= b.accruedInterest
    ensures nb.amount < b.amount ==> nb.accruedInterest == 0
    ensures paid <= Owed(b) ==> Owed(nb) + paid == Owed(b)
  {
    var interestPayment := Min(paid, b.accruedInterest);
    BorrowedAmount(b.assetType, SatSub(b.amount, SatSub(paid, interestPayment)),
                   SatSub(b.accruedInterest, interestPayment))
  }

  /** What the checks of `repay` decide: the entry to pay into and the amount taken. */
  datatype RepayPlan = RepayPlan(index: nat, paid: U64)

  /** The checks of `repay`: a positive amount and something owed on the first entry of the asset
      (principal plus interest with `checked_add`); the payment is `min(amount, owed)`. */
  function PlanRepay(bs: seq<BorrowedAmount>, asset: AssetType, amount: U64): (r: Result<RepayPlan>)
    ensures amount == 0 ==> r == Err(InvalidAmount)
    ensures amount > 0 && BorrowIndex(bs, asset) == -1 ==> r == Err(PositionNotFound)
    ensures amount > 0 && BorrowIndex(bs, asset) >= 0 && 0 < Owed(bs[BorrowIndex(bs, asset)]) <= U64_MAX ==> r.Ok?
    ensures r.Ok? ==> r.value.index == BorrowIndex(bs, asset) && r.value.index < |bs|
                      && r.value.paid == Min(amount, Owed(bs[r.value.index])) > 0
  {
    if amount == 0 then Err(InvalidAmount)
    else
      var i := BorrowIndex(bs, asset);
      if i >= 0 && Owed(bs[i]) > U64_MAX then Err(MathOverflow)
      else
        var owed := if i >= 0 then Owed(bs[i]) else 0;
        if owed == 0 then Err(PositionNotFound)
        else Ok(RepayPlan(i, Min(amount, owed)))
  }

  /** The writes of `repay`: the payment into the entry, the removal of settled entries, and the
      reputation counters (`saturating_add`). */
  function ApplyRepay(d: PositionData, p: RepayPlan, now: I64): (r: PositionData)
    requires p.index < |d.borrows|
    ensures r.collaterals == d.collaterals && r.lastUpdate == now
    ensures r.reputation == d.reputation.(successfulRepayments := SatAddU32(d.reputation.successfulRepayments, 1),
                                          totalRepaidUsd := SatAddU64(d.reputation.totalRepaidUsd, p.paid))
  {
    var bs := d.borrows[p.index := RepayEntry(d.borrows[p.index], p.paid)];
    var rep := d.reputation.(successfulRepayments := SatAddU32(d.reputation.successfulRepayments, 1),
                             totalRepaidUsd := SatAddU64(d.reputation.totalRepaidUsd, p.paid));
    d.(borrows := Retain(bs, OutstandingBorrow), reputation := rep, lastUpdate := now)
  }

  /** A successful repayment: the new position and what was taken from the payer. */
  datatype Repayment = Repayment(position: PositionData, paid: U64)

  /** `repay` of one asset: the checks, the token transfer of the payment, then the writes. */
  function Repay(d: PositionData, asset: AssetType, amount: U64, now: I64, transferOk: bool): (r: Result<Repayment>)
    ensures PlanRepay(d.borrows, asset, amount).Err? ==> r == Err(PlanRepay(d.borrows, asset, amount).error)
    ensures PlanRepay(d.borrows, asset, amount).Ok? && !transferOk ==> r == Err(TransferFailed)
    ensures r.Ok? ==> PlanRepay(d.borrows, asset, amount).Ok?
                      && r.value.paid == PlanRepay(d.borrows, asset, amount).value.paid
                      && r.value.position == ApplyRepay(d, PlanRepay(d.borrows, asset, amount).value, now)
  {
    var p :- PlanRepay(d.borrows, asset, amount);
    if !transferOk then Err(TransferFailed)
    else Ok(Repayment(ApplyRepay(d, p, now), p.paid))
  }

  /** The payment lowers the debt by exactly what it takes, and only the debt of the repaid asset. */
  lemma ApplyRepayPaysDebt(d: PositionData, p: RepayPlan, now: I64, asset: AssetType)
    requires p.index < |d.borrows| && d.borrows[p.index].assetType == asset && p.paid <= Owed(d.borrows[p.index])
    ensures DebtValue(ApplyRepay(d, p, now).borrows, AllAssets) + p.paid == DebtValue(d.borrows, AllAssets)
    ensures DebtValue(ApplyRepay(d, p, now).borrows, AllAssets - {asset}) == DebtValue(d.borrows, AllAssets - {asset})
  {
    var nb := RepayEntry(d.borrows[p.index], p.paid);
    var bs := d.borrows[p.index := nb];
    assert ApplyRepay(d, p, now).borrows == Retain(bs, OutstandingBorrow);
    DebtValueUpdate(d.borrows, p.index, nb, AllAssets);
    DebtValueUpdate(d.borrows, p.index, nb, AllAssets - {asset});
    PruneKeepsDebt(bs, AllAssets);
    PruneKeepsDebt(bs, AllAssets - {asset});
  }

  /** A repayment lowers the debt by exactly what it takes, `min(amount, owed)`, and only the debt
      of the repaid asset. */
  lemma RepayPaysDebt(d: PositionData, asset: AssetType, amount: U64, now: I64, transferOk: bool)
    requires Repay(d, asset, amount, now, transferOk).Ok?
    ensures var p := Repay(d, asset, amount, now, transferOk).value;
            p.paid == Min(amount, Owed(d.borrows[BorrowIndex(d.borrows, asset)]))
            && DebtValue(p.position.borrows, AllAssets) + p.paid == DebtValue(d.borrows, AllAssets)
    ensures var p := Repay(d, asset, amount, now, transferOk).value;
            DebtValue(p.position.borrows, AllAssets - {asset}) == DebtValue(d.borrows, AllAssets - {asset})
  {
    ApplyRepayPaysDebt(d, PlanRepay(d.borrows, asset, amount).value, now, asset);
  }

  /** Replacing a borrow entry by one of the same asset keeps one entry per asset. */
  lemma UpdateKeepsDistinctBorrows(bs: seq<BorrowedAmount>, i: nat, b: BorrowedAmount)
    requires DistinctBorrows(bs) && i < |bs| && b.assetType == bs[i].assetType
    ensures DistinctBorrows(bs[i := b])
  {
  }

  /** Paying everything owed into the entry of an asset removes it, and the position stays within
      its bounds, with one entry per asset. */
  lemma ApplyRepayClears(d: PositionData, p: RepayPlan, now: I64)
    requires d.Valid() && p.index < |d.borrows|
    ensures ApplyRepay(d, p, now).Valid()
    ensures p.paid >= Owed(d.borrows[p.index])
            ==> forall b :: b in ApplyRepay(d, p, now).borrows ==> b.assetType != d.borrows[p.index].assetType
  {
    var i := p.index;
    var nb := RepayEntry(d.borrows[i], p.paid);
    var bs := d.borrows[i := nb];
    assert ApplyRepay(d, p, now).borrows == Retain(bs, OutstandingBorrow);
    UpdateKeepsDistinctBorrows(d.borrows, i, nb);
    RetainKeepsDistinctBorrows(bs, OutstandingBorrow);
    if p.paid >= Owed(d.borrows[i]) {
      forall b | b in Retain(bs, OutstandingBorrow) ensures b.assetType != d.borrows[i].assetType {
        var k :| 0 <= k < |bs| && bs[k] == b;
        if k != i {
          assert d.borrows[k] == b;
        }
      }
    }
  }

  /** A repayment keeps the position valid, and repaying at least what is owed on the asset
      removes its entry. */
  lemma RepayClears(d: PositionData, asset: AssetType, amount: U64, now: I64, transferOk: bool)
    requires d.Valid() && Repay(d, asset, amount, now, transferOk).Ok?
    ensures Repay(d, asset, amount, now, transferOk).value.position.Valid()
    ensures amount >= Owed(d.borrows[BorrowIndex(d.borrows, asset)])
            ==> BorrowIndex(Repay(d, asset, amount, now, transferOk).value.position.borrows, asset) == -1
  {
    ApplyRepayClears(d, PlanRepay(d.borrows, asset, amount).value, now);
  }

  // ---------------------------------------------------------------- withdraw

  /** The LTV check of `withdraw_sol` on the value of the SOL that would be left: skipped without
      borrow entries, else the debt (`checked_add`) against 75 % of that value (`checked_mul`). */
  function WithdrawLimit(bs: seq<BorrowedAmount>, remainingValue: U64): (r: Outcome)
    ensures bs == [] ==> r == Success
    ensures bs != [] && DebtValue(bs, AllAssets) * BPS_DENOMINATOR <= U64_MAX && remainingValue * DEFAULT_SOL_MAX_LTV_BPS <= U64_MAX
            ==> (r.Success? <==> DebtValue(bs, AllAssets) * BPS_DENOMINATOR <= remainingValue * DEFAULT_SOL_MAX_LTV_BPS)
    ensures r.Success? && bs != [] ==> DebtValue(bs, AllAssets) * BPS_DENOMINATOR <= remainingValue * DEFAULT_SOL_MAX_LTV_BPS
    ensures r.Failure? ==> r.error == MathOverflow || r.error == ExceedsLTV
  {
    if bs == [] then Success
    else
      var debt := DebtValue(bs, AllAssets);
      if debt > U64_MAX then Failure(MathOverflow)
      else
        match MaxBorrow(remainingValue, DEFAULT_SOL_MAX_LTV_BPS)
        case Err(e) => Failure(e)
        case Ok(maxBorrow) =>
          WithinMaxBorrow(debt, remainingValue, DEFAULT_SOL_MAX_LTV_BPS);
          if debt > maxBorrow then Failure(ExceedsLTV) else Success
  }

  /** `withdraw_sol`: a positive amount no larger than the first SOL entry; with any borrow entry,
      the whole debt (`checked_add`) must stay within 75 % of the value of the SOL left (the
      reputation bonus does not apply here, and cbBTC does not count); then the lamport
      transfer, the SOL entry lowered (`saturating_sub`) and empty entries dropped. */
  function WithdrawSol(d: PositionData, amount: U64, solPrice: U64, now: I64, transferOk: bool): (r: Result<PositionData>)
    ensures amount == 0 ==> r == Err(InvalidAmount)
    ensures amount > 0 && Held(d.collaterals, SOL) < amount ==> r == Err(InsufficientCollateral)
    ensures r.Ok? ==> 0 < amount <= Held(d.collaterals, SOL) && CollateralIndex(d.collaterals, SOL) >= 0
                      && r.value == TakeSol(d, amount, now)
    ensures r.Ok? && d.borrows != [] ==>
              DebtValue(d.borrows, AllAssets) * BPS_DENOMINATOR
              <= EntryValue(CollateralDeposit(SOL, Held(d.collaterals, SOL) - amount), solPrice) * DEFAULT_SOL_MAX_LTV_BPS
  {
    if amount == 0 then Err(InvalidAmount)
    else
      var sol := Held(d.collaterals, SOL);
      if sol < amount then Err(InsufficientCollateral)
      else
        var check := WithdrawLimit(d.borrows, EntryValue(CollateralDeposit(SOL, sol - amount), solPrice));
        if check.Failure? then Err(check.error)
        else if !transferOk then Err(TransferFailed)
        else Ok(TakeSol(d, amount, now))
  }

  /** The writes of `withdraw_sol`: the first SOL entry lowered (`saturating_sub`), empty entries
      dropped, the position stamped. */
  function TakeSol(d: PositionData, amount: U64, now: I64): (r: PositionData)
    requires CollateralIndex(d.collaterals, SOL) >= 0
    ensures r == d.(collaterals := r.collaterals, lastUpdate := now)
  {
    var i := CollateralIndex(d.collaterals, SOL);
    var cs := d.collaterals[i := CollateralDeposit(SOL, SatSub(d.collaterals[i].amount, amount))];
    d.(collaterals := Retain(cs, NonEmptyCollateral), lastUpdate := now)
  }

  /** The writes take exactly the amount from the SOL held and leave every other asset as it was,
      within the position's bounds. */
  lemma TakeSolHeld(d: PositionData, amount: U64, now: I64, a: AssetType)
    requires d.Valid() && CollateralIndex(d.collaterals, SOL) >= 0 && amount <= Held(d.collaterals, SOL)
    ensures Held(TakeSol(d, amount, now).collaterals, SOL) == Held(d.collaterals, SOL) - amount
    ensures a != SOL ==> Held(TakeSol(d, amount, now).collaterals, a) == Held(d.collaterals, a)
    ensures TakeSol(d, amount, now).Valid()
  {
    var i := CollateralIndex(d.collaterals, SOL);
    var left := d.collaterals[i].amount - amount;
    var cs := d.collaterals[i := CollateralDeposit(SOL, left)];
    assert TakeSol(d, amount, now).collaterals == Retain(cs, NonEmptyCollateral);
    SetSolHeld(d.collaterals, i, left, a);
    UpdateKeepsDistinct(d.collaterals, i, cs[i]);
    RetainKeepsDistinctCollaterals(cs, NonEmptyCollateral);
  }

  /** Without debt, any amount up to the SOL held can be withdrawn. */
  lemma WithdrawWithoutDebt(d: PositionData, amount: U64, solPrice: U64, now: I64)
    requires d.borrows == [] && 0 < amount <= Held(d.collaterals, SOL)
    ensures WithdrawSol(d, amount, solPrice, now, true).Ok?
  {
  }

  /** Whether a withdrawal goes through does not depend on the reputation: the limit is the plain
      75 % even for a position whose bonus let it borrow more. */
  lemma WithdrawIgnoresReputation(d: PositionData, rep: Reputation, amount: U64, solPrice: U64, now: I64, transferOk: bool)
    ensures OutcomeOf(WithdrawSol(d.(reputation := rep), amount, solPrice, now, transferOk))
            == OutcomeOf(WithdrawSol(d, amount, solPrice, now, transferOk))
  {
  }

  /** A withdrawal takes exactly the amount from the SOL held and leaves every other asset as it
      was, within the position's bounds. */
  lemma WithdrawTakesSol(d: PositionData, amount: U64, solPrice: U64, now: I64, transferOk: bool, a: AssetType)
    requires d.Valid() && WithdrawSol(d, amount, solPrice, now, transferOk).Ok?
    ensures Held(WithdrawSol(d, amount, solPrice, now, transferOk).value.collaterals, SOL) == Held(d.collaterals, SOL) - amount
    ensures a != SOL ==> Held(WithdrawSol(d, amount, solPrice, now, transferOk).value.collaterals, a) == Held(d.collaterals, a)
    ensures WithdrawSol(d, amount, solPrice, now, transferOk).value.Valid()
  {
    TakeSolHeld(d, amount, now, a);
  }

  // ---------------------------------------------------------------- interest accrual

  /** Accrual is skipped until an hour has passed since the position last changed. */
  const ACCRUAL_INTERVAL: int := 3600

  /** 365.25 days. */
  const SECONDS_PER_YEAR: int := 31_557_600

  /** The fixed yearly rates of `accrue_position_interest`: 8 % on USDC, 7 % on EURC, none on
      anything else. */
  function AnnualRateBps(a: AssetType): (rate: nat)
    ensures rate <= 800
    ensures rate > 0 <==> a == USDC || a == EURC
  {
    match a
    case USDC => 800
    case EURC => 700
    case _ => 0
  }

  /** `amount * rate * elapsed / 31_557_600 / 10000` in `u128`: a product that overflows counts as
      0 (`checked_mul(..).unwrap_or(0)`), and the quotient is cast `as u64`. */
  function AccruedInterest(amount: U64, rateBps: nat, elapsed: nat): (interest: U64)
    ensures amount * rateBps * elapsed > U128_MAX ==> interest == 0
    ensures amount * rateBps * elapsed <= U128_MAX
            && amount * rateBps * elapsed / (SECONDS_PER_YEAR * BPS_DENOMINATOR) <= U64_MAX
            ==> interest == amount * rateBps * elapsed / (SECONDS_PER_YEAR * BPS_DENOMINATOR)
  {
    var product := amount * rateBps * elapsed;
    if product > U128_MAX then 0
    else WrapU64(product / SECONDS_PER_YEAR / BPS_DENOMINATOR)
  }

  /** One entry after accrual: a stablecoin entry with principal gains the interest on its
      principal (`saturating_add`); principal and asset never change. */
  function AccrueEntry(b: BorrowedAmount, elapsed: nat): (nb: BorrowedAmount)
    ensures nb.assetType == b.assetType && nb.amount == b.amount
    ensures nb.accruedInterest >= b.accruedInterest
    ensures AnnualRateBps(b.assetType) == 0 || b.amount == 0 ==> nb == b
    ensures AnnualRateBps(b.assetType) > 0 && b.amount > 0 ==>
              nb.accruedInterest == Min(b.accruedInterest + AccruedInterest(b.amount, AnnualRateBps(b.assetType), elapsed), U64_MAX)
  {
    var rate := AnnualRateBps(b.assetType);
    if rate == 0 || b.amount == 0 then b
    else b.(accruedInterest := SatAddU64(b.accruedInterest, AccruedInterest(b.amount, rate, elapsed)))
  }

  /** Every entry after accrual. */
  function AccrueAll(bs: seq<BorrowedAmount>, elapsed: nat): (r: seq<BorrowedAmount>)
    ensures |r| == |bs|
  {
    seq(|bs|, i requires 0 <= i < |bs| => AccrueEntry(bs[i], elapsed))
  }

  /** `accrue_position_interest`: nothing happens (not even the time stamp) until an hour has
      passed since `last_update` (`saturating_sub`); then every entry accrues for the whole elapsed
      time and the position is stamped `now`. */
  function Accrue(d: PositionData, now: I64): (r: PositionData)
    ensures SatSubI64(now, d.lastUpdate) < ACCRUAL_INTERVAL ==> r == d
    ensures SatSubI64(now, d.lastUpdate) >= ACCRUAL_INTERVAL ==> r.lastUpdate == now
    ensures r == d.(borrows := r.borrows, lastUpdate := r.lastUpdate)
    ensures |r.borrows| == |d.borrows|
    ensures SatSubI64(now, d.lastUpdate) >= ACCRUAL_INTERVAL ==>
              forall i :: 0 <= i < |d.borrows| ==> r.borrows[i] == AccrueEntry(d.borrows[i], SatSubI64(now, d.lastUpdate))
    ensures forall i :: 0 <= i < |d.borrows| ==>
              r.borrows[i].assetType == d.borrows[i].assetType && r.borrows[i].amount == d.borrows[i].amount
              && r.borrows[i].accruedInterest >= d.borrows[i].accruedInterest
  {
    var elapsed := SatSubI64(now, d.lastUpdate);
    if elapsed < ACCRUAL_INTERVAL then d
    else d.(borrows := AccrueAll(d.borrows, elapsed), lastUpdate := now)
  }

  /** Accrual never lowers the debt. */
  lemma {:induction false} AccrueAllRaisesDebt(bs: seq<BorrowedAmount>, elapsed: nat, counted: set<AssetType>)
    ensures DebtValue(AccrueAll(bs, elapsed), counted) >= DebtValue(bs, counted)
    decreases |bs|
  {
    if bs != [] {
      var n := |bs| - 1;
      AccrueAllRaisesDebt(bs[..n], elapsed, counted);
      assert AccrueAll(bs, elapsed)[..n] == AccrueAll(bs[..n], elapsed);
    }
  }

  /** Accrual never lowers the debt, and keeps the position valid. */
  lemma AccrueRaisesDebt(d: PositionData, now: I64)
    ensures DebtValue(Accrue(d, now).borrows, AllAssets) >= DebtValue(d.borrows, AllAssets)
    ensures d.Valid() ==> Accrue(d, now).Valid()
  {
    var elapsed := SatSubI64(now, d.lastUpdate);
    if elapsed >= ACCRUAL_INTERVAL {
      AccrueAllRaisesDebt(d.borrows, elapsed, AllAssets);
    }
  }

  /** Within the hour after an accrual, a second one changes nothing. */
  lemma AccrueThrottled(d: PositionData, now: I64, later: I64)
    requires SatSubI64(now, d.lastUpdate) >= ACCRUAL_INTERVAL && now <= later < now + ACCRUAL_INTERVAL
    ensures Accrue(Accrue(d, now), later) == Accrue(d, now)
  {
  }

  // ---------------------------------------------------------------- the agent

  /** A successful agent borrow: the new position, the agent's new window and the pool's new
      borrowed total. */
  datatype AgentLoan = AgentLoan(position: PositionData, window: BorrowWindow, poolBorrowed: U64)

  /** `agent_borrow` of USDC: a positive amount within the agent's daily window (else
      `ExceedsLTV`), the same limit as `borrow` (the limit computed before the new debt), the
      token transfer, the find-or-push into the USDC entry, the window recorded, and the pool's
      borrowed total (`checked_add`). */
  function AgentBorrow(d: PositionData, w: BorrowWindow, poolBorrowed: U64, amount: U64, solPrice: U64,
                       now: I64, transferOk: bool): (r: Result<AgentLoan>)
    ensures amount == 0 ==> r == Err(InvalidAmount)
    ensures amount > 0 && w.CanBorrow(amount, now) == Ok(false) ==> r == Err(ExceedsLTV)
    ensures r.Ok? ==> w.Recorded(amount, now).Ok? && r.value.window == w.Recorded(amount, now).value
                      && r.value.window.dailyBorrowed <= w.dailyBorrowLimit
    ensures r.Ok? ==> r.value.poolBorrowed == poolBorrowed + amount
    ensures r.Ok? ==> r.value.position == d.(borrows := r.value.position.borrows, lastUpdate := now)
    ensures r.Ok? ==> AddBorrow(d.borrows, USDC, amount).Ok?
                      && r.value.position.borrows == AddBorrow(d.borrows, USDC, amount).value
    ensures r.Ok? ==> DebtValue(r.value.position.borrows, AllAssets) == DebtValue(d.borrows, AllAssets) + amount
    ensures r.Ok? ==> LtvBonus(d.reputation).Some?
                      && DebtValue(r.value.position.borrows, AllAssets) * BPS_DENOMINATOR
                         <= CollateralValue(d.collaterals, solPrice, LENDING_VALUED)
                            * (DEFAULT_SOL_MAX_LTV_BPS + LtvBonus(d.reputation).value)
  {
    if amount == 0 then Err(InvalidAmount)
    else
      var allowed :- w.CanBorrow(amount, now);
      if !allowed then Err(ExceedsLTV)
      else
        var v :- Value(d, solPrice);
        var ltv :- EffectiveLtv(d.reputation);
        var maxBorrow :- MaxBorrow(v.collateralUsd, ltv);
        if v.debtUsd + amount > U64_MAX then Err(MathOverflow)
        else if v.debtUsd + amount > maxBorrow then Err(ExceedsLTV)
        else if !transferOk then Err(TransferFailed)
        else
          WithinMaxBorrow(v.debtUsd + amount, v.collateralUsd, ltv);
          RecordWithinLimit(w, amount, now);
          var bs :- AddBorrow(d.borrows, USDC, amount);
          var window := w.Recorded(amount, now).value;
          if poolBorrowed + amount > U64_MAX then Err(MathOverflow)
          else Ok(AgentLoan(d.(borrows := bs, lastUpdate := now), window, poolBorrowed + amount))
  }

  /** A successful automatic repayment: the new position, the pool's borrowed total and what the
      waterfall placed. */
  datatype AutoRepayment = AutoRepayment(position: PositionData, poolBorrowed: U64, repaid: U64)

  /** `agent_auto_repay`: a positive amount, repayment switched on (else `Unauthorized`), the token
      transfer, the waterfall over the borrow entries in order (interest first), the removal of
      settled entries, and the counters: the reputation is credited with the whole amount, the
      pool's borrowed total falls by the part placed (`saturating_sub`). */
  function AgentAutoRepay(d: PositionData, autoRepayEnabled: bool, poolBorrowed: U64, amount: U64,
                          now: I64, transferOk: bool): (r: Result<AutoRepayment>)
    ensures amount == 0 ==> r == Err(InvalidAmount)
    ensures amount > 0 && !autoRepayEnabled ==> r == Err(Unauthorized)
    ensures amount > 0 && autoRepayEnabled && !transferOk ==> r == Err(TransferFailed)
    ensures r.Ok? ==> r.value.repaid <= amount && r.value.poolBorrowed == SatSub(poolBorrowed, r.value.repaid)
    ensures r.Ok? ==> r.value.position.collaterals == d.collaterals && r.value.position.lastUpdate == now
    ensures r.Ok? ==> r.value.position.reputation
                      == d.reputation.(successfulRepayments := SatAddU32(d.reputation.successfulRepayments, 1),
                                       totalRepaidUsd := SatAddU64(d.reputation.totalRepaidUsd, amount))
  {
    if amount == 0 then Err(InvalidAmount)
    else if !autoRepayEnabled then Err(Unauthorized)
    else if !transferOk then Err(TransferFailed)
    else
      var w := Waterfall(d.borrows, amount, false);
      var repaid := amount - w.left;
      var rep := d.reputation.(successfulRepayments := SatAddU32(d.reputation.successfulRepayments, 1),
                               totalRepaidUsd := SatAddU64(d.reputation.totalRepaidUsd, amount));
      Ok(AutoRepayment(d.(borrows := Retain(w.entries, OutstandingBorrow), reputation := rep, lastUpdate := now),
                       SatSub(poolBorrowed, repaid), repaid))
  }

  /** The automatic repayment places `min(amount, debt)` and lowers the debt by exactly that. */
  lemma AutoRepayPaysDebt(d: PositionData, autoRepayEnabled: bool, poolBorrowed: U64, amount: U64, now: I64, transferOk: bool)
    requires AgentAutoRepay(d, autoRepayEnabled, poolBorrowed, amount, now, transferOk).Ok?
    ensures var a := AgentAutoRepay(d, autoRepayEnabled, poolBorrowed, amount, now, transferOk).value;
            a.repaid == Min(amount, DebtValue(d.borrows, AllAssets))
            && DebtValue(a.position.borrows, AllAssets) + a.repaid == DebtValue(d.borrows, AllAssets)
  {
    var w := Waterfall(d.borrows, amount, false);
    WaterfallConserves(d.borrows, amount, false);
    WaterfallLeftover(d.borrows, amount, false);
    PayableAll(d.borrows);
    TotalOwedIsDebt(d.borrows);
    TotalOwedIsDebt(w.entries);
    PruneKeepsDebt(w.entries, AllAssets);
  }

  /** Borrow entries that all owe something owe something together. */
  lemma OutstandingDebt(bs: seq<BorrowedAmount>)
    requires bs != [] && forall b :: b in bs ==> OutstandingBorrow(b)
    ensures DebtValue(bs, AllAssets) > 0
  {
    var last := bs[|bs| - 1];
    assert OutstandingBorrow(last);
    assert last.assetType in AllAssets by {
      var t := last.assetType;
      assert t == SOL || t == CbBTC || t == USDC || t == EURC;
    }
  }

  /** An automatic repayment of at least the whole debt leaves no borrow entry. */
  lemma AutoRepayClears(d: PositionData, autoRepayEnabled: bool, poolBorrowed: U64, amount: U64, now: I64, transferOk: bool)
    requires AgentAutoRepay(d, autoRepayEnabled, poolBorrowed, amount, now, transferOk).Ok?
    requires amount >= DebtValue(d.borrows, AllAssets)
    ensures AgentAutoRepay(d, autoRepayEnabled, poolBorrowed, amount, now, transferOk).value.position.borrows == []
  {
    var bs := AgentAutoRepay(d, autoRepayEnabled, poolBorrowed, amount, now, transferOk).value.position.borrows;
    AutoRepayPaysDebt(d, autoRepayEnabled, poolBorrowed, amount, now, transferOk);
    if bs != [] {
      OutstandingDebt(bs);
    }
  }

  /** An automatic repayment keeps the position within its bounds, with one entry per asset. */
  lemma AutoRepayKeepsValid(d: PositionData, autoRepayEnabled: bool, poolBorrowed: U64, amount: U64, now: I64, transferOk: bool)
    requires d.Valid() && AgentAutoRepay(d, autoRepayEnabled, poolBorrowed, amount, now, transferOk).Ok?
    ensures AgentAutoRepay(d, autoRepayEnabled, poolBorrowed, amount, now, transferOk).value.position.Valid()
  {
    var w := Waterfall(d.borrows, amount, false).entries;
    forall j, k | 0 <= j < k < |w| ensures w[j].assetType != w[k].assetType {
      WaterfallReduces(d.borrows, amount, false, j);
      WaterfallReduces(d.borrows, amount, false, k);
    }
    RetainKeepsDistinctBorrows(w, OutstandingBorrow);
  }

  // ---------------------------------------------------------------- the handlers

  /** `deposit_sol` on a position account. */
  method DepositSolOn(position: Position, amount: U64, now: I64, transferOk: bool) returns (o: Outcome)
    modifies position
    ensures o == OutcomeOf(DepositSol(old(position.Data()), amount, now, transferOk))
    ensures o.Success? ==> position.Data() == DepositSol(old(position.Data()), amount, now, transferOk).value
    ensures o.Failure? ==> position.Data() == old(position.Data())
  {
    if amount == 0 {
      return Failure(InvalidAmount);
    }
    if !transferOk {
      return Failure(TransferFailed);
    }
    var d := position.Data();
    var cs := DepositInto(d.collaterals, SOL, amount);
    if cs.Err? {
      return Failure(cs.error);
    }
    position.Store(d.(collaterals := cs.value, lastUpdate := now));
    o := Success;
  }

  /** `deposit_token` on a position account and the asset's collateral configuration. */
  method DepositTokenOn(position: Position, config: CollateralConfig, amount: U64, now: I64, transferOk: bool)
    returns (o: Outcome)
    modifies position, config
    ensures var r := DepositToken(old(position.Data()), old(config.assetType), old(config.isActive),
                                  old(config.totalDeposited), amount, now, transferOk);
            && o == OutcomeOf(r)
            && (o.Success? ==> position.Data() == r.value.position && config.totalDeposited == r.value.totalDeposited)
    ensures o.Failure? ==> position.Data() == old(position.Data()) && config.totalDeposited == old(config.totalDeposited)
    ensures config.assetType == old(config.assetType) && config.isActive == old(config.isActive)
    ensures config.mint == old(config.mint) && config.oracle == old(config.oracle)
    ensures config.maxLtvBps == old(config.maxLtvBps) && config.decimals == old(config.decimals)
    ensures config.liquidationThresholdBps == old(config.liquidationThresholdBps)
    ensures config.liquidationBonusBps == old(config.liquidationBonusBps)
  {
    if amount == 0 {
      return Failure(InvalidAmount);
    }
    if !config.isActive {
      return Failure(AssetNotActive);
    }
    if !transferOk {
      return Failure(TransferFailed);
    }
    var d := position.Data();
    var cs := DepositInto(d.collaterals, config.assetType, amount);
    if cs.Err? {
      return Failure(cs.error);
    }
    if config.totalDeposited + amount > U64_MAX {
      return Failure(MathOverflow);
    }
    position.Store(d.(collaterals := cs.value, lastUpdate := now));
    config.totalDeposited := config.totalDeposited + amount;
    o := Success;
  }

  /** The summing loops of the borrow handlers. */
  method ValueSteps(d: PositionData, solPrice: U64) returns (r: Result<Valuation>)
    ensures r == Value(d, solPrice)
  {
    var collateralUsd := SumCollateralValue(d.collaterals, solPrice, LENDING_VALUED);
    if collateralUsd.Err? {
      return Err(collateralUsd.error);
    }
    var debtUsd := SumDebtValue(d.borrows, AllAssets);
    if debtUsd.Err? {
      return Err(debtUsd.error);
    }
    r := Ok(Valuation(collateralUsd.value, debtUsd.value));
  }

  /** `borrow` on a position account; the borrowable configuration is only read. */
  method BorrowOn(position: Position, config: BorrowableConfig, vaultBalance: U64, amount: U64, solPrice: U64,
                  now: I64, transferOk: bool) returns (o: Outcome)
    modifies position
    ensures var r := Borrow(old(position.Data()), config.assetType, config.isActive, vaultBalance, amount,
                            solPrice, now, transferOk);
            && o == OutcomeOf(r)
            && (o.Success? ==> position.Data() == r.value)
    ensures o.Failure? ==> position.Data() == old(position.Data())
  {
    if amount == 0 {
      return Failure(InvalidAmount);
    }
    if !config.isActive {
      return Failure(AssetNotActive);
    }
    if vaultBalance < amount {
      return Failure(InsufficientLiquidity);
    }
    var d := position.Data();
    var v := ValueSteps(d, solPrice);
    if v.Err? {
      return Failure(v.error);
    }
    if v.value.debtUsd + amount > U64_MAX {
      return Failure(MathOverflow);
    }
    var ltv := EffectiveLtv(d.reputation);
    if ltv.Err? {
      return Failure(ltv.error);
    }
    var maxBorrow := MaxBorrow(v.value.collateralUsd, ltv.value);
    if maxBorrow.Err? {
      return Failure(maxBorrow.error);
    }
    if v.value.debtUsd + amount > maxBorrow.value {
      return Failure(ExceedsLTV);
    }
    if !transferOk {
      return Failure(TransferFailed);
    }
    var bs := BorrowInto(d.borrows, config.assetType, amount);
    if bs.Err? {
      return Failure(bs.error);
    }
    position.Store(d.(borrows := bs.value, lastUpdate := now));
    o := Success;
  }

  /** The checks of `repay` with the loop that finds the entry. */
  method PlanRepaySteps(bs: seq<BorrowedAmount>, asset: AssetType, amount: U64) returns (r: Result<RepayPlan>)
    ensures r == PlanRepay(bs, asset, amount)
  {
    if amount == 0 {
      return Err(InvalidAmount);
    }
    var i := FindBorrow(bs, asset);
    var owed := 0;
    if i >= 0 {
      if bs[i].amount + bs[i].accruedInterest > U64_MAX {
        return Err(MathOverflow);
      }
      owed := bs[i].amount + bs[i].accruedInterest;
    }
    if owed == 0 {
      return Err(PositionNotFound);
    }
    r := Ok(RepayPlan(i, Min(amount, owed)));
  }

  /** `repay` on a position account: the checks, the payment, and the `retain` loop. */
  method RepayOn(position: Position, asset: AssetType, amount: U64, now: I64, transferOk: bool)
    returns (o: Outcome, paid: U64)
    modifies position
    ensures o == OutcomeOf(Repay(old(position.Data()), asset, amount, now, transferOk))
    ensures o.Success? ==> position.Data() == Repay(old(position.Data()), asset, amount, now, transferOk).value.position
                           && paid == Repay(old(position.Data()), asset, amount, now, transferOk).value.paid
    ensures o.Failure? ==> position.Data() == old(position.Data())
  {
    var d := position.Data();
    var plan := PlanRepaySteps(d.borrows, asset, amount);
    if plan.Err? {
      return Failure(plan.error), 0;
    }
    if !transferOk {
      return Failure(TransferFailed), 0;
    }
    var i := plan.value.index;
    paid := plan.value.paid;
    var nb := RepayEntry(d.borrows[i], paid);
    var bs := RetainLoop(d.borrows[i := nb], OutstandingBorrow);
    var rep := d.reputation.(successfulRepayments := SatAddU32(d.reputation.successfulRepayments, 1),
                             totalRepaidUsd := SatAddU64(d.reputation.totalRepaidUsd, paid));
    position.Store(d.(borrows := bs, reputation := rep, lastUpdate := now));
    o := Success;
  }

  /** The summing loop of `withdraw_sol`: principal and interest are added to the running total one
      after the other, each with `checked_add`; it fails exactly when the whole debt does not fit. */
  method SumOwed(bs: seq<BorrowedAmount>) returns (r: Result<U64>)
    ensures r.Ok? <==> DebtValue(bs, AllAssets) <= U64_MAX
    ensures r.Ok? ==> r.value == DebtValue(bs, AllAssets)
    ensures r.Err? ==> r.error == MathOverflow
  {
    var total: U64 := 0;
    var i := 0;
    while i < |bs|
      invariant 0 <= i <= |bs|
      invariant total == DebtValue(bs[..i], AllAssets)
    {
      assert bs[..i + 1][..i] == bs[..i];
      var t := bs[i].assetType;
      assert t == SOL || t == CbBTC || t == USDC || t == EURC;
      if total + bs[i].amount > U64_MAX || total + bs[i].amount + bs[i].accruedInterest > U64_MAX {
        DebtValuePrefix(bs, i + 1, AllAssets);
        return Err(MathOverflow);
      }
      total := total + bs[i].amount;
      total := total + bs[i].accruedInterest;
      i := i + 1;
    }
    assert bs[..i] == bs;
    r := Ok(total);
  }

  /** `withdraw_sol` on a position account: the loop that finds the SOL entry, the debt loop, and
      the `retain` loop. */
  method WithdrawSolOn(position: Position, amount: U64, solPrice: U64, now: I64, transferOk: bool) returns (o: Outcome)
    modifies position
    ensures o == OutcomeOf(WithdrawSol(old(position.Data()), amount, solPrice, now, transferOk))
    ensures o.Success? ==> position.Data() == WithdrawSol(old(position.Data()), amount, solPrice, now, transferOk).value
    ensures o.Failure? ==> position.Data() == old(position.Data())
  {
    if amount == 0 {
      return Failure(InvalidAmount);
    }
    var d := position.Data();
    var i := FindCollateral(d.collaterals, SOL);
    var sol := 0;
    if i >= 0 {
      CollateralIndexIs(d.collaterals, SOL, i);
      sol := d.collaterals[i].amount;
    }
    assert sol == Held(d.collaterals, SOL);
    if sol < amount {
      return Failure(InsufficientCollateral);
    }
    var check := WithdrawLimitSteps(d.borrows, EntryValue(CollateralDeposit(SOL, sol - amount), solPrice));
    if check.Failure? {
      return check;
    }
    if !transferOk {
      return Failure(TransferFailed);
    }
    var taken := TakeSolSteps(d, amount, now, i);
    position.Store(taken);
    o := Success;
  }

  /** The writes of `withdraw_sol` at the index of the first SOL entry, with `retain` as a loop. */
  method TakeSolSteps(d: PositionData, amount: U64, now: I64, i: int) returns (r: PositionData)
    requires 0 <= i == CollateralIndex(d.collaterals, SOL)
    ensures r == TakeSol(d, amount, now)
  {
    var cs := d.collaterals[i := CollateralDeposit(SOL, SatSub(d.collaterals[i].amount, amount))];
    cs := RetainLoop(cs, NonEmptyCollateral);
    r := d.(collaterals := cs, lastUpdate := now);
  }

  /** The LTV check of `withdraw_sol`, summing the debt with the loop. */
  method WithdrawLimitSteps(bs: seq<BorrowedAmount>, remainingValue: U64) returns (check: Outcome)
    ensures check == WithdrawLimit(bs, remainingValue)
  {
    if |bs| == 0 {
      return Success;
    }
    var debt := SumOwed(bs);
    if debt.Err? {
      return Failure(debt.error);
    }
    var maxBorrow := MaxBorrow(remainingValue, DEFAULT_SOL_MAX_LTV_BPS);
    if maxBorrow.Err? {
      return Failure(maxBorrow.error);
    }
    if debt.value > maxBorrow.value {
      return Failure(ExceedsLTV);
    }
    return Success;
  }

  /** `accrue_position_interest` on a position account: the loop over the borrow entries. */
  method AccrueOn(position: Position, now: I64)
    modifies position
    ensures position.Data() == Accrue(old(position.Data()), now)
  {
    var d := position.Data();
    var elapsed := SatSubI64(now, d.lastUpdate);
    if elapsed < ACCRUAL_INTERVAL {
      return;
    }
    var bs := d.borrows;
    var i := 0;
    while i < |bs|
      invariant 0 <= i <= |bs| == |d.borrows|
      invariant forall j :: 0 <= j < i ==> bs[j] == AccrueEntry(d.borrows[j], elapsed)
      invariant forall j :: i <= j < |bs| ==> bs[j] == d.borrows[j]
    {
      var b := bs[i];
      var rate := AnnualRateBps(b.assetType);
      if rate != 0 && b.amount != 0 {
        var interest := AccruedInterest(b.amount, rate, elapsed);
        bs := bs[i := b.(accruedInterest := SatAddU64(b.accruedInterest, interest))];
      }
      i := i + 1;
    }
    assert bs == AccrueAll(d.borrows, elapsed);
    position.Store(d.(borrows := bs, lastUpdate := now));
  }

  /** `agent_borrow` on the position, the agent's configuration and the pool. */
  method AgentBorrowOn(position: Position, agent: AgentConfig, pool: LpPool, amount: U64, solPrice: U64,
                       now: I64, transferOk: bool) returns (o: Outcome)
    modifies position, agent, pool
    ensures var r := AgentBorrow(old(position.Data()), old(agent.Window()), old(pool.totalBorrowed), amount,
                                 solPrice, now, transferOk);
            && o == OutcomeOf(r)
            && (o.Success? ==> position.Data() == r.value.position && agent.Window() == r.value.window
                               && pool.totalBorrowed == r.value.poolBorrowed)
    ensures o.Failure? ==> position.Data() == old(position.Data()) && agent.Window() == old(agent.Window())
                           && pool.totalBorrowed == old(pool.totalBorrowed)
    ensures agent.position == old(agent.position) && agent.operator == old(agent.operator)
    ensures agent.autoRepayEnabled == old(agent.autoRepayEnabled) && agent.x402Enabled == old(agent.x402Enabled)
    ensures agent.alertsEnabled == old(agent.alertsEnabled) && agent.alertThresholdBps == old(agent.alertThresholdBps)
    ensures pool.totalDeposits == old(pool.totalDeposits) && pool.totalShares == old(pool.totalShares)
    ensures pool.interestEarned == old(pool.interestEarned)
    ensures pool.borrowableMint == old(pool.borrowableMint) && pool.lpTokenMint == old(pool.lpTokenMint)
  {
    if amount == 0 {
      return Failure(InvalidAmount);
    }
    var allowed := agent.Window().CanBorrow(amount, now);
    if allowed.Err? {
      return Failure(allowed.error);
    }
    if !allowed.value {
      return Failure(ExceedsLTV);
    }
    var d := position.Data();
    var v := ValueSteps(d, solPrice);
    if v.Err? {
      return Failure(v.error);
    }
    var ltv := EffectiveLtv(d.reputation);
    if ltv.Err? {
      return Failure(ltv.error);
    }
    var maxBorrow := MaxBorrow(v.value.collateralUsd, ltv.value);
    if maxBorrow.Err? {
      return Failure(maxBorrow.error);
    }
    if v.value.debtUsd + amount > U64_MAX {
      return Failure(MathOverflow);
    }
    if v.value.debtUsd + amount > maxBorrow.value {
      return Failure(ExceedsLTV);
    }
    if !transferOk {
      return Failure(TransferFailed);
    }
    var bs := BorrowInto(d.borrows, USDC, amount);
    if bs.Err? {
      return Failure(bs.error);
    }
    if pool.totalBorrowed + amount > U64_MAX {
      return Failure(MathOverflow);
    }
    position.Store(d.(borrows := bs.value, lastUpdate := now));
    var recorded := agent.RecordBorrow(amount, now);
    pool.totalBorrowed := pool.totalBorrowed + amount;
    o := Success;
  }

  /** `agent_auto_repay` on the position and the pool: the debt loop and the `retain` loop. */
  method AgentAutoRepayOn(position: Position, agent: AgentConfig, pool: LpPool, amount: U64, now: I64,
                          transferOk: bool) returns (o: Outcome)
    modifies position, pool
    ensures var r := AgentAutoRepay(old(position.Data()), agent.autoRepayEnabled, old(pool.totalBorrowed), amount,
                                    now, transferOk);
            && o == OutcomeOf(r)
            && (o.Success? ==> position.Data() == r.value.position && pool.totalBorrowed == r.value.poolBorrowed)
    ensures o.Failure? ==> position.Data() == old(position.Data()) && pool.totalBorrowed == old(pool.totalBorrowed)
    ensures pool.totalDeposits == old(pool.totalDeposits) && pool.totalShares == old(pool.totalShares)
    ensures pool.interestEarned == old(pool.interestEarned)
    ensures pool.borrowableMint == old(pool.borrowableMint) && pool.lpTokenMint == old(pool.lpTokenMint)
  {
    if amount == 0 {
      return Failure(InvalidAmount);
    }
    if !agent.autoRepayEnabled {
      return Failure(Unauthorized);
    }
    if !transferOk {
      return Failure(TransferFailed);
    }
    var d := position.Data();
    var bs, remaining := PayDown(d.borrows, amount, false);
    bs := RetainLoop(bs, OutstandingBorrow);
    var rep := d.reputation.(successfulRepayments := SatAddU32(d.reputation.successfulRepayments, 1),
                             totalRepaidUsd := SatAddU64(d.reputation.totalRepaidUsd, amount));
    position.Store(d.(borrows := bs, lastUpdate := now, reputation := rep));
    pool.totalBorrowed := SatSub(pool.totalBorrowed, SatSub(amount, remaining));
    o := Success;
  }
}
