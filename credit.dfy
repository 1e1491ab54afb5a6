/** The credit program (`legasi-credit/src/lib.rs`): a single-asset SOL-collateral credit line.

    A position holds lamports of SOL and a USDC debt (both `u64`, USDC with 6 decimals); the
    protocol account holds an admin-set SOL price (USD with 6 decimals) and two running totals.
    Borrowing is capped at 50 % loan-to-value. Above a position's start LTV (50 % unless the owner
    chose a value in [40 %, 70 %]) anyone may crank gradual auto-deleveraging: at most once an hour
    a slice of the collateral, growing with a tiered daily rate and with the time since the last
    crank and capped so that the owner's collateral floor stays, is sold to the treasury and its
    USD value paid off the debt; the cranker gets 0.5 % of the slice on top.

    Every product the program checks with `u128::checked_mul` of two `u64` values cannot overflow
    (lemma Num.ProductFits), so those `MathOverflow` paths are absent; the `as u64` casts of `u128`
    quotients keep the low 64 bits and are modelled with `WrapU64`. */
module Credit {
  import opened Num
  import opened Errors
  import opened Constants
  import State

  /** the borrow limit: 50 % loan-to-value */
  const MAX_LTV_BPS: int := 5000
  /** the default start of deleveraging, also where the tiered rate becomes positive */
  const GAD_START_LTV_BPS: int := 5000
  /** the range `configure_gad` accepts for a custom start LTV */
  const MIN_CUSTOM_START_LTV_BPS: int := 4000
  const MAX_CUSTOM_START_LTV_BPS: int := 7000
  /** the cranker's reward is the liquidated amount divided by this (0.5 %) */
  const CRANK_REWARD_DIVISOR: int := 200

  // ---------------------------------------------------------------- accounts

  datatype GadConfig = GadConfig(enabled: bool, customStartLtvBps: U64, minCollateralFloor: U64)
  {
    /** the start LTV lies in the range `configure_gad` accepts */
    predicate Valid() {
      MIN_CUSTOM_START_LTV_BPS <= customStartLtvBps <= MAX_CUSTOM_START_LTV_BPS
    }
  }

  /** `GadConfig::default()`: deleveraging on, starting at 50 %, no floor. */
  const DefaultGadConfig: GadConfig := GadConfig(true, GAD_START_LTV_BPS, 0)

  /** A snapshot of the credit program's `Position` account. */
  datatype PositionData = PositionData(
    owner: State.Pubkey,
    collateralAmount: U64,
    borrowedAmount: U64,
    lastUpdate: I64,
    lastGadCrank: I64,
    gadConfig: GadConfig,
    totalGadLiquidated: U64)

  /** A snapshot of the credit program's `Protocol` account. */
  datatype ProtocolData = ProtocolData(
    admin: State.Pubkey,
    solPriceUsd: U64,
    lastPriceUpdate: I64,
    totalCollateral: U64,
    totalBorrowed: U64,
    treasury: State.Pubkey)

  /** The two accounts an instruction writes. */
  datatype Books = Books(position: PositionData, protocol: ProtocolData)

  class Position {
    var owner: State.Pubkey
    var collateralAmount: U64
    var borrowedAmount: U64
    var lastUpdate: I64
    var lastGadCrank: I64
    var gadConfig: GadConfig
    var totalGadLiquidated: U64

    function Data(): PositionData
      reads this
    {
      PositionData(owner, collateralAmount, borrowedAmount, lastUpdate, lastGadCrank, gadConfig, totalGadLiquidated)
    }

    /** `initialize_position`: nothing deposited or owed, both clocks at `now`, the default
        deleveraging settings. */
    constructor (owner: State.Pubkey, now: I64)
      ensures Data() == PositionData(owner, 0, 0, now, now, DefaultGadConfig, 0)
      ensures Data().gadConfig.Valid()
    {
      this.owner := owner;
      collateralAmount := 0;
      borrowedAmount := 0;
      lastUpdate := now;
      lastGadCrank := now;
      gadConfig := DefaultGadConfig;
      totalGadLiquidated := 0;
    }
  }

  class Protocol {
    var admin: State.Pubkey
    var solPriceUsd: U64
    var lastPriceUpdate: I64
    var totalCollateral: U64
    var totalBorrowed: U64
    var treasury: State.Pubkey

    function Data(): ProtocolData
      reads this
    {
      ProtocolData(admin, solPriceUsd, lastPriceUpdate, totalCollateral, totalBorrowed, treasury)
    }

    /** `initialize_protocol`: the given price (not checked here, unlike `update_price`), empty
        totals. */
    constructor (admin: State.Pubkey, solPriceUsd: U64, treasury: State.Pubkey, now: I64)
      ensures Data() == ProtocolData(admin, solPriceUsd, now, 0, 0, treasury)
    {
      this.admin := admin;
      this.solPriceUsd := solPriceUsd;
      lastPriceUpdate := now;
      totalCollateral := 0;
      totalBorrowed := 0;
      this.treasury := treasury;
    }

    /** `update_price` */
    method UpdatePrice(newPriceUsd: U64, now: I64) returns (o: Outcome)
      modifies this
      ensures o == OutcomeOf(SetPrice(old(Data()), newPriceUsd, now))
      ensures o.Success? ==> Data() == SetPrice(old(Data()), newPriceUsd, now).value
      ensures o.Failure? ==> Data() == old(Data())
    {
      if newPriceUsd == 0 {
        return Failure(InvalidAmount);
      }
      solPriceUsd := newPriceUsd;
      lastPriceUpdate := now;
      o := Success;
    }
  }

  // ---------------------------------------------------------------- the tiered rate

  /** `get_gad_rate_bps`: the daily deleveraging rate for a loan-to-value, in basis points. */
  function TieredGadRate(ltvBps: U64): (rate: U64)
    ensures rate == 0 <==> ltvBps <= GAD_START_LTV_BPS
    ensures rate <= 1000
    ensures ltvBps > 7500 ==> rate == 1000
  {
    if ltvBps <= 5000 then 0
    else if ltvBps <= 5500 then 10
    else if ltvBps <= 6500 then 100
    else if ltvBps <= 7500 then 500
    else 1000
  }

  /** A higher loan-to-value never gets a lower rate. */
  lemma TieredGadRateMonotone(a: U64, b: U64)
    requires a <= b
    ensures TieredGadRate(a) <= TieredGadRate(b)
  {
  }

  // ---------------------------------------------------------------- valuation

  /** The USD value (6 decimals) of `lamports` at `priceUsd`, as the `u128` the program computes. */
  function SolValueUsd(lamports: U64, priceUsd: U64): (v: U128)
    ensures v * LAMPORTS_PER_SOL <= lamports * priceUsd < (v + 1) * LAMPORTS_PER_SOL
    ensures v * LAMPORTS_PER_SOL <= U128_MAX
  {
    ProductFits(lamports, priceUsd);
    lamports * priceUsd / LAMPORTS_PER_SOL
  }

  /** `value × 5000 / 10000` cast to `u64`: the 50 % borrow limit. */
  function MaxBorrow(value: U128): (m: U64)
    ensures m * 2 <= value
    ensures value / 2 <= U64_MAX ==> m == value / 2
  {
    WrapU64(value * MAX_LTV_BPS / BPS_DENOMINATOR)
  }

  /** The limit grows with the price as long as the cast does not wrap. */
  lemma MaxBorrowMonotoneInPrice(lamports: U64, p1: U64, p2: U64)
    requires p1 <= p2
    requires SolValueUsd(lamports, p2) / 2 <= U64_MAX
    ensures MaxBorrow(SolValueUsd(lamports, p1)) <= MaxBorrow(SolValueUsd(lamports, p2))
  {
    MulMonotone(p1, p2, lamports);
    DivMonotone(lamports * p1, lamports * p2, LAMPORTS_PER_SOL);
    DivMonotone(SolValueUsd(lamports, p1), SolValueUsd(lamports, p2), 2);
  }

  /** The cast keeps the low 64 bits: a position worth 2^65 micro-USD (2^63 lamports at $4000)
      gets a borrow limit of 0 instead of 2^64. */
  lemma MaxBorrowWraps()
    ensures SolValueUsd(0x8000_0000_0000_0000, 4_000_000_000) == 2 * U64_LIMIT
    ensures MaxBorrow(SolValueUsd(0x8000_0000_0000_0000, 4_000_000_000)) == 0
  {
  }

  // ---------------------------------------------------------------- admin and settings

  /** `update_price` on the protocol account. */
  function SetPrice(p: ProtocolData, newPriceUsd: U64, now: I64): (r: Result<ProtocolData>)
    ensures r.Ok? <==> newPriceUsd > 0
    ensures r.Err? ==> r.error == InvalidAmount
    ensures r.Ok? ==> r.value.solPriceUsd == newPriceUsd && r.value.lastPriceUpdate == now
    ensures r.Ok? ==> r.value.(solPriceUsd := p.solPriceUsd, lastPriceUpdate := p.lastPriceUpdate) == p
  {
    if newPriceUsd == 0 then Err(InvalidAmount)
    else Ok(p.(solPriceUsd := newPriceUsd, lastPriceUpdate := now))
  }

  /** `configure_gad`: the flag is always set; a custom start LTV outside [4000, 7000] rejects the
      whole instruction; the floor is stored as given. */
  function ConfigureGad(g: GadConfig, enabled: bool, startLtvBps: Option<U64>, floor: Option<U64>)
    : (r: Result<GadConfig>)
    ensures r.Err? <==> startLtvBps.Some? && !(MIN_CUSTOM_START_LTV_BPS <= startLtvBps.value <= MAX_CUSTOM_START_LTV_BPS)
    ensures r.Err? ==> r.error == InvalidGadConfig
    ensures r.Ok? ==> r.value.enabled == enabled
    ensures r.Ok? && startLtvBps.None? ==> r.value.customStartLtvBps == g.customStartLtvBps
    ensures r.Ok? && startLtvBps.Some? ==> r.value.customStartLtvBps == startLtvBps.value
    ensures r.Ok? && floor.None? ==> r.value.minCollateralFloor == g.minCollateralFloor
    ensures r.Ok? && floor.Some? ==> r.value.minCollateralFloor == floor.value
  {
    var g1 := g.(enabled := enabled);
    var g2 :- match startLtvBps
      case None => Ok(g1)
      case Some(s) =>
        if MIN_CUSTOM_START_LTV_BPS <= s <= MAX_CUSTOM_START_LTV_BPS then Ok(g1.(customStartLtvBps := s))
        else Err(InvalidGadConfig);
    match floor
    case None => Ok(g2)
    case Some(f) => Ok(g2.(minCollateralFloor := f))
  }

  /** The start LTV stays in its range: only values in range are ever stored. */
  lemma ConfigureGadKeepsValid(g: GadConfig, enabled: bool, startLtvBps: Option<U64>, floor: Option<U64>)
    requires g.Valid()
    ensures ConfigureGad(g, enabled, startLtvBps, floor).Ok? ==> ConfigureGad(g, enabled, startLtvBps, floor).value.Valid()
  {
  }

  // ---------------------------------------------------------------- deposit, borrow, repay, withdraw

  /** `deposit_collateral`. */
  function DepositCollateral(b: Books, amount: U64, now: I64, transferOk: bool): (r: Result<Books>)
    ensures r.Ok? <==> amount > 0 && transferOk && b.position.collateralAmount + amount <= U64_MAX
                       && b.protocol.totalCollateral + amount <= U64_MAX
    ensures amount == 0 ==> r == Err(InvalidAmount)
    ensures amount > 0 && !transferOk ==> r == Err(TransferFailed)
    ensures amount > 0 && transferOk && !r.Ok? ==> r == Err(MathOverflow)
    ensures r.Ok? ==> r.value.position == b.position.(collateralAmount := b.position.collateralAmount + amount, lastUpdate := now)
    ensures r.Ok? ==> r.value.protocol == b.protocol.(totalCollateral := b.protocol.totalCollateral + amount)
  {
    if amount == 0 then Err(InvalidAmount)
    else if !transferOk then Err(TransferFailed)
    else if b.position.collateralAmount + amount > U64_MAX then Err(MathOverflow)
    else if b.protocol.totalCollateral + amount > U64_MAX then Err(MathOverflow)
    else
      Ok(Books(b.position.(collateralAmount := b.position.collateralAmount + amount, lastUpdate := now),
               b.protocol.(totalCollateral := b.protocol.totalCollateral + amount)))
  }

  /** `borrow`: the new debt may not pass half the collateral's value. The log line after the
      writes computes `new_borrowed * 100` unchecked, which panics above `u64::MAX / 100`. */
  function Borrow(b: Books, amount: U64, now: I64): (r: Result<Books>)
    ensures amount == 0 ==> r == Err(InvalidAmount)
    ensures r.Ok? ==> r.value.position.borrowedAmount == b.position.borrowedAmount + amount
                      && r.value.position.collateralAmount == b.position.collateralAmount
                      && r.value.protocol.totalBorrowed == b.protocol.totalBorrowed + amount
    ensures r.Ok? ==> r.value.position.borrowedAmount * 2 * LAMPORTS_PER_SOL
                      <= b.position.collateralAmount * b.protocol.solPriceUsd
    ensures r.Ok? ==> r.value.position.borrowedAmount * 100 <= U64_MAX
    ensures r.Ok? ==> r.value.position == b.position.(borrowedAmount := b.position.borrowedAmount + amount, lastUpdate := now)
    ensures r.Ok? ==> r.value.protocol == b.protocol.(totalBorrowed := b.protocol.totalBorrowed + amount)
  {
    var maxBorrow := MaxBorrow(SolValueUsd(b.position.collateralAmount, b.protocol.solPriceUsd));
    var newBorrowed := b.position.borrowedAmount + amount;
    if amount == 0 then Err(InvalidAmount)
    else if newBorrowed > U64_MAX then Err(MathOverflow)
    else if newBorrowed > maxBorrow then Err(ExceedsLTV)
    else if b.protocol.totalBorrowed + amount > U64_MAX then Err(MathOverflow)
    else if newBorrowed * 100 > U64_MAX then Err(ArithmeticPanic)
    else
      Ok(Books(b.position.(borrowedAmount := newBorrowed, lastUpdate := now),
               b.protocol.(totalBorrowed := b.protocol.totalBorrowed + amount)))
  }

  /** Conversely, a borrow within half the collateral's value succeeds when the limit does not wrap
      and the totals and the logged percentage do not overflow. */
  lemma BorrowAdmits(b: Books, amount: U64, now: I64)
    requires amount > 0
    requires SolValueUsd(b.position.collateralAmount, b.protocol.solPriceUsd) / 2 <= U64_MAX
    requires b.position.borrowedAmount + amount <= SolValueUsd(b.position.collateralAmount, b.protocol.solPriceUsd) / 2
    requires b.protocol.totalBorrowed + amount <= U64_MAX
    requires (b.position.borrowedAmount + amount) * 100 <= U64_MAX
    ensures Borrow(b, amount, now).Ok?
  {
  }

  /** `repay`: the debt falls by `min(amount, borrowed)`; no transfer happens in this program. */
  function Repay(b: Books, amount: U64, now: I64): (r: Result<Books>)
    ensures r.Ok? <==> amount > 0
    ensures r.Err? ==> r.error == InvalidAmount
    ensures r.Ok? ==> r.value.position.borrowedAmount == b.position.borrowedAmount - Min(amount, b.position.borrowedAmount)
    ensures r.Ok? && amount >= b.position.borrowedAmount ==> r.value.position.borrowedAmount == 0
    ensures r.Ok? ==> r.value.position == b.position.(borrowedAmount := r.value.position.borrowedAmount, lastUpdate := now)
    ensures r.Ok? ==> r.value.protocol == b.protocol.(totalBorrowed := SatSub(b.protocol.totalBorrowed, Min(amount, b.position.borrowedAmount)))
  {
    if amount == 0 then Err(InvalidAmount)
    else
      var repaid := Min(amount, b.position.borrowedAmount);
      Ok(Books(b.position.(borrowedAmount := b.position.borrowedAmount - repaid, lastUpdate := now),
               b.protocol.(totalBorrowed := SatSub(b.protocol.totalBorrowed, repaid))))
  }

  /** Repaying what was just borrowed restores the debt and the protocol total. */
  lemma RepayUndoesBorrow(b: Books, amount: U64, now: I64, later: I64)
    requires Borrow(b, amount, now).Ok?
    ensures Repay(Borrow(b, amount, now).value, amount, later).Ok?
    ensures Repay(Borrow(b, amount, now).value, amount, later).value.position.borrowedAmount == b.position.borrowedAmount
    ensures Repay(Borrow(b, amount, now).value, amount, later).value.protocol == b.protocol
  {
  }

  /** `withdraw_collateral`: with debt, the remaining collateral must still allow it at 50 %; in
      every case the remaining collateral must stay at or above the owner's floor. */
  function WithdrawCollateral(b: Books, amount: U64, now: I64, transferOk: bool): (r: Result<Books>)
    ensures amount == 0 ==> r == Err(InvalidAmount)
    ensures amount > 0 && amount > b.position.collateralAmount ==> r == Err(InsufficientCollateral)
    ensures r.Ok? ==> 0 < amount <= b.position.collateralAmount
    ensures r.Ok? ==> r.value.position.collateralAmount == b.position.collateralAmount - amount
    ensures r.Ok? ==> r.value.position.collateralAmount >= b.position.gadConfig.minCollateralFloor
    ensures r.Ok? ==> b.position.borrowedAmount * 2 * LAMPORTS_PER_SOL
                      <= r.value.position.collateralAmount * b.protocol.solPriceUsd
    ensures r.Ok? ==> r.value.position == b.position.(collateralAmount := b.position.collateralAmount - amount, lastUpdate := now)
    ensures r.Ok? ==> r.value.protocol == b.protocol.(totalCollateral := SatSub(b.protocol.totalCollateral, amount))
  {
    if amount == 0 then Err(InvalidAmount)
    else if amount > b.position.collateralAmount then Err(InsufficientCollateral)
    else
      var remaining := b.position.collateralAmount - amount;
      if b.position.borrowedAmount > 0
         && b.position.borrowedAmount > MaxBorrow(SolValueUsd(remaining, b.protocol.solPriceUsd))
      then Err(ExceedsLTV)
      else if remaining < b.position.gadConfig.minCollateralFloor then Err(BelowCollateralFloor)
      else if !transferOk then Err(TransferFailed)
      else
        Ok(Books(b.position.(collateralAmount := remaining, lastUpdate := now),
                 b.protocol.(totalCollateral := SatSub(b.protocol.totalCollateral, amount))))
  }

  /** Without debt only the floor limits a withdrawal. */
  lemma WithdrawWithoutDebt(b: Books, amount: U64, now: I64)
    requires b.position.borrowedAmount == 0
    requires 0 < amount <= b.position.collateralAmount
    requires b.position.collateralAmount - amount >= b.position.gadConfig.minCollateralFloor
    ensures WithdrawCollateral(b, amount, now, true).Ok?
  {
  }

  /** Withdrawing what was just deposited restores the collateral, and is allowed whenever the
      position met the borrow limit and the floor before the deposit. */
  lemma WithdrawUndoesDeposit(b: Books, amount: U64, now: I64, later: I64)
    requires DepositCollateral(b, amount, now, true).Ok?
    requires b.position.borrowedAmount <= MaxBorrow(SolValueUsd(b.position.collateralAmount, b.protocol.solPriceUsd))
    requires b.position.collateralAmount >= b.position.gadConfig.minCollateralFloor
    ensures WithdrawCollateral(DepositCollateral(b, amount, now, true).value, amount, later, true).Ok?
    ensures WithdrawCollateral(DepositCollateral(b, amount, now, true).value, amount, later, true).value.position.collateralAmount
            == b.position.collateralAmount
  {
  }

  // ---------------------------------------------------------------- deleveraging

  /** What a crank computes before it moves anything. */
  datatype CrankPlan = CrankPlan(ltvBps: U64, rateBps: U64, elapsed: I64, liquidated: U64, reward: U64, debtReduction: U64)

  /** The loan-to-value in basis points the crank uses: `(borrowed × 10000 / value) as u64`. */
  function CurrentLtvBps(borrowed: U64, value: U128): (ltv: U64)
    requires value > 0
    ensures borrowed * BPS_DENOMINATOR / value <= U64_MAX ==> ltv == borrowed * BPS_DENOMINATOR / value
  {
    WrapU64(borrowed * BPS_DENOMINATOR / value)
  }

  /** `collateral × rate × elapsed / 10000 / 86400`, or `None` when the product passes `u128`. */
  function LiquidationAmount(collateral: U64, rateBps: U64, elapsed: nat): (r: Option<U64>)
    requires rateBps <= 1000
    ensures r.Some? <==> collateral * rateBps * elapsed <= U128_MAX
    ensures r.Some? ==> r.value <= collateral * rateBps * elapsed / (BPS_DENOMINATOR * SECONDS_PER_DAY)
    ensures collateral * rateBps * elapsed / (BPS_DENOMINATOR * SECONDS_PER_DAY) <= U64_MAX
            ==> r == Some(collateral * rateBps * elapsed / (BPS_DENOMINATOR * SECONDS_PER_DAY))
  {
    if collateral * rateBps * elapsed > U128_MAX then None
    else Some(WrapU64(collateral * rateBps * elapsed / BPS_DENOMINATOR / SECONDS_PER_DAY))
  }

  /** The checks of `crank_gad`, in the program's order, and the amounts it computes. */
  function PlanCrank(p: PositionData, priceUsd: U64, now: I64): (r: Result<CrankPlan>)
    ensures !p.gadConfig.enabled ==> r == Err(GadDisabled)
    ensures p.gadConfig.enabled && p.borrowedAmount == 0 ==> r == Err(NoDebtToDeleverage)
    ensures p.gadConfig.enabled && p.borrowedAmount > 0 && SolValueUsd(p.collateralAmount, priceUsd) == 0
            ==> r == Err(NoCollateral)
    ensures p.gadConfig.enabled && p.borrowedAmount > 0 && SolValueUsd(p.collateralAmount, priceUsd) > 0 ==>
              var ltv := CurrentLtvBps(p.borrowedAmount, SolValueUsd(p.collateralAmount, priceUsd));
              && (ltv <= p.gadConfig.customStartLtvBps ==> r == Err(LtvBelowGadThreshold))
              && (ltv > p.gadConfig.customStartLtvBps && !(I64_MIN <= now - p.lastGadCrank <= I64_MAX)
                  ==> r == Err(MathOverflow))
              && (ltv > p.gadConfig.customStartLtvBps && I64_MIN <= now - p.lastGadCrank < MIN_GAD_CRANK_INTERVAL
                  ==> r == Err(CrankTooSoon))
              && (p.gadConfig.customStartLtvBps < ltv <= GAD_START_LTV_BPS
                  ==> MIN_GAD_CRANK_INTERVAL <= now - p.lastGadCrank <= I64_MAX ==> r == Err(NothingToLiquidate))
    ensures r.Ok? ==> r.value.ltvBps > p.gadConfig.customStartLtvBps && r.value.ltvBps > GAD_START_LTV_BPS
    ensures r.Ok? ==> r.value.rateBps == TieredGadRate(r.value.ltvBps) > 0
    ensures r.Ok? ==> r.value.elapsed == now - p.lastGadCrank >= MIN_GAD_CRANK_INTERVAL
    ensures r.Ok? ==> LiquidationAmount(p.collateralAmount, r.value.rateBps, r.value.elapsed).Some?
                      && r.value.liquidated == Min(LiquidationAmount(p.collateralAmount, r.value.rateBps, r.value.elapsed).value,
                                                   SatSub(p.collateralAmount, p.gadConfig.minCollateralFloor))
    ensures r.Ok? ==> 0 < r.value.liquidated && r.value.liquidated + p.gadConfig.minCollateralFloor <= p.collateralAmount
    ensures r.Ok? ==> r.value.reward == r.value.liquidated / CRANK_REWARD_DIVISOR
                      && r.value.liquidated + r.value.reward <= U64_MAX
    ensures r.Ok? ==> r.value.debtReduction <= p.borrowedAmount
                      && r.value.debtReduction == Min(WrapU64(SolValueUsd(r.value.liquidated, priceUsd)), p.borrowedAmount)
  {
    if !p.gadConfig.enabled then Err(GadDisabled)
    else if p.borrowedAmount == 0 then Err(NoDebtToDeleverage)
    else
      var value := SolValueUsd(p.collateralAmount, priceUsd);
      if value == 0 then Err(NoCollateral)
      else
        var ltv := CurrentLtvBps(p.borrowedAmount, value);
        if ltv <= p.gadConfig.customStartLtvBps then Err(LtvBelowGadThreshold)
        else if CheckedSubI64(now, p.lastGadCrank).None? then Err(MathOverflow)
        else
          var elapsed := now - p.lastGadCrank;
          if elapsed < MIN_GAD_CRANK_INTERVAL then Err(CrankTooSoon)
          else SizeLiquidation(p, priceUsd, ltv, elapsed)
  }

  /** The second half of `crank_gad`'s plan: the tiered rate at `ltv`, the collateral it sells over
      `elapsed` (kept above the floor), the cranker's reward and the debt the sale repays. */
  function SizeLiquidation(p: PositionData, priceUsd: U64, ltv: U64, elapsed: I64): (r: Result<CrankPlan>)
    requires elapsed >= 0
    ensures r.Ok? ==> r.value.ltvBps == ltv && r.value.elapsed == elapsed
    ensures r.Ok? ==> r.value.rateBps == TieredGadRate(ltv) > 0
    ensures LiquidationAmount(p.collateralAmount, TieredGadRate(ltv), elapsed).None? ==> r == Err(MathOverflow)
    ensures LiquidationAmount(p.collateralAmount, TieredGadRate(ltv), elapsed).Some?
            && Min(LiquidationAmount(p.collateralAmount, TieredGadRate(ltv), elapsed).value,
                   SatSub(p.collateralAmount, p.gadConfig.minCollateralFloor)) == 0
            ==> r == Err(NothingToLiquidate)
    ensures r.Ok? ==> LiquidationAmount(p.collateralAmount, r.value.rateBps, r.value.elapsed).Some?
                      && r.value.liquidated == Min(LiquidationAmount(p.collateralAmount, r.value.rateBps, r.value.elapsed).value,
                                                   SatSub(p.collateralAmount, p.gadConfig.minCollateralFloor))
    ensures r.Ok? ==> 0 < r.value.liquidated && r.value.liquidated + p.gadConfig.minCollateralFloor <= p.collateralAmount
    ensures r.Ok? ==> r.value.reward == r.value.liquidated / CRANK_REWARD_DIVISOR
                      && r.value.liquidated + r.value.reward <= U64_MAX
    ensures r.Ok? ==> r.value.debtReduction <= p.borrowedAmount
                      && r.value.debtReduction == Min(WrapU64(SolValueUsd(r.value.liquidated, priceUsd)), p.borrowedAmount)
  {
    var rate := TieredGadRate(ltv);
    var amount := LiquidationAmount(p.collateralAmount, rate, elapsed);
    if amount.None? then Err(MathOverflow)
    else
      var liquidated := Min(amount.value, SatSub(p.collateralAmount, p.gadConfig.minCollateralFloor));
      if liquidated == 0 then Err(NothingToLiquidate)
      else
        var reward := liquidated / CRANK_REWARD_DIVISOR;
        if liquidated + reward > U64_MAX then Err(MathOverflow)
        else
          var usd := WrapU64(SolValueUsd(liquidated, priceUsd));
          Ok(CrankPlan(ltv, rate, elapsed, liquidated, reward, Min(usd, p.borrowedAmount)))
  }

  /** Within a day of the last crank, the slice is at most the day's rate of the collateral, so at
      most 10 % of it: the sale is pro rata to the time elapsed. */
  lemma CrankDailyCap(p: PositionData, priceUsd: U64, now: I64)
    requires PlanCrank(p, priceUsd, now).Ok? && PlanCrank(p, priceUsd, now).value.elapsed <= SECONDS_PER_DAY
    ensures PlanCrank(p, priceUsd, now).value.liquidated * BPS_DENOMINATOR
            <= p.collateralAmount * PlanCrank(p, priceUsd, now).value.rateBps
    ensures PlanCrank(p, priceUsd, now).value.liquidated * 10 <= p.collateralAmount
  {
    var plan := PlanCrank(p, priceUsd, now).value;
    var perDay := p.collateralAmount * plan.rateBps;
    SliceWithinDay(perDay, plan.elapsed, plan.liquidated);
    MulMonotone(plan.rateBps, 1000, p.collateralAmount);
  }

  /** A slice of at most `perDay × elapsed / (10000 × 86400)` with `elapsed` within a day is at
      most `perDay / 10000`. */
  lemma SliceWithinDay(perDay: nat, elapsed: nat, slice: nat)
    requires elapsed <= SECONDS_PER_DAY
    requires slice <= perDay * elapsed / (BPS_DENOMINATOR * SECONDS_PER_DAY)
    ensures slice * BPS_DENOMINATOR <= perDay
  {
    var q := perDay * elapsed / (BPS_DENOMINATOR * SECONDS_PER_DAY);
    FloorBounds(perDay * elapsed, BPS_DENOMINATOR * SECONDS_PER_DAY);
    MulMonotone(elapsed, SECONDS_PER_DAY, perDay);
    assert (q * BPS_DENOMINATOR) * SECONDS_PER_DAY <= perDay * SECONDS_PER_DAY;
    MulCancel(q * BPS_DENOMINATOR, perDay, SECONDS_PER_DAY);
    MulMonotone(slice, q, BPS_DENOMINATOR);
  }

  /** The writes of `crank_gad`, after the two transfers out of the vault: the liquidated amount
      and the reward both leave the collateral, which must cover them. */
  function ApplyCrank(b: Books, plan: CrankPlan, now: I64, transferOk: bool): (r: Result<Books>)
    requires plan.debtReduction <= b.position.borrowedAmount
    ensures !transferOk ==> r == Err(TransferFailed)
    ensures transferOk && plan.liquidated + plan.reward > b.position.collateralAmount ==> r == Err(MathOverflow)
    ensures r.Ok? ==> plan.liquidated + plan.reward <= b.position.collateralAmount
                      && b.position.totalGadLiquidated + plan.liquidated <= U64_MAX
    ensures r.Ok? ==> r.value.position == b.position.(
                        collateralAmount := b.position.collateralAmount - plan.liquidated - plan.reward,
                        borrowedAmount := b.position.borrowedAmount - plan.debtReduction,
                        lastGadCrank := now,
                        totalGadLiquidated := b.position.totalGadLiquidated + plan.liquidated,
                        lastUpdate := now)
    ensures r.Ok? ==> r.value.protocol == b.protocol.(
                        totalCollateral := SatSub(b.protocol.totalCollateral, plan.liquidated + plan.reward),
                        totalBorrowed := SatSub(b.protocol.totalBorrowed, plan.debtReduction))
  {
    var deduct := plan.liquidated + plan.reward;
    if !transferOk then Err(TransferFailed)
    else if deduct > b.position.collateralAmount then Err(MathOverflow)
    else if b.position.totalGadLiquidated + plan.liquidated > U64_MAX then Err(MathOverflow)
    else
      Ok(Books(b.position.(collateralAmount := b.position.collateralAmount - deduct,
                           borrowedAmount := b.position.borrowedAmount - plan.debtReduction,
                           lastGadCrank := now,
                           totalGadLiquidated := b.position.totalGadLiquidated + plan.liquidated,
                           lastUpdate := now),
               b.protocol.(totalCollateral := SatSub(b.protocol.totalCollateral, deduct),
                           totalBorrowed := SatSub(b.protocol.totalBorrowed, plan.debtReduction))))
  }

  /** `crank_gad`. */
  function CrankGad(b: Books, now: I64, transferOk: bool): (r: Result<Books>)
    ensures r.Ok? ==> PlanCrank(b.position, b.protocol.solPriceUsd, now).Ok?
    ensures r.Ok? ==> r.value.position.borrowedAmount <= b.position.borrowedAmount
                      && r.value.position.collateralAmount < b.position.collateralAmount
                      && r.value.position.lastGadCrank == now
  {
    var plan :- PlanCrank(b.position, b.protocol.solPriceUsd, now);
    ApplyCrank(b, plan, now, transferOk)
  }

  /** Only the liquidated slice respects the floor; the reward comes on top of it, so the remaining
      collateral plus the reward is at least the floor. */
  lemma CrankKeepsFloor(b: Books, now: I64, transferOk: bool)
    requires CrankGad(b, now, transferOk).Ok?
    ensures var plan := PlanCrank(b.position, b.protocol.solPriceUsd, now).value;
            CrankGad(b, now, transferOk).value.position.collateralAmount
              == b.position.collateralAmount - plan.liquidated - plan.reward
            && CrankGad(b, now, transferOk).value.position.collateralAmount + plan.reward
              >= b.position.gadConfig.minCollateralFloor
            && CrankGad(b, now, transferOk).value.position.borrowedAmount
              == b.position.borrowedAmount - plan.debtReduction
  {
  }

  /** A crank that takes every lamport above a zero floor cannot also pay the reward out of the
      collateral: once the slice is at least 200 lamports, `checked_sub` fails. */
  lemma FullLiquidationOverflows(b: Books, now: I64)
    requires PlanCrank(b.position, b.protocol.solPriceUsd, now).Ok?
    requires PlanCrank(b.position, b.protocol.solPriceUsd, now).value.liquidated == b.position.collateralAmount
    requires b.position.collateralAmount >= CRANK_REWARD_DIVISOR
    ensures CrankGad(b, now, true) == Err(MathOverflow)
  {
  }

  /** An instance: 1000 lamports worth one micro-dollar, one micro-dollar owed, no floor, cranked
      ten days after the last crank. The 10 %-a-day rate liquidates all 1000 lamports and the
      reward of 5 cannot be deducted. */
  lemma FullLiquidationExample()
    ensures var b := Books(PositionData(0, 1000, 1, 0, 0, DefaultGadConfig, 0), ProtocolData(0, 1_000_000, 0, 1000, 1, 0));
            PlanCrank(b.position, b.protocol.solPriceUsd, 864000) == Ok(CrankPlan(10000, 1000, 864000, 1000, 5, 1))
            && CrankGad(b, 864000, true) == Err(MathOverflow)
  {
    var b := Books(PositionData(0, 1000, 1, 0, 0, DefaultGadConfig, 0), ProtocolData(0, 1_000_000, 0, 1000, 1, 0));
    assert SolValueUsd(1000, 1_000_000) == 1;
    assert LiquidationAmount(1000, 1000, 864000) == Some(1000);
    assert SolValueUsd(1000, 1_000_000) == 1;
  }

  /** After a crank at `now`, another crank within the hour fails; when the position is still in
      debt, valued and above its start LTV (the checks that come before the interval), it fails
      with `CrankTooSoon`. */
  lemma CrankThrottled(b: Books, now: I64, transferOk: bool, later: I64, transferOk2: bool)
    requires CrankGad(b, now, transferOk).Ok?
    requires later < now + MIN_GAD_CRANK_INTERVAL
    ensures CrankGad(CrankGad(b, now, transferOk).value, later, transferOk2).Err?
    ensures var p := CrankGad(b, now, transferOk).value.position;
            var value := SolValueUsd(p.collateralAmount, b.protocol.solPriceUsd);
            p.borrowedAmount > 0 && value > 0 && CurrentLtvBps(p.borrowedAmount, value) > p.gadConfig.customStartLtvBps
            && I64_MIN <= later - now
            ==> CrankGad(CrankGad(b, now, transferOk).value, later, transferOk2) == Err(CrankTooSoon)
  {
  }

  // ---------------------------------------------------------------- health report

  /** The fields of the `PositionHealth` event that the model computes. */
  datatype PositionHealth = PositionHealth(
    collateralValueUsd: U64,
    currentLtvBps: U64,
    gadRateBpsPerDay: U64,
    isGadActive: bool,
    secondsToFullLiquidation: I64)

  /** the numerator scale of the time to full liquidation: 10000 bps for 86400 seconds */
  const FULL_LIQUIDATION_SCALE: int := 864_000_000

  /** A share `l / c` of a scale, divided by a rate, stays within the scale divided by the rate,
      and a full share gives exactly that. */
  lemma ScaledShare(l: nat, c: nat, k: nat, rate: nat)
    requires 0 < c && l <= c && 0 < rate
    ensures 0 <= l * k / c / rate <= k / rate <= k
    ensures l == c ==> l * k / c / rate == k / rate
  {
    MulMonotone(0, l, k);
    MulMonotone(l, c, k);
    assert l * k <= k * c;
    DivBelow(l * k, k, c);
    DivMonotone(0, l * k, c);
    DivMonotone(0, l * k / c, rate);
    DivMonotone(l * k / c, k, rate);
    MulMonotone(1, rate, k);
    DivBelow(k, k, rate);
    if l == c {
      var q := l * k / c;
      assert l * k == q * c + (l * k) % c;
      assert (q + 1) * c == q * c + c;
      if q < k {
        MulMonotone(q + 1, k, c);
      }
    }
  }

  /** The time to liquidate the part above the floor at `rate` basis points a day. */
  function SecondsToLiquidate(collateral: U64, floor: U64, rateBps: U64): (s: I64)
    requires collateral > 0 && 0 < rateBps <= 1000
    ensures 0 <= s <= FULL_LIQUIDATION_SCALE / rateBps
    ensures floor == 0 ==> s == FULL_LIQUIDATION_SCALE / rateBps
  {
    var liquidatable := SatSub(collateral, floor);
    ScaledShare(liquidatable, collateral, FULL_LIQUIDATION_SCALE, rateBps);
    liquidatable * FULL_LIQUIDATION_SCALE / collateral / rateBps
  }

  /** `get_position_health`. It casts the collateral's value to `u64` before computing the
      loan-to-value from it. */
  function Health(p: PositionData, priceUsd: U64): (h: PositionHealth)
    ensures h.collateralValueUsd == WrapU64(SolValueUsd(p.collateralAmount, priceUsd))
    ensures h.collateralValueUsd == 0 ==> h.currentLtvBps == 0
    ensures h.collateralValueUsd > 0 ==> h.currentLtvBps == CurrentLtvBps(p.borrowedAmount, h.collateralValueUsd)
    ensures h.gadRateBpsPerDay == TieredGadRate(h.currentLtvBps)
    ensures h.isGadActive <==> p.gadConfig.enabled && h.currentLtvBps > p.gadConfig.customStartLtvBps
    ensures h.secondsToFullLiquidation == -1 <==> h.gadRateBpsPerDay == 0 || p.collateralAmount == 0
    ensures h.secondsToFullLiquidation != -1 ==>
              0 <= h.secondsToFullLiquidation <= FULL_LIQUIDATION_SCALE / h.gadRateBpsPerDay
  {
    var value := WrapU64(SolValueUsd(p.collateralAmount, priceUsd));
    var ltv := if value > 0 then CurrentLtvBps(p.borrowedAmount, value) else 0;
    var rate := TieredGadRate(ltv);
    var seconds := if rate > 0 && p.collateralAmount > 0
                   then SecondsToLiquidate(p.collateralAmount, p.gadConfig.minCollateralFloor, rate)
                   else -1;
    PositionHealth(value, ltv, rate, p.gadConfig.enabled && ltv > p.gadConfig.customStartLtvBps, seconds)
  }

  /** While the collateral's value fits in a `u64`, the report and the crank agree: the report says
      deleveraging is active exactly when a crank of an indebted position gets past the enabled and
      threshold checks. */
  lemma HealthMatchesCrank(p: PositionData, priceUsd: U64, now: I64)
    requires p.borrowedAmount > 0
    requires 0 < SolValueUsd(p.collateralAmount, priceUsd) <= U64_MAX
    ensures Health(p, priceUsd).isGadActive
            <==> PlanCrank(p, priceUsd, now).Ok?
                 || PlanCrank(p, priceUsd, now).error !in {GadDisabled, LtvBelowGadThreshold}
  {
  }

  // ---------------------------------------------------------------- the instructions on the accounts

  /** `configure_gad` on a position account. */
  method ConfigureGadOn(position: Position, enabled: bool, startLtvBps: Option<U64>, floor: Option<U64>)
    returns (o: Outcome)
    modifies position
    ensures o == OutcomeOf(ConfigureGad(old(position.gadConfig), enabled, startLtvBps, floor))
    ensures o.Success? ==> position.Data() == old(position.Data()).(gadConfig := ConfigureGad(old(position.gadConfig), enabled, startLtvBps, floor).value)
    ensures o.Failure? ==> position.Data() == old(position.Data())
  {
    var g := position.gadConfig.(enabled := enabled);
    if startLtvBps.Some? {
      if !(MIN_CUSTOM_START_LTV_BPS <= startLtvBps.value <= MAX_CUSTOM_START_LTV_BPS) {
        return Failure(InvalidGadConfig);
      }
      g := g.(customStartLtvBps := startLtvBps.value);
    }
    if floor.Some? {
      g := g.(minCollateralFloor := floor.value);
    }
    position.gadConfig := g;
    o := Success;
  }

  /** `deposit_collateral` on the position and protocol accounts. */
  method DepositCollateralOn(position: Position, protocol: Protocol, amount: U64, now: I64, transferOk: bool)
    returns (o: Outcome)
    modifies position, protocol
    ensures var r := DepositCollateral(Books(old(position.Data()), old(protocol.Data())), amount, now, transferOk);
            && o == OutcomeOf(r)
            && (o.Success? ==> position.Data() == r.value.position && protocol.Data() == r.value.protocol)
    ensures o.Failure? ==> position.Data() == old(position.Data()) && protocol.Data() == old(protocol.Data())
  {
    if amount == 0 {
      return Failure(InvalidAmount);
    }
    if !transferOk {
      return Failure(TransferFailed);
    }
    if position.collateralAmount + amount > U64_MAX || protocol.totalCollateral + amount > U64_MAX {
      return Failure(MathOverflow);
    }
    position.collateralAmount := position.collateralAmount + amount;
    position.lastUpdate := now;
    protocol.totalCollateral := protocol.totalCollateral + amount;
    o := Success;
  }

  /** `borrow` on the position and protocol accounts. */
  method BorrowOn(position: Position, protocol: Protocol, amount: U64, now: I64) returns (o: Outcome)
    modifies position, protocol
    ensures var r := Borrow(Books(old(position.Data()), old(protocol.Data())), amount, now);
            && o == OutcomeOf(r)
            && (o.Success? ==> position.Data() == r.value.position && protocol.Data() == r.value.protocol)
    ensures o.Failure? ==> position.Data() == old(position.Data()) && protocol.Data() == old(protocol.Data())
  {
    if amount == 0 {
      return Failure(InvalidAmount);
    }
    var maxBorrow := MaxBorrow(SolValueUsd(position.collateralAmount, protocol.solPriceUsd));
    if position.borrowedAmount + amount > U64_MAX {
      return Failure(MathOverflow);
    }
    var newBorrowed := position.borrowedAmount + amount;
    if newBorrowed > maxBorrow {
      return Failure(ExceedsLTV);
    }
    if protocol.totalBorrowed + amount > U64_MAX {
      return Failure(MathOverflow);
    }
    if newBorrowed * 100 > U64_MAX {
      return Failure(ArithmeticPanic);
    }
    position.borrowedAmount := newBorrowed;
    position.lastUpdate := now;
    protocol.totalBorrowed := protocol.totalBorrowed + amount;
    o := Success;
  }

  /** `repay` on the position and protocol accounts. */
  method RepayOn(position: Position, protocol: Protocol, amount: U64, now: I64) returns (o: Outcome, repaid: U64)
    modifies position, protocol
    ensures var r := Repay(Books(old(position.Data()), old(protocol.Data())), amount, now);
            && o == OutcomeOf(r)
            && (o.Success? ==> position.Data() == r.value.position && protocol.Data() == r.value.protocol)
    ensures o.Success? ==> repaid == Min(amount, old(position.borrowedAmount))
    ensures o.Failure? ==> position.Data() == old(position.Data()) && protocol.Data() == old(protocol.Data())
  {
    if amount == 0 {
      return Failure(InvalidAmount), 0;
    }
    repaid := Min(amount, position.borrowedAmount);
    position.borrowedAmount := position.borrowedAmount - repaid;
    position.lastUpdate := now;
    protocol.totalBorrowed := SatSub(protocol.totalBorrowed, repaid);
    o := Success;
  }

  /** `withdraw_collateral` on the position and protocol accounts. */
  method WithdrawCollateralOn(position: Position, protocol: Protocol, amount: U64, now: I64, transferOk: bool)
    returns (o: Outcome)
    modifies position, protocol
    ensures var r := WithdrawCollateral(Books(old(position.Data()), old(protocol.Data())), amount, now, transferOk);
            && o == OutcomeOf(r)
            && (o.Success? ==> position.Data() == r.value.position && protocol.Data() == r.value.protocol)
    ensures o.Failure? ==> position.Data() == old(position.Data()) && protocol.Data() == old(protocol.Data())
  {
    if amount == 0 {
      return Failure(InvalidAmount);
    }
    if amount > position.collateralAmount {
      return Failure(InsufficientCollateral);
    }
    var remaining := position.collateralAmount - amount;
    if position.borrowedAmount > 0 {
      var maxBorrow := MaxBorrow(SolValueUsd(remaining, protocol.solPriceUsd));
      if position.borrowedAmount > maxBorrow {
        return Failure(ExceedsLTV);
      }
    }
    if remaining < position.gadConfig.minCollateralFloor {
      return Failure(BelowCollateralFloor);
    }
    if !transferOk {
      return Failure(TransferFailed);
    }
    position.collateralAmount := remaining;
    position.lastUpdate := now;
    protocol.totalCollateral := SatSub(protocol.totalCollateral, amount);
    o := Success;
  }

  /** `crank_gad` on the position and protocol accounts. */
  method CrankGadOn(position: Position, protocol: Protocol, now: I64, transferOk: bool) returns (o: Outcome)
    modifies position, protocol
    ensures var r := CrankGad(Books(old(position.Data()), old(protocol.Data())), now, transferOk);
            && o == OutcomeOf(r)
            && (o.Success? ==> position.Data() == r.value.position && protocol.Data() == r.value.protocol)
    ensures o.Failure? ==> position.Data() == old(position.Data()) && protocol.Data() == old(protocol.Data())
  {
    var plan := PlanCrank(position.Data(), protocol.solPriceUsd, now);
    if plan.Err? {
      return Failure(plan.error);
    }
    assert CrankGad(Books(position.Data(), protocol.Data()), now, transferOk)
        == ApplyCrank(Books(position.Data(), protocol.Data()), plan.value, now, transferOk);
    var deduct := plan.value.liquidated + plan.value.reward;
    if !transferOk {
      return Failure(TransferFailed);
    }
    if deduct > position.collateralAmount || position.totalGadLiquidated + plan.value.liquidated > U64_MAX {
      return Failure(MathOverflow);
    }
    position.collateralAmount := position.collateralAmount - deduct;
    position.borrowedAmount := position.borrowedAmount - plan.value.debtReduction;
    position.lastGadCrank := now;
    position.totalGadLiquidated := position.totalGadLiquidated + plan.value.liquidated;
    position.lastUpdate := now;
    protocol.totalCollateral := SatSub(protocol.totalCollateral, deduct);
    protocol.totalBorrowed := SatSub(protocol.totalBorrowed, plan.value.debtReduction);
    o := Success;
  }
}
