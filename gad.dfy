/** Gradual auto-deleveraging of a multi-asset position (`legasi-gad/src/lib.rs`).

    Once the position's loan-to-value passes 75 %, anyone may crank it, at most once an hour. Each
    crank sells a slice of the position's SOL that grows with the square of the excess LTV (capped
    at 10 % a day) and with the time since the last crank, pays the cranker 0.5 % of the slice on
    top, and uses the slice's USD value to pay the borrow entries down, interest first. There is
    no collateral floor. */
module Gad {
  import opened Num
  import opened Errors
  import opened Constants
  import opened State
  import opened Ledger

  // ---------------------------------------------------------------- the rate curve

  /** The daily cap of the curve, in basis points. */
  const MAX_GAD_RATE_BPS: int := 1000

  /** `get_gad_rate_bps` as written: the squared excess divided by 100 is cast `as u64` (keeping the
      low 64 bits of the `u128` quotient) before the cap of 1000 is applied. */
  function GadRateAsWritten(currentLtvBps: U64, maxLtvBps: U64): (rate: U64)
    ensures rate <= MAX_GAD_RATE_BPS
    ensures currentLtvBps <= maxLtvBps ==> rate == 0
  {
    if currentLtvBps <= maxLtvBps then 0
    else
      var excess := currentLtvBps - maxLtvBps;
      Min(WrapU64(excess * excess / 100), MAX_GAD_RATE_BPS)
  }

  /** The quadratic curve `min(excess² / 100, 1000)` without the cast: the curve the rate is meant
      to follow, and the one the crank follows up to an excess of 42949672959 bps
      (`GadRateAgrees`). */
  function GadRate(currentLtvBps: U64, maxLtvBps: U64): (rate: U64)
    ensures rate <= MAX_GAD_RATE_BPS
    ensures currentLtvBps <= maxLtvBps ==> rate == 0
  {
    if currentLtvBps <= maxLtvBps then 0
    else
      var excess := currentLtvBps - maxLtvBps;
      Min(excess * excess / 100, MAX_GAD_RATE_BPS)
  }

  /** The curve never falls as the LTV rises. */
  lemma GadRateMonotone(c1: U64, c2: U64, maxLtvBps: U64)
    requires c1 <= c2
    ensures GadRate(c1, maxLtvBps) <= GadRate(c2, maxLtvBps)
  {
    if c1 > maxLtvBps {
      var e1 := c1 - maxLtvBps;
      var e2 := c2 - maxLtvBps;
      MulMonotone(e1, e2, e1);
      MulMonotone(e1, e2, e2);
      DivMonotone(e1 * e1, e2 * e2, 100);
    }
  }

  /** Where the curve starts and where it reaches its cap: a positive rate needs an excess of at
      least 10 bps, and the full 10 % a day comes at an excess of 317 bps (3.17 % of LTV). */
  lemma GadRateThresholds(currentLtvBps: U64, maxLtvBps: U64)
    ensures GadRate(currentLtvBps, maxLtvBps) > 0 <==> currentLtvBps >= maxLtvBps + 10
    ensures GadRate(currentLtvBps, maxLtvBps) == MAX_GAD_RATE_BPS <==> currentLtvBps >= maxLtvBps + 317
  {
    if currentLtvBps > maxLtvBps {
      var e := currentLtvBps - maxLtvBps;
      if e >= 317 {
        MulMonotone(317, e, e);
        MulMonotone(317, e, 317);
        DivMonotone(100489, e * e, 100);
      } else if e >= 10 {
        MulMonotone(10, e, e);
        MulMonotone(10, e, 10);
        DivMonotone(100, e * e, 100);
        MulMonotone(e, 316, e);
        MulMonotone(e, 316, 316);
        DivMonotone(e * e, 99856, 100);
      } else {
        MulMonotone(e, 9, e);
        MulMonotone(e, 9, 9);
      }
    }
  }

  /** The values the curve is documented with. */
  lemma GadRateExamples()
    ensures GadRate(7500, 7500) == 0
    ensures GadRate(7510, 7500) == 1 && GadRate(7600, 7500) == 100 && GadRate(7816, 7500) == 998
    ensures GadRate(8000, 7500) == 1000
    ensures GadRate(9000, 7500) == 1000
  {
  }

  /** The largest excess for which the cast cannot change the quotient. */
  const LAST_EXACT_EXCESS: int := 42949672959

  /** Up to an excess of 42949672959 bps the cast keeps the whole quotient, and the curve as written
      is the intended one. */
  lemma GadRateAgrees(currentLtvBps: U64, maxLtvBps: U64)
    requires currentLtvBps <= maxLtvBps + LAST_EXACT_EXCESS
    ensures GadRateAsWritten(currentLtvBps, maxLtvBps) == GadRate(currentLtvBps, maxLtvBps)
  {
    if currentLtvBps > maxLtvBps {
      var e := currentLtvBps - maxLtvBps;
      MulMonotone(e, LAST_EXACT_EXCESS, e);
      MulMonotone(e, LAST_EXACT_EXCESS, LAST_EXACT_EXCESS);
      DivBelow(e * e, U64_MAX, 100);
    }
  }

  /** One basis point further, the square divided by 100 is exactly 2^64 and the cast makes it 0: a
      position at 429,497,442.6 % LTV gets no deleveraging at all (the crank fails with
      `NothingToLiquidate`), where the curve promises the full 10 %. A debt of 4294.968046 USD
      against 0.001 USD of SOL is such a position. */
  lemma GadRateWraps()
    ensures GadRateAsWritten(7500 + LAST_EXACT_EXCESS + 1, 7500) == 0
    ensures GadRate(7500 + LAST_EXACT_EXCESS + 1, 7500) == MAX_GAD_RATE_BPS
    ensures 4294968046 * BPS_DENOMINATOR / 1000 == 7500 + LAST_EXACT_EXCESS + 1
  {
  }

  // ---------------------------------------------------------------- the crank

  /** The crank values only SOL collateral and counts only stablecoin debt. */
  const GAD_VALUED: set<AssetType> := {SOL}
  const GAD_COUNTED: set<AssetType> := {USDC, EURC}

  /** What the first checks of `crank_gad` read off the position and the SOL feed. */
  datatype Reading = Reading(elapsed: I64, borrowUsd: U64, ltvBps: U64, rateBps: U64)

  /** The loan-to-value in basis points of a debt whose `checked_mul` by 10,000 fits in a `u64`. */
  function LtvOf(borrowUsd: nat, collateralUsd: nat): (ltv: U64)
    requires collateralUsd > 0 && borrowUsd * BPS_DENOMINATOR <= U64_MAX
    ensures ltv * collateralUsd <= borrowUsd * BPS_DENOMINATOR < (ltv + 1) * collateralUsd
  {
    var x := borrowUsd * BPS_DENOMINATOR;
    FloorBounds(x, collateralUsd);
    MulMonotone(1, collateralUsd, x / collateralUsd);
    x / collateralUsd
  }

  /** The first checks of `crank_gad`, in the handler's order: the switch, some debt, an hour since
      the last crank (before the LTV is even computed), SOL collateral of some value, the LTV in
      basis points (`checked_mul`), an LTV above 75 % and a positive rate. */
  function ReadPosition(d: PositionData, solPrice: U64, now: I64): (r: Result<Reading>)
    ensures !d.gadEnabled ==> r == Err(GadDisabled)
    ensures d.gadEnabled && d.borrows == [] ==> r == Err(NoDebtToDeleverage)
    ensures d.gadEnabled && d.borrows != [] && now - d.lastGadCrank < MIN_GAD_CRANK_INTERVAL ==> r == Err(CrankTooSoon)
    ensures r.Ok? ==> r.value.elapsed == Min(now - d.lastGadCrank, I64_MAX) >= MIN_GAD_CRANK_INTERVAL
    ensures r.Ok? ==> 0 < CollateralValue(d.collaterals, solPrice, GAD_VALUED) <= U64_MAX
                      && r.value.borrowUsd == DebtValue(d.borrows, GAD_COUNTED)
                      && r.value.borrowUsd * BPS_DENOMINATOR <= U64_MAX
    ensures r.Ok? ==> r.value.ltvBps == r.value.borrowUsd * BPS_DENOMINATOR
                                        / CollateralValue(d.collaterals, solPrice, GAD_VALUED)
    ensures r.Ok? ==> r.value.ltvBps > DEFAULT_SOL_MAX_LTV_BPS
                      && r.value.rateBps == GadRateAsWritten(r.value.ltvBps, DEFAULT_SOL_MAX_LTV_BPS) > 0
    ensures d.gadEnabled && d.borrows != [] && now - d.lastGadCrank >= MIN_GAD_CRANK_INTERVAL ==>
              var collateralUsd := CollateralValue(d.collaterals, solPrice, GAD_VALUED);
              && (collateralUsd > U64_MAX ==> r == Err(MathOverflow))
              && (collateralUsd == 0 ==> r == Err(InsufficientCollateral))
              && (0 < collateralUsd <= U64_MAX && DebtValue(d.borrows, GAD_COUNTED) * BPS_DENOMINATOR > U64_MAX
                  ==> r == Err(MathOverflow))
    ensures d.gadEnabled && d.borrows != [] && now - d.lastGadCrank >= MIN_GAD_CRANK_INTERVAL
            && 0 < CollateralValue(d.collaterals, solPrice, GAD_VALUED) <= U64_MAX
            && DebtValue(d.borrows, GAD_COUNTED) * BPS_DENOMINATOR <= U64_MAX ==>
              var ltv := LtvOf(DebtValue(d.borrows, GAD_COUNTED), CollateralValue(d.collaterals, solPrice, GAD_VALUED));
              && (ltv <= DEFAULT_SOL_MAX_LTV_BPS ==> r == Err(LtvBelowGadThreshold))
              && (ltv > DEFAULT_SOL_MAX_LTV_BPS && GadRateAsWritten(ltv, DEFAULT_SOL_MAX_LTV_BPS) == 0
                  ==> r == Err(NothingToLiquidate))
              && (ltv > DEFAULT_SOL_MAX_LTV_BPS && GadRateAsWritten(ltv, DEFAULT_SOL_MAX_LTV_BPS) > 0 ==> r.Ok?)
  {
    if !d.gadEnabled then Err(GadDisabled)
    else if d.borrows == [] then Err(NoDebtToDeleverage)
    else
      var elapsed := SatSubI64(now, d.lastGadCrank);
      if elapsed < MIN_GAD_CRANK_INTERVAL then Err(CrankTooSoon)
      else
        var collateralUsd := CollateralValue(d.collaterals, solPrice, GAD_VALUED);
        if collateralUsd > U64_MAX then Err(MathOverflow)
        else if collateralUsd == 0 then Err(InsufficientCollateral)
        else
          var borrowUsd := DebtValue(d.borrows, GAD_COUNTED);
          if borrowUsd > U64_MAX || borrowUsd * BPS_DENOMINATOR > U64_MAX then Err(MathOverflow)
          else
            var ltv := LtvOf(borrowUsd, collateralUsd);
            if ltv <= DEFAULT_SOL_MAX_LTV_BPS then Err(LtvBelowGadThreshold)
            else
              var rate := GadRateAsWritten(ltv, DEFAULT_SOL_MAX_LTV_BPS);
              if rate == 0 then Err(NothingToLiquidate)
              else Ok(Reading(elapsed, borrowUsd, ltv, rate))
  }

  /** What the checks of `crank_gad` decide before anything moves. */
  datatype CrankPlan = CrankPlan(
    solIndex: nat,
    solToLiquidate: U64,
    crankerReward: U64,
    liquidatedUsd: U64,
    debtReduction: U64)

  /** `checked_mul(..).ok_or(..)?` on two `u64` in `u128` never fails; the quotient is cast `as u64`. */
  function MulDiv(a: nat, b: nat, d: nat): (r: U64)
    requires d > 0
    ensures a * b / d <= U64_MAX ==> r == a * b / d
  {
    WrapU64(a * b / d)
  }

  /** The sizing of `crank_gad`: the share of a day elapsed, the fraction to sell (rate times that
      share), the slice of the first SOL entry, its USD value at the feed's price, the debt it pays
      (at most the stablecoin debt) and the cranker's 0.5 % (`checked_mul`, `checked_add`). */
  function SizeCrank(d: PositionData, rd: Reading, solPrice: U64): (r: Result<CrankPlan>)
    requires rd.elapsed >= 0
    ensures CollateralIndex(d.collaterals, SOL) < 0 ==> r == Err(InsufficientCollateral)
    ensures r.Ok? ==> r.value.solIndex == CollateralIndex(d.collaterals, SOL) && r.value.solToLiquidate > 0
    ensures r.Ok? ==> r.value.debtReduction == Min(r.value.liquidatedUsd, rd.borrowUsd)
    ensures r.Ok? ==> r.value.crankerReward == r.value.solToLiquidate * CRANKER_REWARD_BPS / BPS_DENOMINATOR
                      && r.value.solToLiquidate + r.value.crankerReward <= U64_MAX
    ensures r.Ok? ==> r.value.liquidatedUsd == WrapU64(r.value.solToLiquidate * solPrice / LAMPORTS_PER_SOL)
  {
    var timeFraction := MulDiv(rd.elapsed, BPS_DENOMINATOR, SECONDS_PER_DAY);
    var fraction := MulDiv(rd.rateBps, timeFraction, BPS_DENOMINATOR);
    var i := CollateralIndex(d.collaterals, SOL);
    if i < 0 then Err(InsufficientCollateral)
    else
      var toLiquidate := MulDiv(d.collaterals[i].amount, fraction, BPS_DENOMINATOR);
      if toLiquidate == 0 then Err(NothingToLiquidate)
      else
        var liquidatedUsd := MulDiv(toLiquidate, solPrice, LAMPORTS_PER_SOL);
        if toLiquidate * CRANKER_REWARD_BPS > U64_MAX then Err(MathOverflow)
        else
          var reward := toLiquidate * CRANKER_REWARD_BPS / BPS_DENOMINATOR;
          if toLiquidate + reward > U64_MAX then Err(MathOverflow)
          else Ok(CrankPlan(i, toLiquidate, reward, liquidatedUsd, Min(liquidatedUsd, rd.borrowUsd)))
  }

  /** The share of a day never wraps, so the fraction to sell is `rate × share / 10000` whenever
      that fits in a `u64`. */
  lemma SliceExact(elapsed: nat, rateBps: U64)
    requires elapsed <= I64_MAX
    ensures elapsed * BPS_DENOMINATOR / SECONDS_PER_DAY <= U64_MAX
    ensures rateBps * (elapsed * BPS_DENOMINATOR / SECONDS_PER_DAY) / BPS_DENOMINATOR <= U64_MAX
            ==> MulDiv(rateBps, MulDiv(elapsed, BPS_DENOMINATOR, SECONDS_PER_DAY), BPS_DENOMINATOR)
                == rateBps * (elapsed * BPS_DENOMINATOR / SECONDS_PER_DAY) / BPS_DENOMINATOR
  {
    MulMonotone(BPS_DENOMINATOR, SECONDS_PER_DAY, elapsed);
    DivBelow(elapsed * BPS_DENOMINATOR, elapsed, SECONDS_PER_DAY);
  }

  /** The slice is `amount × fraction / 10000` of the first SOL entry, with the fraction
      `rate × (elapsed × 10000 / 86400) / 10000`, whenever neither wraps its `u64`. */
  lemma SizeCrankExact(d: PositionData, rd: Reading, solPrice: U64)
    requires rd.elapsed >= 0 && SizeCrank(d, rd, solPrice).Ok?
    ensures var fraction := rd.rateBps * (rd.elapsed * BPS_DENOMINATOR / SECONDS_PER_DAY) / BPS_DENOMINATOR;
            var amount := d.collaterals[CollateralIndex(d.collaterals, SOL)].amount;
            fraction <= U64_MAX && amount * fraction / BPS_DENOMINATOR <= U64_MAX
            ==> SizeCrank(d, rd, solPrice).value.solToLiquidate == amount * fraction / BPS_DENOMINATOR
  {
    SliceExact(rd.elapsed, rd.rateBps);
  }

  /** Within a day, the slice is at most the day's rate of the SOL held. */
  lemma SizeWithinRate(d: PositionData, rd: Reading, solPrice: U64)
    requires 0 <= rd.elapsed <= SECONDS_PER_DAY && rd.rateBps <= MAX_GAD_RATE_BPS && SizeCrank(d, rd, solPrice).Ok?
    ensures SizeCrank(d, rd, solPrice).value.solToLiquidate * BPS_DENOMINATOR
            <= d.collaterals[CollateralIndex(d.collaterals, SOL)].amount * rd.rateBps
  {
    var amount := d.collaterals[CollateralIndex(d.collaterals, SOL)].amount;
    MulMonotone(rd.elapsed, SECONDS_PER_DAY, BPS_DENOMINATOR);
    DivBelow(rd.elapsed * BPS_DENOMINATOR, BPS_DENOMINATOR, SECONDS_PER_DAY);
    var timeFraction := rd.elapsed * BPS_DENOMINATOR / SECONDS_PER_DAY;
    MulMonotone(timeFraction, BPS_DENOMINATOR, rd.rateBps);
    DivBelow(rd.rateBps * timeFraction, rd.rateBps, BPS_DENOMINATOR);
    var fraction := rd.rateBps * timeFraction / BPS_DENOMINATOR;
    MulMonotone(fraction, rd.rateBps, amount);
    MulMonotone(fraction, BPS_DENOMINATOR, amount);
    DivBelow(amount * fraction, amount, BPS_DENOMINATOR);
    var toLiquidate := amount * fraction / BPS_DENOMINATOR;
    assert SizeCrank(d, rd, solPrice).value.solToLiquidate == toLiquidate;
    assert toLiquidate * BPS_DENOMINATOR <= amount * fraction;
  }

  /** The checks and sizing of `crank_gad` together. */
  function PlanCrank(d: PositionData, solPrice: U64, now: I64): (r: Result<CrankPlan>)
    ensures ReadPosition(d, solPrice, now).Err? ==> r == Err(ReadPosition(d, solPrice, now).error)
    ensures ReadPosition(d, solPrice, now).Ok? ==> r == SizeCrank(d, ReadPosition(d, solPrice, now).value, solPrice)
  {
    var rd :- ReadPosition(d, solPrice, now);
    SizeCrank(d, rd, solPrice)
  }

  /** The writes of `crank_gad` once the lamports have moved: the SOL entry loses the slice and the
      reward (saturating), the debt waterfall runs with the slice's value (skipping an entry whose
      principal plus interest overflows), the clocks and counters are stamped, and empty entries
      are dropped. */
  function ApplyCrank(d: PositionData, p: CrankPlan, now: I64): (r: PositionData)
    requires p.solIndex < |d.collaterals|
    ensures r.owner == d.owner && r.gadEnabled == d.gadEnabled
    ensures r.lastGadCrank == now && r.lastUpdate == now
    ensures r.totalGadLiquidatedUsd == SatAddU64(d.totalGadLiquidatedUsd, p.liquidatedUsd)
    ensures r.reputation == d.reputation.(gadEvents := SatAddU32(d.reputation.gadEvents, 1))
  {
    var sol := d.collaterals[p.solIndex];
    var cs := d.collaterals[p.solIndex := CollateralDeposit(sol.assetType, SatSub(sol.amount, p.solToLiquidate + p.crankerReward))];
    var bs := Waterfall(d.borrows, p.debtReduction, true).entries;
    d.(collaterals := Retain(cs, NonEmptyCollateral),
       borrows := Retain(bs, OutstandingBorrow),
       lastGadCrank := now,
       totalGadLiquidatedUsd := SatAddU64(d.totalGadLiquidatedUsd, p.liquidatedUsd),
       reputation := d.reputation.(gadEvents := SatAddU32(d.reputation.gadEvents, 1)),
       lastUpdate := now)
  }

  /** A successful crank: the new position and the plan it carried out. */
  datatype Crank = Crank(position: PositionData, plan: CrankPlan)

  /** `crank_gad`: the checks, then the two lamport transfers (slice to the treasury, reward to the
      cranker), then the writes. */
  function CrankGad(d: PositionData, solPrice: U64, now: I64, transferOk: bool): (r: Result<Crank>)
    ensures PlanCrank(d, solPrice, now).Err? ==> r == Err(PlanCrank(d, solPrice, now).error)
    ensures PlanCrank(d, solPrice, now).Ok? && !transferOk ==> r == Err(TransferFailed)
    ensures r.Ok? ==> r.value.plan == PlanCrank(d, solPrice, now).value
                      && r.value.position == ApplyCrank(d, r.value.plan, now)
    ensures r.Ok? ==> r.value.position.lastGadCrank == now
                      && r.value.position.reputation.gadEvents == SatAddU32(d.reputation.gadEvents, 1)
  {
    var plan :- PlanCrank(d, solPrice, now);
    if !transferOk then Err(TransferFailed)
    else Ok(Crank(ApplyCrank(d, plan, now), plan))
  }

  /** Within a day of the last crank, a crank sells at most the day's rate of the SOL held, so at
      most 10 % of it. */
  lemma CrankDailyCap(d: PositionData, solPrice: U64, now: I64)
    requires PlanCrank(d, solPrice, now).Ok? && now - d.lastGadCrank <= SECONDS_PER_DAY
    ensures PlanCrank(d, solPrice, now).value.solToLiquidate * BPS_DENOMINATOR
            <= Held(d.collaterals, SOL) * ReadPosition(d, solPrice, now).value.rateBps
    ensures PlanCrank(d, solPrice, now).value.solToLiquidate * 10 <= Held(d.collaterals, SOL)
  {
    var rd := ReadPosition(d, solPrice, now).value;
    SizeWithinRate(d, rd, solPrice);
    MulMonotone(rd.rateBps, MAX_GAD_RATE_BPS, Held(d.collaterals, SOL));
  }

  /** The cast at the crank: a position owing 4294.968046 USDC against 0.001 SOL at 1 USD stands at
      an LTV of 42949680460 bps, where the rate as written is 0, so every crank of it fails with
      `NothingToLiquidate`, where the intended curve would sell 10 % of its SOL a day. */
  lemma CrankStallsAtWrappedLtv(d: PositionData, now: I64, transferOk: bool)
    requires d.gadEnabled && now - d.lastGadCrank >= MIN_GAD_CRANK_INTERVAL
    requires d.borrows == [BorrowedAmount(USDC, 4294968046, 0)]
    requires d.collaterals == [CollateralDeposit(SOL, 1_000_000)]
    ensures CrankGad(d, 1_000_000, now, transferOk) == Err(NothingToLiquidate)
    ensures GadRate(LtvOf(4294968046, 1000), DEFAULT_SOL_MAX_LTV_BPS) == MAX_GAD_RATE_BPS
  {
    assert d.collaterals[..0] == [] && d.borrows[..0] == [];
    assert CollateralValue(d.collaterals, 1_000_000, GAD_VALUED) == 1000;
    assert DebtValue(d.borrows, GAD_COUNTED) == 4294968046;
    GadRateWraps();
  }

  /** The writes take the slice plus the reward from the SOL entry (down to zero) and leave every
      other collateral asset as it was. */
  lemma ApplyTakesSol(d: PositionData, p: CrankPlan, now: I64, a: AssetType)
    requires d.Valid() && p.solIndex == CollateralIndex(d.collaterals, SOL)
    ensures Held(ApplyCrank(d, p, now).collaterals, SOL) == SatSub(Held(d.collaterals, SOL), p.solToLiquidate + p.crankerReward)
    ensures a != SOL ==> Held(ApplyCrank(d, p, now).collaterals, a) == Held(d.collaterals, a)
  {
    var sol := d.collaterals[p.solIndex];
    assert sol.assetType == SOL && DistinctCollaterals(d.collaterals);
    var amount := SatSub(sol.amount, p.solToLiquidate + p.crankerReward);
    assert ApplyCrank(d, p, now).collaterals
           == Retain(d.collaterals[p.solIndex := CollateralDeposit(SOL, amount)], NonEmptyCollateral);
    assert Held(d.collaterals, SOL) == sol.amount;
    SetSolHeld(d.collaterals, p.solIndex, amount, a);
  }

  /** A successful crank takes exactly the slice plus the reward from the SOL held (down to zero)
      and leaves every other collateral asset untouched. */
  lemma CrankTakesSol(d: PositionData, solPrice: U64, now: I64, transferOk: bool, a: AssetType)
    requires d.Valid() && CrankGad(d, solPrice, now, transferOk).Ok?
    ensures var c := CrankGad(d, solPrice, now, transferOk).value;
            Held(c.position.collaterals, SOL) == SatSub(Held(d.collaterals, SOL), c.plan.solToLiquidate + c.plan.crankerReward)
    ensures a != SOL ==> Held(CrankGad(d, solPrice, now, transferOk).value.position.collaterals, a) == Held(d.collaterals, a)
  {
    ApplyTakesSol(d, CrankGad(d, solPrice, now, transferOk).value.plan, now, a);
  }

  /** The writes pay the debt down by what the waterfall places of the debt reduction. */
  lemma ApplyPaysDebt(d: PositionData, p: CrankPlan, now: I64)
    requires p.solIndex < |d.collaterals|
    ensures DebtValue(ApplyCrank(d, p, now).borrows, AllAssets) + Min(p.debtReduction, Payable(d.borrows, true))
            == DebtValue(d.borrows, AllAssets)
  {
    var w := Waterfall(d.borrows, p.debtReduction, true);
    assert ApplyCrank(d, p, now).borrows == Retain(w.entries, OutstandingBorrow);
    WaterfallConserves(d.borrows, p.debtReduction, true);
    WaterfallLeftover(d.borrows, p.debtReduction, true);
    assert p.debtReduction - w.left == Min(p.debtReduction, Payable(d.borrows, true));
    TotalOwedIsDebt(d.borrows);
    TotalOwedIsDebt(w.entries);
    PruneKeepsDebt(w.entries, AllAssets);
  }

  /** A successful crank pays the debt down, over every borrowed asset, by exactly the part of the
      slice's value that the waterfall could place (entries whose principal plus interest overflows
      are skipped). That part is the whole debt reduction: the reduction is at most the stablecoin
      debt, which fits in a `u64`, so no stablecoin entry is skipped. */
  lemma CrankPaysDebt(d: PositionData, solPrice: U64, now: I64, transferOk: bool)
    requires CrankGad(d, solPrice, now, transferOk).Ok?
    ensures var c := CrankGad(d, solPrice, now, transferOk).value;
            DebtValue(c.position.borrows, AllAssets) + Min(c.plan.debtReduction, Payable(d.borrows, true))
            == DebtValue(d.borrows, AllAssets)
    ensures CrankGad(d, solPrice, now, transferOk).value.plan.debtReduction <= DebtValue(d.borrows, GAD_COUNTED)
    ensures var c := CrankGad(d, solPrice, now, transferOk).value;
            DebtValue(c.position.borrows, AllAssets) + c.plan.debtReduction == DebtValue(d.borrows, AllAssets)
  {
    ApplyPaysDebt(d, CrankGad(d, solPrice, now, transferOk).value.plan, now);
    PayableCovers(d.borrows, GAD_COUNTED);
  }

  /** The writes keep the position within its bounds, with one entry per asset. */
  lemma ApplyKeepsValid(d: PositionData, p: CrankPlan, now: I64)
    requires d.Valid() && p.solIndex < |d.collaterals|
    ensures ApplyCrank(d, p, now).Valid()
  {
    var i := p.solIndex;
    var sol := d.collaterals[i];
    var cs := d.collaterals[i := CollateralDeposit(sol.assetType, SatSub(sol.amount, p.solToLiquidate + p.crankerReward))];
    UpdateKeepsDistinct(d.collaterals, i, cs[i]);
    RetainKeepsDistinctCollaterals(cs, NonEmptyCollateral);
    var w := Waterfall(d.borrows, p.debtReduction, true).entries;
    forall j, k | 0 <= j < k < |w| ensures w[j].assetType != w[k].assetType {
      WaterfallReduces(d.borrows, p.debtReduction, true, j);
      WaterfallReduces(d.borrows, p.debtReduction, true, k);
    }
    RetainKeepsDistinctBorrows(w, OutstandingBorrow);
  }

  /** A crank keeps the position within its bounds, with one entry per asset. */
  lemma CrankKeepsValid(d: PositionData, solPrice: U64, now: I64, transferOk: bool)
    requires d.Valid() && CrankGad(d, solPrice, now, transferOk).Ok?
    ensures CrankGad(d, solPrice, now, transferOk).value.position.Valid()
  {
    ApplyKeepsValid(d, CrankGad(d, solPrice, now, transferOk).value.plan, now);
  }

  // ---------------------------------------------------------------- the handlers

  /** The first checks of `crank_gad` with the summing loops. */
  method ReadPositionSteps(d: PositionData, solPrice: U64, now: I64) returns (r: Result<Reading>)
    ensures r == ReadPosition(d, solPrice, now)
  {
    if !d.gadEnabled {
      return Err(GadDisabled);
    }
    if |d.borrows| == 0 {
      return Err(NoDebtToDeleverage);
    }
    var elapsed := SatSubI64(now, d.lastGadCrank);
    if elapsed < MIN_GAD_CRANK_INTERVAL {
      return Err(CrankTooSoon);
    }
    var collateralUsd := SumCollateralValue(d.collaterals, solPrice, GAD_VALUED);
    if collateralUsd.Err? {
      return Err(collateralUsd.error);
    }
    if collateralUsd.value == 0 {
      return Err(InsufficientCollateral);
    }
    var borrowUsd := SumDebtValue(d.borrows, GAD_COUNTED);
    if borrowUsd.Err? {
      return Err(borrowUsd.error);
    }
    if borrowUsd.value * BPS_DENOMINATOR > U64_MAX {
      return Err(MathOverflow);
    }
    var ltv := LtvOf(borrowUsd.value, collateralUsd.value);
    if ltv <= DEFAULT_SOL_MAX_LTV_BPS {
      return Err(LtvBelowGadThreshold);
    }
    var rate := GadRateAsWritten(ltv, DEFAULT_SOL_MAX_LTV_BPS);
    if rate == 0 {
      return Err(NothingToLiquidate);
    }
    r := Ok(Reading(elapsed, borrowUsd.value, ltv, rate));
  }

  /** The checks and sizing of `crank_gad`, with the loop that finds the SOL entry. */
  method PlanCrankSteps(d: PositionData, solPrice: U64, now: I64) returns (r: Result<CrankPlan>)
    ensures r == PlanCrank(d, solPrice, now)
  {
    var reading := ReadPositionSteps(d, solPrice, now);
    if reading.Err? {
      return Err(reading.error);
    }
    var rd := reading.value;
    var timeFraction := MulDiv(rd.elapsed, BPS_DENOMINATOR, SECONDS_PER_DAY);
    var fraction := MulDiv(rd.rateBps, timeFraction, BPS_DENOMINATOR);
    var i := FindCollateral(d.collaterals, SOL);
    if i < 0 {
      return Err(InsufficientCollateral);
    }
    var toLiquidate := MulDiv(d.collaterals[i].amount, fraction, BPS_DENOMINATOR);
    if toLiquidate == 0 {
      return Err(NothingToLiquidate);
    }
    var liquidatedUsd := MulDiv(toLiquidate, solPrice, LAMPORTS_PER_SOL);
    var debtReduction := Min(liquidatedUsd, rd.borrowUsd);
    if toLiquidate * CRANKER_REWARD_BPS > U64_MAX {
      return Err(MathOverflow);
    }
    var reward := toLiquidate * CRANKER_REWARD_BPS / BPS_DENOMINATOR;
    if toLiquidate + reward > U64_MAX {
      return Err(MathOverflow);
    }
    r := Ok(CrankPlan(i, toLiquidate, reward, liquidatedUsd, debtReduction));
  }

  /** The writes of `crank_gad`, with the debt loop and the two `retain` loops. */
  method ApplyCrankSteps(d: PositionData, p: CrankPlan, now: I64) returns (r: PositionData)
    requires p.solIndex < |d.collaterals|
    ensures r == ApplyCrank(d, p, now)
  {
    var sol := d.collaterals[p.solIndex];
    var cs := d.collaterals[p.solIndex := CollateralDeposit(sol.assetType, SatSub(sol.amount, p.solToLiquidate + p.crankerReward))];
    var bs, _ := PayDown(d.borrows, p.debtReduction, true);
    cs := RetainLoop(cs, NonEmptyCollateral);
    bs := RetainLoop(bs, OutstandingBorrow);
    r := d.(collaterals := cs, borrows := bs, lastGadCrank := now,
            totalGadLiquidatedUsd := SatAddU64(d.totalGadLiquidatedUsd, p.liquidatedUsd),
            reputation := d.reputation.(gadEvents := SatAddU32(d.reputation.gadEvents, 1)),
            lastUpdate := now);
  }

  /** `crank_gad` on a position account: on success the position is the crank's new state, and the
      treasury and the cranker receive the slice and the reward; on failure nothing changes. */
  method CrankGadOn(position: Position, solPrice: U64, now: I64, transferOk: bool)
    returns (o: Outcome, toTreasury: U64, toCranker: U64)
    modifies position
    ensures o == OutcomeOf(CrankGad(old(position.Data()), solPrice, now, transferOk))
    ensures o.Success? ==> position.Data() == CrankGad(old(position.Data()), solPrice, now, transferOk).value.position
                           && toTreasury == CrankGad(old(position.Data()), solPrice, now, transferOk).value.plan.solToLiquidate
                           && toCranker == CrankGad(old(position.Data()), solPrice, now, transferOk).value.plan.crankerReward
    ensures o.Failure? ==> position.Data() == old(position.Data())
  {
    var d := position.Data();
    var plan := PlanCrankSteps(d, solPrice, now);
    if plan.Err? {
      return Failure(plan.error), 0, 0;
    }
    if !transferOk {
      return Failure(TransferFailed), 0, 0;
    }
    var p := plan.value;
    var r := ApplyCrankSteps(d, p, now);
    position.Store(r);
    o, toTreasury, toCranker := Success, p.solToLiquidate, p.crankerReward;
  }

  /** `configure_gad` of this program: only the switch is stored; the custom threshold is accepted
      and ignored. */
  method ConfigureGad(position: Position, enabled: bool, customThresholdBps: Option<U16>)
    modifies position
    ensures position.Data() == old(position.Data()).(gadEnabled := enabled)
  {
    position.gadEnabled := enabled;
  }
}
