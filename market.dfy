/** Per-market risk parameters (`legasi-core/src/market.rs`): the eMode loan-to-value boost, the
    market's own two-slope interest curve (all `u16`/`u32` arithmetic), supply and borrow caps, and
    the three preset markets. */
module Market {
  import opened Num

  /** Efficiency-mode categories of correlated assets. */
  datatype EModeCategory = NoEMode | Stablecoins | EthCorrelated | SolCorrelated | BtcCorrelated

  /** The fields of a market account that its methods read. */
  datatype Market = Market(
    baseMaxLtvBps: U16,
    emodeMaxLtvBps: U16,
    baseInterestRateBps: U16,
    slope1Bps: U16,
    slope2Bps: U16,
    optimalUtilizationBps: U16,
    emodeCategory: EModeCategory,
    supplyCap: U64,
    borrowCap: U64,
    borrowEnabled: bool,
    totalCollateral: U64,
    totalBorrowed: U64)

  /** `Market::get_effective_max_ltv`: the boosted limit applies only when the market has a category
      and the user has chosen that same one. */
  function EffectiveMaxLtv(m: Market, userEMode: EModeCategory): (ltv: U16)
    ensures ltv == m.emodeMaxLtvBps || ltv == m.baseMaxLtvBps
    ensures m.emodeMaxLtvBps != m.baseMaxLtvBps ==>
              (ltv == m.emodeMaxLtvBps <==> m.emodeCategory != NoEMode && m.emodeCategory == userEMode)
  {
    if m.emodeCategory != NoEMode && m.emodeCategory == userEMode then m.emodeMaxLtvBps
    else m.baseMaxLtvBps
  }

  /** A user without eMode always gets the base limit. */
  lemma NoEModeGetsBase(m: Market)
    ensures EffectiveMaxLtv(m, NoEMode) == m.baseMaxLtvBps
  {
  }

  /** Two `u16` values multiply without saturating a `u32`. */
  lemma U16ProductFits(a: U16, b: U16)
    ensures a * b <= U32_MAX
  {
    MulMonotone(a, U16_MAX, b);
    MulMonotone(b, U16_MAX, U16_MAX);
  }

  /** `u32::saturating_mul` followed by `checked_div(..).unwrap_or(0)` and a cast `as u16`: the
      increase term of both slopes. The product of two `u16` never saturates. */
  function SlopeIncrease(slope: U16, x: U16, span: U16): (inc: U16)
    ensures span == 0 ==> inc == 0
    ensures span > 0 && slope * x / span <= U16_MAX ==> inc == slope * x / span
  {
    if span == 0 then 0
    else
      var product := slope * x;
      U16ProductFits(slope, x);
      assert Min(product, U32_MAX) == product;
      DivNonNegative(product, span);
      WrapU16(product / span)
  }

  /** Within its span, the increase is at most the slope. */
  lemma SlopeIncreaseBounded(slope: U16, x: U16, span: U16)
    requires x <= span
    ensures SlopeIncrease(slope, x, span) <= slope
  {
    if span > 0 {
      MulMonotone(x, span, slope);
      DivBelow(slope * x, slope, span);
    }
  }

  /** Utilisation of a market with collateral: `borrowed * 10000 / collateral` cast `as u16`, which keeps
      the low 16 bits (the `u128` product cannot saturate). */
  function MarketUtilization(m: Market): (u: U16)
    requires m.totalCollateral > 0
    ensures m.totalBorrowed * 10000 / m.totalCollateral <= U16_MAX ==> u == m.totalBorrowed * 10000 / m.totalCollateral
  {
    WrapU16(m.totalBorrowed * 10000 / m.totalCollateral)
  }

  /** While the borrows are covered by the collateral, utilisation stays within 100 % and is exact. */
  lemma MarketUtilizationBounded(m: Market)
    requires 0 < m.totalCollateral && m.totalBorrowed <= m.totalCollateral
    ensures MarketUtilization(m) == m.totalBorrowed * 10000 / m.totalCollateral <= 10000
  {
    MulMonotone(m.totalBorrowed, m.totalCollateral, 10000);
    DivBelow(m.totalBorrowed * 10000, 10000, m.totalCollateral);
  }

  /** The market's rate at utilisation `u`: both branches of `calculate_interest_rate` after the
      utilisation is known. */
  function MarketRateAt(m: Market, u: U16): (rate: U16)
    ensures rate >= m.baseInterestRateBps
    ensures u <= m.optimalUtilizationBps ==> rate <= SatAddU16(m.baseInterestRateBps, m.slope1Bps)
    ensures u > m.optimalUtilizationBps ==> rate >= SatAddU16(m.baseInterestRateBps, m.slope1Bps)
  {
    if u <= m.optimalUtilizationBps then
      SlopeIncreaseBounded(m.slope1Bps, u, m.optimalUtilizationBps);
      SatAddU16(m.baseInterestRateBps, SlopeIncrease(m.slope1Bps, u, m.optimalUtilizationBps))
    else
      var excess := SatSub(u, m.optimalUtilizationBps);
      var span := SatSub(10000, m.optimalUtilizationBps);
      SatAddU16(SatAddU16(m.baseInterestRateBps, m.slope1Bps), SlopeIncrease(m.slope2Bps, excess, span))
  }

  /** `Market::calculate_interest_rate` */
  function MarketRate(m: Market): (rate: U16)
    ensures m.totalCollateral == 0 ==> rate == m.baseInterestRateBps
    ensures m.totalCollateral > 0 ==> rate == MarketRateAt(m, MarketUtilization(m))
    ensures rate >= m.baseInterestRateBps
  {
    if m.totalCollateral == 0 then m.baseInterestRateBps
    else MarketRateAt(m, MarketUtilization(m))
  }

  /** Below the kink, the market rate never falls as utilisation grows. */
  lemma SlopeIncreaseMonotone(slope: U16, x: U16, y: U16, span: U16)
    requires x <= y <= span
    ensures SlopeIncrease(slope, x, span) <= SlopeIncrease(slope, y, span)
  {
    if span > 0 {
      assert slope * x == x * slope && slope * y == y * slope;
      ScaledQuotientsOrdered(x, y, slope, span);
    }
  }

  /** Up to full utilisation, a higher utilisation never lowers the market's rate (the `u16` casts
      cannot wrap there). */
  lemma MarketRateAtMonotone(m: Market, u: U16, v: U16)
    requires u <= v <= 10000
    ensures MarketRateAt(m, u) <= MarketRateAt(m, v)
  {
    var opt := m.optimalUtilizationBps;
    if v <= opt {
      SlopeIncreaseMonotone(m.slope1Bps, u, v, opt);
    } else if u > opt {
      SlopeIncreaseMonotone(m.slope2Bps, u - opt, v - opt, 10000 - opt);
    }
  }

  /** While the borrows are covered by the collateral, more borrowing never lowers the rate. */
  lemma MarketRateMonotone(m: Market, borrowed: U64)
    requires m.totalBorrowed <= borrowed <= m.totalCollateral
    ensures MarketRate(m) <= MarketRate(m.(totalBorrowed := borrowed))
  {
    var m' := m.(totalBorrowed := borrowed);
    if m.totalCollateral > 0 {
      MulMonotone(m.totalBorrowed, borrowed, 10000);
      DivMonotone(m.totalBorrowed * 10000, borrowed * 10000, m.totalCollateral);
      MarketUtilizationBounded(m);
      MarketUtilizationBounded(m');
      MarketRateAtMonotone(m, MarketUtilization(m), MarketUtilization(m'));
      assert MarketRateAt(m, MarketUtilization(m')) == MarketRateAt(m', MarketUtilization(m'));
    }
  }

  /** The `as u16` cast of the utilisation wraps once borrows exceed 6.5536 times the collateral:
      borrows of seven times the collateral are priced as a utilisation of 44.64 %. */
  lemma MarketUtilizationWraps(m: Market)
    requires m.totalCollateral == 1 && m.totalBorrowed == 7
    ensures MarketUtilization(m) == 4464
    ensures MarketRate(m) == MarketRateAt(m, 4464)
  {
  }

  /** `Market::can_supply`: no cap, or the new total stays within it; the saturating sum makes a cap
      of `u64::MAX` as good as none. */
  function CanSupply(m: Market, amount: U64): (ok: bool)
    ensures ok <==> m.supplyCap == 0 || m.supplyCap == U64_MAX || m.totalCollateral + amount <= m.supplyCap
  {
    m.supplyCap == 0 || SatAddU64(m.totalCollateral, amount) <= m.supplyCap
  }

  /** `Market::can_borrow`: borrowing enabled, and no cap or the new total within it (a cap of
      `u64::MAX` again being no cap). */
  function CanBorrow(m: Market, amount: U64): (ok: bool)
    ensures ok <==> m.borrowEnabled
                    && (m.borrowCap == 0 || m.borrowCap == U64_MAX || m.totalBorrowed + amount <= m.borrowCap)
  {
    m.borrowEnabled && (m.borrowCap == 0 || SatAddU64(m.totalBorrowed, amount) <= m.borrowCap)
  }

  /** A smaller request fits wherever a larger one does. */
  lemma CapsDownwardClosed(m: Market, small: U64, large: U64)
    requires small <= large
    ensures CanSupply(m, large) ==> CanSupply(m, small)
    ensures CanBorrow(m, large) ==> CanBorrow(m, small)
  {
  }

  // ---------------------------------------------------------------- presets

  /** `MarketParams` without the display name. */
  datatype MarketParams = MarketParams(
    baseMaxLtvBps: U16,
    emodeMaxLtvBps: U16,
    gadSoftThresholdBps: U16,
    gadHardThresholdBps: U16,
    liquidationBonusBps: U16,
    baseInterestRateBps: U16,
    slope1Bps: U16,
    slope2Bps: U16,
    optimalUtilizationBps: U16,
    emodeCategory: EModeCategory,
    supplyCap: U64,
    borrowCap: U64,
    minBorrow: U64)

  /** What every preset promises: eMode never lowers the limit, the kink lies below full utilisation,
      the hard GAD threshold lies above the soft one. */
  predicate SaneParams(p: MarketParams) {
    p.emodeMaxLtvBps >= p.baseMaxLtvBps && 0 < p.optimalUtilizationBps < 10000
    && p.gadSoftThresholdBps <= p.gadHardThresholdBps && p.baseMaxLtvBps <= 10000 && p.emodeMaxLtvBps <= 10000
  }

  /** `MarketPreset::sol_usdc` */
  function SolUsdc(): (p: MarketParams)
    ensures SaneParams(p) && p.emodeCategory == NoEMode && p.baseMaxLtvBps == 7500
  {
    MarketParams(7500, 7500, 500, 1500, 500, 200, 400, 7500, 8000, NoEMode, 0, 0, 1_000_000)
  }

  /** `MarketPreset::usdc_usdt_emode` */
  function UsdcUsdtEMode(): (p: MarketParams)
    ensures SaneParams(p) && p.emodeCategory == Stablecoins && p.emodeMaxLtvBps > p.baseMaxLtvBps
  {
    MarketParams(9000, 9700, 100, 300, 100, 50, 100, 3000, 9500, Stablecoins, 0, 0, 1_000_000)
  }

  /** `MarketPreset::cbbtc_usdc` */
  function CbBtcUsdc(): (p: MarketParams)
    ensures SaneParams(p) && p.emodeCategory == BtcCorrelated && p.baseMaxLtvBps == 7500
  {
    MarketParams(7500, 7500, 500, 1500, 500, 200, 400, 7500, 8000, BtcCorrelated, 0, 0, 1_000_000)
  }

  /** A market built from sane parameters gives every user a limit at least the base one and at most
      100 %, whatever eMode they chose. */
  lemma SaneLimits(p: MarketParams, m: Market, userEMode: EModeCategory)
    requires SaneParams(p) && m.baseMaxLtvBps == p.baseMaxLtvBps && m.emodeMaxLtvBps == p.emodeMaxLtvBps
    ensures p.baseMaxLtvBps <= EffectiveMaxLtv(m, userEMode) <= 10000
  {
  }

  /** A user's eMode selection. */
  datatype UserEMode = UserEMode(category: EModeCategory, enteredAt: I64)

  /** `UserEMode::is_active`: any category but none; only an active user can get a boosted limit. */
  function IsActive(e: UserEMode): (active: bool)
    ensures active <==> e.category != NoEMode
  {
    e.category != NoEMode
  }

  /** Only a user whose eMode is active can receive a market's boosted limit. */
  lemma BoostNeedsActiveEMode(m: Market, e: UserEMode)
    requires m.emodeMaxLtvBps != m.baseMaxLtvBps && EffectiveMaxLtv(m, e.category) == m.emodeMaxLtvBps
    ensures IsActive(e)
  {
  }
}
