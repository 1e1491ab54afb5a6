/** Account records shared by the programs (`legasi-core/src/state.rs`): asset kinds, position
    entries, the reputation score and its loan-to-value bonus, the agent daily borrow window,
    and the protocol, asset-configuration, price-feed and LP-pool accounts. */
module State {
  import opened Num
  import opened Errors
  import Constants

  /** An account address; only its identity matters to the model. */
  type Pubkey = nat

  /** `AssetType`: SOL and cbBTC are collaterals, USDC and EURC borrowables. */
  datatype AssetType = SOL | CbBTC | USDC | EURC

  /** `CollateralDeposit` */
  datatype CollateralDeposit = CollateralDeposit(assetType: AssetType, amount: U64)

  /** `BorrowedAmount` */
  datatype BorrowedAmount = BorrowedAmount(assetType: AssetType, amount: U64, accruedInterest: U64)

  /** `Reputation` (its `Default` is all zero) */
  datatype Reputation = Reputation(successfulRepayments: U32, totalRepaidUsd: U64, gadEvents: U32, accountAgeDays: U32)

  const DefaultReputation := Reputation(0, 0, 0, 0)

  /** `Reputation::get_score`: repayments earn 50 points each up to 500, every 30 days of age 10 points
      up to 100, and each GAD event costs 100, never below 0. The two multiplications are unchecked
      `u32` arithmetic: when one overflows the program panics, which is `None` here. */
  function Score(rep: Reputation): (s: Option<U32>)
    ensures s.None? <==> rep.successfulRepayments * 50 > U32_MAX || rep.gadEvents * 100 > U32_MAX
    ensures s.Some? ==> s.value <= 600
    ensures s.Some? ==> s.value == Max(Min(rep.successfulRepayments * 50, 500)
                                       + Min(rep.accountAgeDays / 30 * 10, 100)
                                       - rep.gadEvents * 100, 0)
  {
    if rep.successfulRepayments * 50 > U32_MAX || rep.gadEvents * 100 > U32_MAX then None
    else
      var base := Min(rep.successfulRepayments * 50, 500);
      var ageBonus := Min(rep.accountAgeDays / 30 * 10, 100);
      Some(SatSub(SatAddU32(base, ageBonus), rep.gadEvents * 100))
  }

  /** More repayments never lower the score, more GAD events never raise it. */
  lemma ScoreMonotone(a: Reputation, b: Reputation)
    requires a.successfulRepayments <= b.successfulRepayments && a.accountAgeDays <= b.accountAgeDays
    requires b.gadEvents <= a.gadEvents
    requires Score(a).Some? && Score(b).Some?
    ensures Score(a).value <= Score(b).value
  {
    assert a.accountAgeDays / 30 <= b.accountAgeDays / 30;
  }

  /** The match of `get_ltv_bonus_bps` on a score. */
  function BonusForScore(s: U32): (b: U16)
    ensures b == 0 || b == 100 || b == 300 || b == 500
    ensures b == 500 <==> s >= 400
    ensures b == 300 <==> 200 <= s < 400
    ensures b == 100 <==> 100 <= s < 200
    ensures b == 0 <==> s < 100
  {
    if s >= 400 then 500 else if s >= 200 then 300 else if s >= 100 then 100 else 0
  }

  /** The bonus never falls as the score rises. */
  lemma BonusMonotone(s: U32, t: U32)
    requires s <= t
    ensures BonusForScore(s) <= BonusForScore(t)
  {
  }

  /** `Reputation::get_ltv_bonus_bps`: panics exactly when `get_score` does. */
  function LtvBonus(rep: Reputation): (b: Option<U16>)
    ensures b.Some? <==> Score(rep).Some?
    ensures b.Some? ==> b.value <= 500
    ensures b.Some? && rep.gadEvents == 0 && rep.successfulRepayments >= 8 ==> b.value == 500
    ensures b.Some? && rep.successfulRepayments == 0 && rep.accountAgeDays < 300 ==> b.value == 0
  {
    match Score(rep)
    case None => None
    case Some(s) => Some(BonusForScore(s))
  }

  /** The fields of `AgentConfig` that the daily borrow window reads and writes. */
  datatype BorrowWindow = BorrowWindow(dailyBorrowLimit: U64, dailyBorrowed: U64, periodStart: I64)
  {
    /** Whether a day has passed since the window opened; `now - period_start` is an unchecked `i64`
        subtraction, so a difference outside `i64` panics. */
    function NewDay(now: I64): (r: Result<bool>)
      ensures r.Err? <==> now - periodStart < I64_MIN || now - periodStart > I64_MAX
      ensures r.Ok? ==> (r.value <==> now - periodStart >= Constants.SECONDS_PER_DAY)
    {
      match CheckedSubI64(now, periodStart)
      case None => Err(ArithmeticPanic)
      case Some(d) => Ok(d >= Constants.SECONDS_PER_DAY)
    }

    /** `AgentConfig::can_borrow`: once a day has passed only the new amount is compared with the
        limit, otherwise the amount already borrowed in this window counts too (saturating). */
    function CanBorrow(amount: U64, now: I64): (r: Result<bool>)
      ensures r.Err? <==> NewDay(now).Err?
      ensures r == Ok(true) && NewDay(now) == Ok(true) ==> amount <= dailyBorrowLimit
      ensures r == Ok(true) && NewDay(now) == Ok(false) ==> Min(dailyBorrowed + amount, U64_MAX) <= dailyBorrowLimit
      ensures NewDay(now) == Ok(false) && dailyBorrowed + amount <= dailyBorrowLimit ==> r == Ok(true)
      ensures NewDay(now).Ok? && amount <= dailyBorrowLimit - dailyBorrowed ==> r == Ok(true)
    {
      var newDay :- NewDay(now);
      if newDay then Ok(amount <= dailyBorrowLimit)
      else Ok(SatAddU64(dailyBorrowed, amount) <= dailyBorrowLimit)
    }

    /** `AgentConfig::record_borrow`: a new day restarts the window at `now` with `amount`, otherwise
        `amount` is added (saturating). */
    function Recorded(amount: U64, now: I64): (r: Result<BorrowWindow>)
      ensures r.Err? <==> NewDay(now).Err?
      ensures r.Ok? ==> r.value.dailyBorrowLimit == dailyBorrowLimit
      ensures NewDay(now) == Ok(true) ==> r == Ok(BorrowWindow(dailyBorrowLimit, amount, now))
      ensures NewDay(now) == Ok(false) ==>
                r.Ok? && r.value.periodStart == periodStart && r.value.dailyBorrowed == Min(dailyBorrowed + amount, U64_MAX)
    {
      var newDay :- NewDay(now);
      if newDay then Ok(BorrowWindow(dailyBorrowLimit, amount, now))
      else Ok(BorrowWindow(dailyBorrowLimit, SatAddU64(dailyBorrowed, amount), periodStart))
    }
  }

  /** A borrow the window admits keeps the window within its limit once recorded. */
  lemma RecordWithinLimit(w: BorrowWindow, amount: U64, now: I64)
    requires w.CanBorrow(amount, now) == Ok(true)
    ensures w.Recorded(amount, now).Ok?
    ensures w.Recorded(amount, now).value.dailyBorrowed <= w.dailyBorrowLimit
  {
  }

  /** `AgentConfig` */
  class AgentConfig {
    var position: Pubkey
    var operator: Pubkey
    var dailyBorrowLimit: U64
    var dailyBorrowed: U64
    var periodStart: I64
    var autoRepayEnabled: bool
    var x402Enabled: bool
    var alertsEnabled: bool
    var alertThresholdBps: U16

    /** `configure_agent`: a fresh window opened at `now`, alerts switched on. */
    constructor (position: Pubkey, operator: Pubkey, dailyBorrowLimit: U64, autoRepayEnabled: bool,
                 x402Enabled: bool, alertThresholdBps: U16, now: I64)
      ensures this.position == position && this.operator == operator
      ensures Window() == BorrowWindow(dailyBorrowLimit, 0, now)
      ensures this.autoRepayEnabled == autoRepayEnabled && this.x402Enabled == x402Enabled
      ensures alertsEnabled && this.alertThresholdBps == alertThresholdBps
    {
      this.position := position;
      this.operator := operator;
      this.dailyBorrowLimit := dailyBorrowLimit;
      dailyBorrowed := 0;
      periodStart := now;
      this.autoRepayEnabled := autoRepayEnabled;
      this.x402Enabled := x402Enabled;
      alertsEnabled := true;
      this.alertThresholdBps := alertThresholdBps;
    }

    /** `update_agent_config`: replaces the limit and the switches, keeps the current window. */
    method Update(dailyBorrowLimit: U64, autoRepayEnabled: bool, x402Enabled: bool, alertThresholdBps: U16)
      modifies this
      ensures Window() == BorrowWindow(dailyBorrowLimit, old(dailyBorrowed), old(periodStart))
      ensures this.autoRepayEnabled == autoRepayEnabled && this.x402Enabled == x402Enabled
      ensures this.alertThresholdBps == alertThresholdBps
      ensures position == old(position) && operator == old(operator) && alertsEnabled == old(alertsEnabled)
    {
      this.dailyBorrowLimit := dailyBorrowLimit;
      this.autoRepayEnabled := autoRepayEnabled;
      this.x402Enabled := x402Enabled;
      this.alertThresholdBps := alertThresholdBps;
    }

    function Window(): BorrowWindow
      reads this
    {
      BorrowWindow(dailyBorrowLimit, dailyBorrowed, periodStart)
    }

    /** `AgentConfig::record_borrow` */
    method RecordBorrow(amount: U64, now: I64) returns (o: Outcome)
      modifies this
      ensures o == OutcomeOf(old(Window()).Recorded(amount, now))
      ensures o.Success? ==> Window() == old(Window()).Recorded(amount, now).value
      ensures o.Failure? ==> Window() == old(Window())
      ensures position == old(position) && operator == old(operator)
      ensures autoRepayEnabled == old(autoRepayEnabled) && x402Enabled == old(x402Enabled)
      ensures alertsEnabled == old(alertsEnabled) && alertThresholdBps == old(alertThresholdBps)
    {
      var newDay := Window().NewDay(now);
      if newDay.Err? {
        return Failure(newDay.error);
      }
      if newDay.value {
        periodStart := now;
        dailyBorrowed := amount;
      } else {
        dailyBorrowed := SatAddU64(dailyBorrowed, amount);
      }
      o := Success;
    }
  }

  /** `Protocol` of the core program */
  class Protocol {
    var admin: Pubkey
    var treasury: Pubkey
    var insuranceFund: U64
    var totalCollateralUsd: U64
    var totalBorrowedUsd: U64
    var paused: bool

    constructor (admin: Pubkey, treasury: Pubkey)
      ensures this.admin == admin && this.treasury == treasury
      ensures insuranceFund == 0 && totalCollateralUsd == 0 && totalBorrowedUsd == 0 && !paused
    {
      this.admin := admin;
      this.treasury := treasury;
      insuranceFund := 0;
      totalCollateralUsd := 0;
      totalBorrowedUsd := 0;
      paused := false;
    }
  }

  /** `Collateral`: configuration of a collateral asset */
  class CollateralConfig {
    var mint: Pubkey
    var oracle: Pubkey
    var maxLtvBps: U16
    var liquidationThresholdBps: U16
    var liquidationBonusBps: U16
    var decimals: U8
    var isActive: bool
    var totalDeposited: U64
    var assetType: AssetType

    constructor (mint: Pubkey, oracle: Pubkey, maxLtvBps: U16, liquidationThresholdBps: U16,
                 liquidationBonusBps: U16, decimals: U8, assetType: AssetType)
      ensures this.mint == mint && this.oracle == oracle && this.maxLtvBps == maxLtvBps
      ensures this.liquidationThresholdBps == liquidationThresholdBps && this.liquidationBonusBps == liquidationBonusBps
      ensures this.decimals == decimals && this.assetType == assetType
      ensures isActive && totalDeposited == 0
    {
      this.mint := mint;
      this.oracle := oracle;
      this.maxLtvBps := maxLtvBps;
      this.liquidationThresholdBps := liquidationThresholdBps;
      this.liquidationBonusBps := liquidationBonusBps;
      this.decimals := decimals;
      isActive := true;
      totalDeposited := 0;
      this.assetType := assetType;
    }
  }

  /** `Borrowable`: configuration of a borrowable asset */
  class BorrowableConfig {
    var mint: Pubkey
    var oracle: Pubkey
    var interestRateBps: U16
    var decimals: U8
    var isActive: bool
    var totalBorrowed: U64
    var totalAvailable: U64
    var assetType: AssetType

    constructor (mint: Pubkey, oracle: Pubkey, interestRateBps: U16, decimals: U8, assetType: AssetType)
      ensures this.mint == mint && this.oracle == oracle && this.interestRateBps == interestRateBps
      ensures this.decimals == decimals && this.assetType == assetType
      ensures isActive && totalBorrowed == 0 && totalAvailable == 0
    {
      this.mint := mint;
      this.oracle := oracle;
      this.interestRateBps := interestRateBps;
      this.decimals := decimals;
      isActive := true;
      totalBorrowed := 0;
      totalAvailable := 0;
      this.assetType := assetType;
    }
  }

  /** `PriceFeed`: a USD price with 6 decimals */
  class PriceFeed {
    var assetType: AssetType
    var priceUsd6dec: U64
    var lastUpdate: I64
    var confidence: U64

    constructor (assetType: AssetType, price: U64, now: I64)
      ensures this.assetType == assetType && priceUsd6dec == price && lastUpdate == now && confidence == 0
    {
      this.assetType := assetType;
      priceUsd6dec := price;
      lastUpdate := now;
      confidence := 0;
    }
  }

  /** A snapshot of an `LpPool` account. */
  datatype PoolData = PoolData(
    borrowableMint: Pubkey,
    lpTokenMint: Pubkey,
    totalDeposits: U64,
    totalShares: U64,
    totalBorrowed: U64,
    interestEarned: U64)

  /** `LpPool`: the lenders' pool of one borrowable asset */
  class LpPool {
    var borrowableMint: Pubkey
    var lpTokenMint: Pubkey
    var totalDeposits: U64
    var totalShares: U64
    var totalBorrowed: U64
    var interestEarned: U64

    function Data(): PoolData
      reads this
    {
      PoolData(borrowableMint, lpTokenMint, totalDeposits, totalShares, totalBorrowed, interestEarned)
    }

    /** `initialize_pool`: an empty pool whose LP mint is not set yet (`Pubkey::default()`). */
    constructor (borrowableMint: Pubkey)
      ensures this.borrowableMint == borrowableMint && lpTokenMint == 0
      ensures totalDeposits == 0 && totalShares == 0 && totalBorrowed == 0 && interestEarned == 0
    {
      this.borrowableMint := borrowableMint;
      lpTokenMint := 0;
      totalDeposits := 0;
      totalShares := 0;
      totalBorrowed := 0;
      interestEarned := 0;
    }
  }
}
