/** The liquidity-pool program (`legasi-lp/src/lib.rs`).

    Lenders deposit a stablecoin and receive LP shares; a share is a claim on
    `total_deposits / total_shares` of the pool. Minting and redeeming truncate, which always
    favours the pool. Interest credited to the pool raises `total_deposits` and mints no share,
    after 5 % of it has gone to the protocol's insurance fund.

    Each instruction is a function on a snapshot of the pool and a method on the pool account;
    on an error nothing changes. */
module Lp {
  import opened Num
  import opened Errors
  import opened Constants
  import opened State

  /** If `d2 / s2` is at least `d1 / s1`, the truncated prices `d * k / s` keep that order. */
  lemma {:induction false} PriceFloorMonotone(d1: nat, s1: nat, d2: nat, s2: nat, k: nat)
    requires s1 > 0 && s2 > 0 && d2 * s1 >= d1 * s2
    ensures d1 * k / s1 <= d2 * k / s2
  {
    var q := d1 * k / s1;
    FloorBounds(d1 * k, s1);
    MulMonotone(q * s1, d1 * k, s2);
    MulMonotone(d1 * s2, d2 * s1, k);
    assert q * s2 * s1 == q * s1 * s2;
    assert d1 * k * s2 == d1 * s2 * k;
    assert d2 * s1 * k == d2 * k * s1;
    MulCancel(q * s2, d2 * k, s1);
    QuotientAtLeast(q, d2 * k, s2);
  }

  // ---------------------------------------------------------------- deposit

  /** The shares `deposit` mints for `amount`: as many as `amount` in a pool without shares,
      otherwise `amount * total_shares / total_deposits` truncated and cast `as u64`. A pool with
      shares but no deposits divides by zero, which the program reports as `MathOverflow`. */
  function SharesFor(p: PoolData, amount: U64): (r: Result<U64>)
    ensures p.totalShares == 0 ==> r == Ok(amount)
    ensures r.Err? <==> p.totalShares > 0 && p.totalDeposits == 0
    ensures r.Err? ==> r.error == MathOverflow
  {
    if p.totalShares == 0 then Ok(amount)
    else if p.totalDeposits == 0 then Err(MathOverflow)
    else
      var product := amount * p.totalShares;
      DivNonNegative(product, p.totalDeposits);
      Ok(WrapU64(product / p.totalDeposits))
  }

  /** In a pool with shares and deposits the minted shares never exceed the exact proportional
      share, and are that share truncated wherever it fits a `u64`. */
  lemma SharesForBounds(p: PoolData, amount: U64)
    requires p.totalShares > 0 && p.totalDeposits > 0
    ensures SharesFor(p, amount).Ok?
    ensures SharesFor(p, amount).value * p.totalDeposits <= amount * p.totalShares
    ensures amount * p.totalShares / p.totalDeposits <= U64_MAX
            ==> amount * p.totalShares < (SharesFor(p, amount).value + 1) * p.totalDeposits
  {
    var q := amount * p.totalShares / p.totalDeposits;
    FloorBounds(amount * p.totalShares, p.totalDeposits);
    MulMonotone(WrapU64(q), q, p.totalDeposits);
  }

  /** A successful deposit: the pool afterwards and the shares minted. */
  datatype Minted = Minted(pool: PoolData, shares: U64)

  /** `deposit`: a positive amount, a positive number of shares, the token transfer and the mint,
      then both totals grow with `checked_add`. */
  function Deposit(p: PoolData, amount: U64, transferOk: bool): (r: Result<Minted>)
    ensures amount == 0 ==> r == Err(InvalidAmount)
    ensures amount > 0 && SharesFor(p, amount).Err? ==> r == Err(MathOverflow)
    ensures amount > 0 && SharesFor(p, amount) == Ok(0) ==> r == Err(InvalidAmount)
    ensures amount > 0 && SharesFor(p, amount).Ok? && SharesFor(p, amount).value > 0 && !transferOk
            ==> r == Err(TransferFailed)
    ensures amount > 0 && transferOk && SharesFor(p, amount).Ok? && SharesFor(p, amount).value > 0
            ==> (r.Ok? <==> p.totalDeposits + amount <= U64_MAX && p.totalShares + SharesFor(p, amount).value <= U64_MAX)
    ensures r.Ok? ==> SharesFor(p, amount) == Ok(r.value.shares) && r.value.shares > 0
    ensures r.Ok? ==> r.value.pool == p.(totalDeposits := p.totalDeposits + amount,
                                         totalShares := p.totalShares + r.value.shares)
  {
    if amount == 0 then Err(InvalidAmount)
    else
      var shares :- SharesFor(p, amount);
      if shares == 0 then Err(InvalidAmount)
      else if !transferOk then Err(TransferFailed)
      else if p.totalDeposits + amount > U64_MAX || p.totalShares + shares > U64_MAX then Err(MathOverflow)
      else Ok(Minted(p.(totalDeposits := p.totalDeposits + amount, totalShares := p.totalShares + shares), shares))
  }

  /** A deposit into a pool with shares does not lower the share price: truncation keeps the
      difference in the pool. */
  lemma DepositKeepsSharePrice(p: PoolData, amount: U64, transferOk: bool)
    requires p.totalShares > 0 && Deposit(p, amount, transferOk).Ok?
    ensures var q := Deposit(p, amount, transferOk).value.pool;
            q.totalDeposits * p.totalShares >= p.totalDeposits * q.totalShares
  {
    var m := Deposit(p, amount, transferOk).value.shares;
    SharesForBounds(p, amount);
    assert m * p.totalDeposits <= amount * p.totalShares;
    assert (p.totalDeposits + amount) * p.totalShares == p.totalDeposits * p.totalShares + amount * p.totalShares;
    assert p.totalDeposits * (p.totalShares + m) == p.totalDeposits * p.totalShares + m * p.totalDeposits;
  }

  // ---------------------------------------------------------------- withdraw

  /** The tokens `withdraw` returns for `shares`: `shares * total_deposits / total_shares`
      truncated and cast `as u64`. */
  function TokensFor(p: PoolData, shares: U64): (t: U64)
    requires p.totalShares > 0
    ensures t * p.totalShares <= shares * p.totalDeposits
    ensures shares * p.totalDeposits / p.totalShares <= U64_MAX ==> shares * p.totalDeposits < (t + 1) * p.totalShares
    ensures shares <= p.totalShares ==> t <= p.totalDeposits
  {
    var q := shares * p.totalDeposits / p.totalShares;
    FloorBounds(shares * p.totalDeposits, p.totalShares);
    MulMonotone(WrapU64(q), q, p.totalShares);
    assert shares <= p.totalShares ==> q <= p.totalDeposits by {
      if shares <= p.totalShares {
        MulMonotone(shares, p.totalShares, p.totalDeposits);
        DivBelow(shares * p.totalDeposits, p.totalDeposits, p.totalShares);
      }
    }
    WrapU64(q)
  }

  /** A successful withdrawal: the pool afterwards and the tokens returned. */
  datatype Redemption = Redemption(pool: PoolData, tokens: U64)

  /** `withdraw`: a positive number of shares from a pool that has shares, a positive return the
      vault can pay, the burn and the transfer, then both totals fall with `saturating_sub`. */
  function Withdraw(p: PoolData, shares: U64, vaultBalance: U64, transferOk: bool): (r: Result<Redemption>)
    ensures shares == 0 ==> r == Err(InvalidAmount)
    ensures shares > 0 && p.totalShares == 0 ==> r == Err(NoLpShares)
    ensures shares > 0 && p.totalShares > 0 && TokensFor(p, shares) == 0 ==> r == Err(InvalidAmount)
    ensures shares > 0 && p.totalShares > 0 && 0 < TokensFor(p, shares) && vaultBalance < TokensFor(p, shares)
            ==> r == Err(InsufficientLiquidity)
    ensures shares > 0 && p.totalShares > 0 && 0 < TokensFor(p, shares) <= vaultBalance
            ==> (r.Ok? <==> transferOk)
    ensures r.Ok? ==> p.totalShares > 0 && r.value.tokens == TokensFor(p, shares)
                      && 0 < r.value.tokens <= vaultBalance
    ensures r.Ok? ==> r.value.pool == p.(totalDeposits := SatSub(p.totalDeposits, r.value.tokens),
                                         totalShares := SatSub(p.totalShares, shares))
  {
    if shares == 0 then Err(InvalidAmount)
    else if p.totalShares == 0 then Err(NoLpShares)
    else
      var tokens := TokensFor(p, shares);
      if tokens == 0 then Err(InvalidAmount)
      else if vaultBalance < tokens then Err(InsufficientLiquidity)
      else if !transferOk then Err(TransferFailed)
      else Ok(Redemption(p.(totalDeposits := SatSub(p.totalDeposits, tokens),
                            totalShares := SatSub(p.totalShares, shares)), tokens))
  }

  /** Redeeming at most the shares in existence does not lower the share price either. */
  lemma WithdrawKeepsSharePrice(p: PoolData, shares: U64, vaultBalance: U64, transferOk: bool)
    requires Withdraw(p, shares, vaultBalance, transferOk).Ok? && shares <= p.totalShares
    ensures var q := Withdraw(p, shares, vaultBalance, transferOk).value.pool;
            q.totalDeposits * p.totalShares >= p.totalDeposits * q.totalShares
  {
    var t := TokensFor(p, shares);
    assert t * p.totalShares <= shares * p.totalDeposits;
    assert (p.totalDeposits - t) * p.totalShares == p.totalDeposits * p.totalShares - t * p.totalShares;
    assert p.totalDeposits * (p.totalShares - shares) == p.totalDeposits * p.totalShares - shares * p.totalDeposits;
  }

  /** Depositing and at once redeeming the shares minted returns at most what was deposited
      (unless the pool had deposits and no shares, which the first depositor then claims). */
  lemma {:induction false} DepositWithdrawNoGain(p: PoolData, amount: U64, vaultBalance: U64)
    requires p.totalShares > 0 || p.totalDeposits == 0
    requires Deposit(p, amount, true).Ok?
    requires Withdraw(Deposit(p, amount, true).value.pool, Deposit(p, amount, true).value.shares, vaultBalance, true).Ok?
    ensures Withdraw(Deposit(p, amount, true).value.pool, Deposit(p, amount, true).value.shares, vaultBalance, true)
              .value.tokens <= amount
  {
    var m := Deposit(p, amount, true).value;
    var s, d, n := m.shares, p.totalDeposits, p.totalShares;
    assert m.pool.totalDeposits == d + amount && m.pool.totalShares == n + s;
    var t := TokensFor(m.pool, s);
    assert t * (n + s) <= s * (d + amount);
    if n > 0 {
      SharesForBounds(p, amount);
    }
    NoGainBound(t, s, d, n, amount);
  }

  /** Redeeming `s` of `n + s` shares of `d + amount` tokens, where `s` is at most the proportional
      share of `amount` in a pool of `d` tokens and `n` shares, returns at most `amount`. */
  lemma NoGainBound(t: nat, s: nat, d: nat, n: nat, amount: nat)
    requires n + s > 0
    requires t * (n + s) <= s * (d + amount)
    requires s * d <= amount * n
    ensures t <= amount
  {
    assert s * (d + amount) == s * d + s * amount;
    assert amount * (n + s) == amount * n + amount * s;
    MulCancel(t, amount, n + s);
  }

  // ---------------------------------------------------------------- interest

  /** The insurance fund's part of an interest or fee amount, `x * 500 / 10000` with a checked
      multiplication, and what is left for the lenders. */
  datatype Split = Split(lenders: U64, insurance: U64)

  function InsuranceSplit(x: U64): (r: Result<Split>)
    ensures r.Err? <==> x * INSURANCE_FEE_BPS > U64_MAX
    ensures r.Err? ==> r.error == MathOverflow
    ensures r.Ok? ==> r.value.lenders + r.value.insurance == x
    ensures r.Ok? ==> r.value.insurance * BPS_DENOMINATOR <= x * INSURANCE_FEE_BPS
                      < (r.value.insurance + 1) * BPS_DENOMINATOR
  {
    if x * INSURANCE_FEE_BPS > U64_MAX then Err(MathOverflow)
    else
      var insurance := x * INSURANCE_FEE_BPS / BPS_DENOMINATOR;
      FloorBounds(x * INSURANCE_FEE_BPS, BPS_DENOMINATOR);
      Ok(Split(SatSub(x, insurance), insurance))
  }

  /** A successful accrual: the pool afterwards and the protocol's insurance fund. */
  datatype Accrual = Accrual(pool: PoolData, insuranceFund: U64)

  /** `accrue_interest`: a positive amount split between the lenders and the insurance fund; the
      lenders' part raises `total_deposits` and `interest_earned`, the rest the insurance fund,
      each with `checked_add`. No share is minted. */
  function AccrueInterest(p: PoolData, insuranceFund: U64, interest: U64): (r: Result<Accrual>)
    ensures interest == 0 ==> r == Err(InvalidAmount)
    ensures interest > 0 && interest * INSURANCE_FEE_BPS > U64_MAX ==> r == Err(MathOverflow)
    ensures r.Err? ==> r.error == InvalidAmount || r.error == MathOverflow
    ensures r.Ok? ==> InsuranceSplit(interest).Ok?
                      && var split := InsuranceSplit(interest).value;
                      && r.value.pool.totalDeposits == p.totalDeposits + split.lenders
                      && r.value.pool.interestEarned == p.interestEarned + split.lenders
                      && r.value.insuranceFund == insuranceFund + split.insurance
    ensures r.Ok? ==> r.value.pool == p.(totalDeposits := r.value.pool.totalDeposits,
                                         interestEarned := r.value.pool.interestEarned)
  {
    if interest == 0 then Err(InvalidAmount)
    else
      var split :- InsuranceSplit(interest);
      if p.totalDeposits + split.lenders > U64_MAX || p.interestEarned + split.lenders > U64_MAX
         || insuranceFund + split.insurance > U64_MAX
      then Err(MathOverflow)
      else Ok(Accrual(p.(totalDeposits := p.totalDeposits + split.lenders,
                         interestEarned := p.interestEarned + split.lenders),
                      insuranceFund + split.insurance))
  }

  // ---------------------------------------------------------------- exchange rate

  /** `get_exchange_rate`: tokens per share with six decimals, `1_000_000` for a pool without
      shares, else `total_deposits * 1_000_000 / total_shares` truncated and cast `as u64`. */
  function ExchangeRate(p: PoolData): (rate: U64)
    ensures p.totalShares == 0 ==> rate == USD_MULTIPLIER
    ensures p.totalShares > 0 ==> rate * p.totalShares <= p.totalDeposits * USD_MULTIPLIER
    ensures p.totalShares > 0 && p.totalDeposits * USD_MULTIPLIER / p.totalShares <= U64_MAX
            ==> p.totalDeposits * USD_MULTIPLIER < (rate + 1) * p.totalShares
  {
    if p.totalShares == 0 then USD_MULTIPLIER
    else
      var q := p.totalDeposits * USD_MULTIPLIER / p.totalShares;
      FloorBounds(p.totalDeposits * USD_MULTIPLIER, p.totalShares);
      MulMonotone(WrapU64(q), q, p.totalShares);
      WrapU64(q)
  }

  /** Where the exchange rate does not wrap, it does not fall when the share price does not. */
  lemma ExchangeRateMonotone(p: PoolData, q: PoolData)
    requires p.totalShares > 0 && q.totalShares > 0
    requires q.totalDeposits * p.totalShares >= p.totalDeposits * q.totalShares
    requires q.totalDeposits * USD_MULTIPLIER / q.totalShares <= U64_MAX
    ensures ExchangeRate(p) <= ExchangeRate(q)
  {
    PriceFloorMonotone(p.totalDeposits, p.totalShares, q.totalDeposits, q.totalShares, USD_MULTIPLIER);
  }

  /** Accrual never lowers the exchange rate (where it does not wrap). */
  lemma AccrualRaisesExchangeRate(p: PoolData, insuranceFund: U64, interest: U64)
    requires AccrueInterest(p, insuranceFund, interest).Ok? && p.totalShares > 0
    requires AccrueInterest(p, insuranceFund, interest).value.pool.totalDeposits * USD_MULTIPLIER / p.totalShares <= U64_MAX
    ensures ExchangeRate(p) <= ExchangeRate(AccrueInterest(p, insuranceFund, interest).value.pool)
  {
    var q := AccrueInterest(p, insuranceFund, interest).value.pool;
    MulMonotone(p.totalDeposits, q.totalDeposits, p.totalShares);
    ExchangeRateMonotone(p, q);
  }

  // ---------------------------------------------------------------- the handlers

  /** `initialize_pool_accounts`: records the LP token mint. */
  method InitializePoolAccounts(pool: LpPool, lpTokenMint: Pubkey)
    modifies pool
    ensures pool.Data() == old(pool.Data()).(lpTokenMint := lpTokenMint)
  {
    pool.lpTokenMint := lpTokenMint;
  }

  /** `deposit` on the pool account. */
  method DepositOn(pool: LpPool, amount: U64, transferOk: bool) returns (o: Outcome, shares: U64)
    modifies pool
    ensures o == OutcomeOf(Deposit(old(pool.Data()), amount, transferOk))
    ensures o.Success? ==> pool.Data() == Deposit(old(pool.Data()), amount, transferOk).value.pool
                           && shares == Deposit(old(pool.Data()), amount, transferOk).value.shares
    ensures o.Failure? ==> pool.Data() == old(pool.Data())
  {
    if amount == 0 {
      return Failure(InvalidAmount), 0;
    }
    var minted := SharesFor(pool.Data(), amount);
    if minted.Err? {
      return Failure(minted.error), 0;
    }
    shares := minted.value;
    if shares == 0 {
      return Failure(InvalidAmount), 0;
    }
    if !transferOk {
      return Failure(TransferFailed), 0;
    }
    if pool.totalDeposits + amount > U64_MAX || pool.totalShares + shares > U64_MAX {
      return Failure(MathOverflow), 0;
    }
    pool.totalDeposits := pool.totalDeposits + amount;
    pool.totalShares := pool.totalShares + shares;
    o := Success;
  }

  /** `withdraw` on the pool account, given the vault's balance. */
  method WithdrawOn(pool: LpPool, shares: U64, vaultBalance: U64, transferOk: bool) returns (o: Outcome, tokens: U64)
    modifies pool
    ensures o == OutcomeOf(Withdraw(old(pool.Data()), shares, vaultBalance, transferOk))
    ensures o.Success? ==> pool.Data() == Withdraw(old(pool.Data()), shares, vaultBalance, transferOk).value.pool
                           && tokens == Withdraw(old(pool.Data()), shares, vaultBalance, transferOk).value.tokens
    ensures o.Failure? ==> pool.Data() == old(pool.Data())
  {
    tokens := 0;
    if shares == 0 {
      return Failure(InvalidAmount), 0;
    }
    if pool.totalShares == 0 {
      return Failure(NoLpShares), 0;
    }
    tokens := TokensFor(pool.Data(), shares);
    if tokens == 0 {
      return Failure(InvalidAmount), 0;
    }
    if vaultBalance < tokens {
      return Failure(InsufficientLiquidity), 0;
    }
    if !transferOk {
      return Failure(TransferFailed), 0;
    }
    pool.totalDeposits := SatSub(pool.totalDeposits, tokens);
    pool.totalShares := SatSub(pool.totalShares, shares);
    o := Success;
  }

  /** `accrue_interest` on the pool and the protocol account. */
  method AccrueInterestOn(pool: LpPool, protocol: Protocol, interest: U64) returns (o: Outcome)
    modifies pool, protocol
    ensures var r := AccrueInterest(old(pool.Data()), old(protocol.insuranceFund), interest);
            && o == OutcomeOf(r)
            && (o.Success? ==> pool.Data() == r.value.pool && protocol.insuranceFund == r.value.insuranceFund)
    ensures o.Failure? ==> pool.Data() == old(pool.Data()) && protocol.insuranceFund == old(protocol.insuranceFund)
    ensures protocol.admin == old(protocol.admin) && protocol.treasury == old(protocol.treasury)
    ensures protocol.totalCollateralUsd == old(protocol.totalCollateralUsd)
    ensures protocol.totalBorrowedUsd == old(protocol.totalBorrowedUsd) && protocol.paused == old(protocol.paused)
  {
    if interest == 0 {
      return Failure(InvalidAmount);
    }
    var split := InsuranceSplit(interest);
    if split.Err? {
      return Failure(split.error);
    }
    var lenders := split.value.lenders;
    var insurance := split.value.insurance;
    if pool.totalDeposits + lenders > U64_MAX || pool.interestEarned + lenders > U64_MAX
       || protocol.insuranceFund + insurance > U64_MAX {
      return Failure(MathOverflow);
    }
    pool.totalDeposits := pool.totalDeposits + lenders;
    pool.interestEarned := pool.interestEarned + lenders;
    protocol.insuranceFund := protocol.insuranceFund + insurance;
    o := Success;
  }
}
