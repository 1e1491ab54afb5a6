/** The flash-loan program (`legasi-flash/src/lib.rs`).

    A flash loan lends from a pool's vault and must be repaid, with a fee of 0.05 % (at least one
    token), in the slot in which it was taken. A loan-state account records the loan; repaying sets
    its `repaid` flag, so it can be repaid once, and it can be closed only once repaid. The fee is
    credited to the pool as interest is: 5 % to the insurance fund, the rest to the lenders.

    The program reads the pool and protocol accounts without typing them; here they are the typed
    `LpPool` and `Protocol` accounts whose fields it writes. */
module Flash {
  import opened Num
  import opened Errors
  import opened Constants
  import opened State
  import Lp

  /** A snapshot of a `FlashLoanState` account. */
  datatype FlashLoanData = FlashLoanData(
    borrower: Pubkey,
    assetType: AssetType,
    amount: U64,
    fee: U64,
    initiatedSlot: U64,
    repaid: bool)

  /** `FlashLoanState` */
  class FlashLoanState {
    var borrower: Pubkey
    var assetType: AssetType
    var amount: U64
    var fee: U64
    var initiatedSlot: U64
    var repaid: bool

    function Data(): FlashLoanData
      reads this
    {
      FlashLoanData(borrower, assetType, amount, fee, initiatedSlot, repaid)
    }

    constructor (d: FlashLoanData)
      ensures Data() == d
    {
      borrower := d.borrower;
      assetType := d.assetType;
      amount := d.amount;
      fee := d.fee;
      initiatedSlot := d.initiatedSlot;
      repaid := d.repaid;
    }
  }

  /** The fee of a flash loan: `max(amount * 5 / 10000, 1)`, with a checked multiplication. Below
      2000 tokens the fee is the minimum of one token; from there on it is 0.05 % truncated. */
  function FlashFee(amount: U64): (r: Result<U64>)
    ensures r.Err? <==> amount * FLASH_LOAN_FEE_BPS > U64_MAX
    ensures r.Err? ==> r.error == MathOverflow
    ensures r.Ok? ==> r.value >= MIN_FLASH_LOAN_FEE
    ensures r.Ok? && amount < 2000 ==> r.value == MIN_FLASH_LOAN_FEE
    ensures r.Ok? && amount >= 2000 ==> r.value * BPS_DENOMINATOR <= amount * FLASH_LOAN_FEE_BPS
                                        < (r.value + 1) * BPS_DENOMINATOR
  {
    if amount * FLASH_LOAN_FEE_BPS > U64_MAX then Err(MathOverflow)
    else
      FloorBounds(amount * FLASH_LOAN_FEE_BPS, BPS_DENOMINATOR);
      Ok(Max(amount * FLASH_LOAN_FEE_BPS / BPS_DENOMINATOR, MIN_FLASH_LOAN_FEE))
  }

  /** `flash_borrow`: a positive amount, the slot the caller names must be the current one
      (`InvalidSlot`), the vault must hold the amount, and the fee must be computable; the new loan
      state records the amount and fee, stamped with the current slot and not repaid. */
  function FlashBorrow(borrower: Pubkey, assetType: AssetType, amount: U64, slot: U64, currentSlot: U64,
                       vaultBalance: U64, transferOk: bool): (r: Result<FlashLoanData>)
    ensures amount == 0 ==> r == Err(InvalidAmount)
    ensures amount > 0 && slot != currentSlot ==> r == Err(InvalidSlot)
    ensures amount > 0 && slot == currentSlot && vaultBalance < amount ==> r == Err(InsufficientLiquidity)
    ensures r.Ok? <==> amount > 0 && slot == currentSlot && amount <= vaultBalance && FlashFee(amount).Ok? && transferOk
    ensures r.Ok? ==> r.value == FlashLoanData(borrower, assetType, amount, FlashFee(amount).value, currentSlot, false)
  {
    if amount == 0 then Err(InvalidAmount)
    else if slot != currentSlot then Err(InvalidSlot)
    else if vaultBalance < amount then Err(InsufficientLiquidity)
    else
      var fee :- FlashFee(amount);
      if !transferOk then Err(TransferFailed)
      else Ok(FlashLoanData(borrower, assetType, amount, fee, currentSlot, false))
  }

  /** What a successful repayment writes: the loan state, the pool and the insurance fund. */
  datatype Repaid = Repaid(state: FlashLoanData, pool: PoolData, insuranceFund: U64)

  /** `flash_repay`: in the slot of the loan and not yet repaid (both `FlashLoanNotRepaid`), the
      borrower returns `amount + fee` (`checked_add`), the loan is marked repaid, and the fee is
      split: the insurance part `fee * 500 / 10000` into the insurance fund, the rest into the
      pool's `total_deposits` and `interest_earned`, each with `checked_add`. */
  function FlashRepay(st: FlashLoanData, currentSlot: U64, pool: PoolData, insuranceFund: U64,
                      transferOk: bool): (r: Result<Repaid>)
    ensures st.initiatedSlot != currentSlot || st.repaid ==> r == Err(FlashLoanNotRepaid)
    ensures r.Ok? ==> st.initiatedSlot == currentSlot && !st.repaid && st.amount + st.fee <= U64_MAX && transferOk
    ensures r.Ok? ==> r.value.state == st.(repaid := true)
    ensures r.Ok? ==> Lp.InsuranceSplit(st.fee).Ok?
                      && var split := Lp.InsuranceSplit(st.fee).value;
                      && r.value.pool.totalDeposits == pool.totalDeposits + split.lenders
                      && r.value.pool.interestEarned == pool.interestEarned + split.lenders
                      && r.value.insuranceFund == insuranceFund + split.insurance
    ensures r.Ok? ==> r.value.pool == pool.(totalDeposits := r.value.pool.totalDeposits,
                                            interestEarned := r.value.pool.interestEarned)
  {
    if st.initiatedSlot != currentSlot || st.repaid then Err(FlashLoanNotRepaid)
    else if st.amount + st.fee > U64_MAX then Err(MathOverflow)
    else if !transferOk then Err(TransferFailed)
    else
      var split :- Lp.InsuranceSplit(st.fee);
      if pool.totalDeposits + split.lenders > U64_MAX || pool.interestEarned + split.lenders > U64_MAX
         || insuranceFund + split.insurance > U64_MAX
      then Err(MathOverflow)
      else Ok(Repaid(st.(repaid := true),
                     pool.(totalDeposits := pool.totalDeposits + split.lenders,
                           interestEarned := pool.interestEarned + split.lenders),
                     insuranceFund + split.insurance))
  }

  /** The fee split: what the pool and the insurance fund gain together is the whole fee, and the
      insurance fund's part is 5 % of it, truncated. */
  lemma FeeSplit(st: FlashLoanData, currentSlot: U64, pool: PoolData, insuranceFund: U64, transferOk: bool)
    requires FlashRepay(st, currentSlot, pool, insuranceFund, transferOk).Ok?
    ensures var r := FlashRepay(st, currentSlot, pool, insuranceFund, transferOk).value;
            && (r.pool.totalDeposits - pool.totalDeposits) + (r.insuranceFund - insuranceFund) == st.fee
            && (r.insuranceFund - insuranceFund) * BPS_DENOMINATOR <= st.fee * INSURANCE_FEE_BPS
  {
  }

  /** A loan's fee is credited exactly as the pool program credits interest of the same amount. */
  lemma FeeCreditedAsInterest(st: FlashLoanData, currentSlot: U64, pool: PoolData, insuranceFund: U64)
    requires st.fee > 0 && FlashRepay(st, currentSlot, pool, insuranceFund, true).Ok?
    ensures Lp.AccrueInterest(pool, insuranceFund, st.fee).Ok?
    ensures Lp.AccrueInterest(pool, insuranceFund, st.fee).value.pool
            == FlashRepay(st, currentSlot, pool, insuranceFund, true).value.pool
    ensures Lp.AccrueInterest(pool, insuranceFund, st.fee).value.insuranceFund
            == FlashRepay(st, currentSlot, pool, insuranceFund, true).value.insuranceFund
  {
  }

  /** A loan is repaid at most once: a second repayment is refused. */
  lemma RepayOnce(st: FlashLoanData, currentSlot: U64, pool: PoolData, insuranceFund: U64, transferOk: bool,
                  pool2: PoolData, insuranceFund2: U64, transferOk2: bool)
    requires FlashRepay(st, currentSlot, pool, insuranceFund, transferOk).Ok?
    ensures FlashRepay(FlashRepay(st, currentSlot, pool, insuranceFund, transferOk).value.state,
                       currentSlot, pool2, insuranceFund2, transferOk2) == Err(FlashLoanNotRepaid)
  {
  }

  /** A loan taken in one slot cannot be repaid in another. */
  lemma RepaySameSlot(borrower: Pubkey, assetType: AssetType, amount: U64, slot: U64, vaultBalance: U64,
                      transferOk: bool, laterSlot: U64, pool: PoolData, insuranceFund: U64, transferOk2: bool)
    requires FlashBorrow(borrower, assetType, amount, slot, slot, vaultBalance, transferOk).Ok? && laterSlot != slot
    ensures FlashRepay(FlashBorrow(borrower, assetType, amount, slot, slot, vaultBalance, transferOk).value,
                       laterSlot, pool, insuranceFund, transferOk2) == Err(FlashLoanNotRepaid)
  {
  }

  /** `close_flash_state`: only a repaid loan's account may be closed. */
  function CloseFlashState(st: FlashLoanData): (o: Outcome)
    ensures o.Success? <==> st.repaid
    ensures o.Failure? ==> o.error == FlashLoanNotRepaid
  {
    if st.repaid then Success else Failure(FlashLoanNotRepaid)
  }

  /** A fresh loan cannot be closed; once repaid in its slot, it can. */
  lemma CloseAfterRepay(borrower: Pubkey, assetType: AssetType, amount: U64, slot: U64, vaultBalance: U64,
                        pool: PoolData, insuranceFund: U64)
    requires FlashBorrow(borrower, assetType, amount, slot, slot, vaultBalance, true).Ok?
    ensures CloseFlashState(FlashBorrow(borrower, assetType, amount, slot, slot, vaultBalance, true).value)
            == Failure(FlashLoanNotRepaid)
    ensures var st := FlashBorrow(borrower, assetType, amount, slot, slot, vaultBalance, true).value;
            FlashRepay(st, slot, pool, insuranceFund, true).Ok?
            ==> CloseFlashState(FlashRepay(st, slot, pool, insuranceFund, true).value.state) == Success
  {
  }

  // ---------------------------------------------------------------- the handlers

  /** `flash_borrow`: creates the loan-state account. */
  method FlashBorrowOn(borrower: Pubkey, assetType: AssetType, amount: U64, slot: U64, currentSlot: U64,
                       vaultBalance: U64, transferOk: bool) returns (o: Outcome, st: FlashLoanState?)
    ensures o == OutcomeOf(FlashBorrow(borrower, assetType, amount, slot, currentSlot, vaultBalance, transferOk))
    ensures o.Success? ==> st != null && fresh(st)
                           && st.Data() == FlashBorrow(borrower, assetType, amount, slot, currentSlot, vaultBalance, transferOk).value
    ensures o.Failure? ==> st == null
  {
    st := null;
    if amount == 0 {
      return Failure(InvalidAmount), null;
    }
    if slot != currentSlot {
      return Failure(InvalidSlot), null;
    }
    if vaultBalance < amount {
      return Failure(InsufficientLiquidity), null;
    }
    if amount * FLASH_LOAN_FEE_BPS > U64_MAX {
      return Failure(MathOverflow), null;
    }
    var fee := Max(amount * FLASH_LOAN_FEE_BPS / BPS_DENOMINATOR, MIN_FLASH_LOAN_FEE);
    if !transferOk {
      return Failure(TransferFailed), null;
    }
    st := new FlashLoanState(FlashLoanData(borrower, assetType, amount, fee, currentSlot, false));
    o := Success;
  }

  /** `flash_repay` on the loan state, the pool and the protocol account. */
  method FlashRepayOn(st: FlashLoanState, pool: LpPool, protocol: Protocol, currentSlot: U64, transferOk: bool)
    returns (o: Outcome)
    modifies st, pool, protocol
    ensures var r := FlashRepay(old(st.Data()), currentSlot, old(pool.Data()), old(protocol.insuranceFund), transferOk);
            && o == OutcomeOf(r)
            && (o.Success? ==> st.Data() == r.value.state && pool.Data() == r.value.pool
                               && protocol.insuranceFund == r.value.insuranceFund)
    ensures o.Failure? ==> st.Data() == old(st.Data()) && pool.Data() == old(pool.Data())
                           && protocol.insuranceFund == old(protocol.insuranceFund)
    ensures protocol.admin == old(protocol.admin) && protocol.treasury == old(protocol.treasury)
    ensures protocol.totalCollateralUsd == old(protocol.totalCollateralUsd)
    ensures protocol.totalBorrowedUsd == old(protocol.totalBorrowedUsd) && protocol.paused == old(protocol.paused)
  {
    if st.initiatedSlot != currentSlot {
      return Failure(FlashLoanNotRepaid);
    }
    if st.repaid {
      return Failure(FlashLoanNotRepaid);
    }
    if st.amount + st.fee > U64_MAX {
      return Failure(MathOverflow);
    }
    if !transferOk {
      return Failure(TransferFailed);
    }
    var split := Lp.InsuranceSplit(st.fee);
    if split.Err? {
      return Failure(split.error);
    }
    var lenders := split.value.lenders;
    var insurance := split.value.insurance;
    if pool.totalDeposits + lenders > U64_MAX || pool.interestEarned + lenders > U64_MAX
       || protocol.insuranceFund + insurance > U64_MAX {
      return Failure(MathOverflow);
    }
    st.repaid := true;
    pool.totalDeposits := pool.totalDeposits + lenders;
    pool.interestEarned := pool.interestEarned + lenders;
    protocol.insuranceFund := protocol.insuranceFund + insurance;
    o := Success;
  }
}
