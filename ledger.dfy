/** The multi-asset position and the loops the handlers run over its two vectors.

    A position holds at most 8 collateral entries and at most 4 borrow entries. The handlers find
    an entry by asset type (the first match), add to it or append a new one, sum the entries with
    checked arithmetic, pay debts down interest first, and drop empty entries with `retain`.
    Each loop is a method proved equal to a recursive function here, and the properties of the
    handlers are proved about those functions. */
module Ledger {
  import opened Num
  import opened Errors
  import opened Constants
  import opened State

  // ---------------------------------------------------------------- the position

  /** A snapshot of every field of `Position` that an instruction can change. */
  datatype PositionData = PositionData(
    owner: Pubkey,
    collaterals: seq<CollateralDeposit>,
    borrows: seq<BorrowedAmount>,
    lastUpdate: I64,
    lastGadCrank: I64,
    gadEnabled: bool,
    totalGadLiquidatedUsd: U64,
    reputation: Reputation)
  {
    /** What the handlers maintain: the vectors within their `max_len` and one entry per asset. */
    predicate Valid() {
      |collaterals| <= MAX_COLLATERAL_TYPES && |borrows| <= MAX_BORROW_TYPES
      && DistinctCollaterals(collaterals) && DistinctBorrows(borrows)
    }
  }

  /** `Position`, the per-user account of the lending and GAD programs. */
  class Position {
    var owner: Pubkey
    var collaterals: seq<CollateralDeposit>
    var borrows: seq<BorrowedAmount>
    var lastUpdate: I64
    var lastGadCrank: I64
    var gadEnabled: bool
    var totalGadLiquidatedUsd: U64
    var reputation: Reputation

    function Data(): PositionData
      reads this
    {
      PositionData(owner, collaterals, borrows, lastUpdate, lastGadCrank, gadEnabled, totalGadLiquidatedUsd, reputation)
    }

    /** `initialize_position` of the lending program: empty vectors, both clocks at `now`,
        deleveraging switched on, a zero reputation. */
    constructor (owner: Pubkey, now: I64)
      ensures Data() == PositionData(owner, [], [], now, now, true, 0, DefaultReputation)
      ensures Data().Valid()
    {
      this.owner := owner;
      collaterals := [];
      borrows := [];
      lastUpdate := now;
      lastGadCrank := now;
      gadEnabled := true;
      totalGadLiquidatedUsd := 0;
      reputation := DefaultReputation;
    }

    /** Replaces every field at once; the handlers end with this single write, which is how a
        Solana instruction publishes its new account state. */
    method Store(d: PositionData)
      modifies this
      ensures Data() == d
    {
      owner := d.owner;
      collaterals := d.collaterals;
      borrows := d.borrows;
      lastUpdate := d.lastUpdate;
      lastGadCrank := d.lastGadCrank;
      gadEnabled := d.gadEnabled;
      totalGadLiquidatedUsd := d.totalGadLiquidatedUsd;
      reputation := d.reputation;
    }
  }

  predicate DistinctCollaterals(cs: seq<CollateralDeposit>) {
    forall i, j :: 0 <= i < j < |cs| ==> cs[i].assetType != cs[j].assetType
  }

  predicate DistinctBorrows(bs: seq<BorrowedAmount>) {
    forall i, j :: 0 <= i < j < |bs| ==> bs[i].assetType != bs[j].assetType
  }

  // ---------------------------------------------------------------- finding an entry

  /** Index of the first collateral entry of asset `a`, or -1. */
  function CollateralIndex(cs: seq<CollateralDeposit>, a: AssetType): (i: int)
    ensures -1 <= i < |cs|
    ensures 0 <= i ==> cs[i].assetType == a && forall j :: 0 <= j < i ==> cs[j].assetType != a
    ensures i == -1 <==> forall j :: 0 <= j < |cs| ==> cs[j].assetType != a
  {
    if |cs| == 0 then -1
    else if cs[0].assetType == a then 0
    else var k := CollateralIndex(cs[1..], a); if k == -1 then -1 else k + 1
  }

  /** Index of the first borrow entry of asset `a`, or -1. */
  function BorrowIndex(bs: seq<BorrowedAmount>, a: AssetType): (i: int)
    ensures -1 <= i < |bs|
    ensures 0 <= i ==> bs[i].assetType == a && forall j :: 0 <= j < i ==> bs[j].assetType != a
    ensures i == -1 <==> forall j :: 0 <= j < |bs| ==> bs[j].assetType != a
  {
    if |bs| == 0 then -1
    else if bs[0].assetType == a then 0
    else var k := BorrowIndex(bs[1..], a); if k == -1 then -1 else k + 1
  }

  /** The loop `for deposit in collaterals { if deposit.asset_type == a { ...; break } }`. */
  method FindCollateral(cs: seq<CollateralDeposit>, a: AssetType) returns (i: int)
    ensures i == CollateralIndex(cs, a)
  {
    i := 0;
    while i < |cs|
      invariant 0 <= i <= |cs|
      invariant forall j :: 0 <= j < i ==> cs[j].assetType != a
    {
      if cs[i].assetType == a {
        CollateralIndexIs(cs, a, i);
        return;
      }
      i := i + 1;
    }
    i := -1;
  }

  /** The same loop over the borrow entries. */
  method FindBorrow(bs: seq<BorrowedAmount>, a: AssetType) returns (i: int)
    ensures i == BorrowIndex(bs, a)
  {
    i := 0;
    while i < |bs|
      invariant 0 <= i <= |bs|
      invariant forall j :: 0 <= j < i ==> bs[j].assetType != a
    {
      if bs[i].assetType == a {
        BorrowIndexIs(bs, a, i);
        return;
      }
      i := i + 1;
    }
    i := -1;
  }

  /** The amount held in the first collateral entry of `a` (0 without one). */
  function Held(cs: seq<CollateralDeposit>, a: AssetType): (n: U64)
    ensures CollateralIndex(cs, a) == -1 ==> n == 0
    ensures (exists j :: 0 <= j < |cs| && cs[j].assetType == a) ==> n == cs[CollateralIndex(cs, a)].amount
  {
    var i := CollateralIndex(cs, a);
    if i == -1 then 0 else cs[i].amount
  }

  /** With one entry per asset, what is held of `a` is the amount of the entry of `a`. */
  lemma HeldIs(cs: seq<CollateralDeposit>, a: AssetType, c: CollateralDeposit)
    requires DistinctCollaterals(cs) && c in cs && c.assetType == a
    ensures Held(cs, a) == c.amount
  {
    var k :| 0 <= k < |cs| && cs[k] == c;
    var i := CollateralIndex(cs, a);
    assert i == k;
  }

  /** Without an entry of `a`, nothing of `a` is held. */
  lemma HeldNone(cs: seq<CollateralDeposit>, a: AssetType)
    requires forall c :: c in cs ==> c.assetType != a
    ensures Held(cs, a) == 0
  {
  }

  // ---------------------------------------------------------------- find or push

  /** The find-or-push of the deposit handlers: add `amount` to the first entry of `a`
      (`checked_add`), or append a new entry when there are fewer than 8. */
  function AddCollateral(cs: seq<CollateralDeposit>, a: AssetType, amount: U64): (r: Result<seq<CollateralDeposit>>)
    ensures r.Err? ==> r.error == MathOverflow || r.error == MaxCollateralTypesReached
    ensures r == Err(MathOverflow) <==> CollateralIndex(cs, a) >= 0 && Held(cs, a) + amount > U64_MAX
    ensures r == Err(MaxCollateralTypesReached) <==> CollateralIndex(cs, a) == -1 && |cs| >= MAX_COLLATERAL_TYPES
    ensures r.Ok? ==> Held(r.value, a) == Held(cs, a) + amount
    ensures r.Ok? ==> forall b :: b != a ==> Held(r.value, b) == Held(cs, b)
    ensures r.Ok? && CollateralIndex(cs, a) >= 0 ==> |r.value| == |cs|
    ensures r.Ok? && CollateralIndex(cs, a) == -1 ==> r.value == cs + [CollateralDeposit(a, amount)]
  {
    var i := CollateralIndex(cs, a);
    if i >= 0 then
      if cs[i].amount + amount > U64_MAX then Err(MathOverflow)
      else
        var r := cs[i := CollateralDeposit(a, cs[i].amount + amount)];
        CollateralIndexIs(r, a, i);
        assert forall b :: b != a ==> CollateralIndex(r, b) == CollateralIndex(cs, b) by {
          forall b | b != a ensures CollateralIndex(r, b) == CollateralIndex(cs, b) {
            CollateralIndexAfterUpdate(cs, i, r[i], b);
          }
        }
        Ok(r)
    else if |cs| >= MAX_COLLATERAL_TYPES then Err(MaxCollateralTypesReached)
    else
      var r := cs + [CollateralDeposit(a, amount)];
      CollateralIndexIs(r, a, |cs|);
      assert forall b :: b != a ==> CollateralIndex(r, b) == CollateralIndex(cs, b) by {
        forall b | b != a ensures CollateralIndex(r, b) == CollateralIndex(cs, b) {
          CollateralIndexAfterPush(cs, r[|cs|], b);
        }
      }
      Ok(r)
  }

  /** The characterisation of `CollateralIndex` determines it. */
  lemma CollateralIndexIs(cs: seq<CollateralDeposit>, a: AssetType, i: nat)
    requires i < |cs| && cs[i].assetType == a
    requires forall j :: 0 <= j < i ==> cs[j].assetType != a
    ensures CollateralIndex(cs, a) == i
  {
    var k := CollateralIndex(cs, a);
    assert cs[i].assetType == a;
  }

  /** The characterisation of `BorrowIndex` determines it. */
  lemma BorrowIndexIs(bs: seq<BorrowedAmount>, a: AssetType, i: nat)
    requires i < |bs| && bs[i].assetType == a
    requires forall j :: 0 <= j < i ==> bs[j].assetType != a
    ensures BorrowIndex(bs, a) == i
  {
    var k := BorrowIndex(bs, a);
    assert bs[i].assetType == a;
  }

  lemma {:induction false} CollateralIndexAfterUpdate(cs: seq<CollateralDeposit>, i: nat, c: CollateralDeposit, b: AssetType)
    requires i < |cs| && c.assetType == cs[i].assetType && cs[i].assetType != b
    ensures CollateralIndex(cs[i := c], b) == CollateralIndex(cs, b)
  {
    if i > 0 {
      assert cs[i := c][1..] == cs[1..][i - 1 := c];
      CollateralIndexAfterUpdate(cs[1..], i - 1, c, b);
    } else {
      assert cs[i := c][1..] == cs[1..];
    }
  }

  lemma {:induction false} CollateralIndexAfterPush(cs: seq<CollateralDeposit>, c: CollateralDeposit, b: AssetType)
    requires c.assetType != b
    ensures CollateralIndex(cs + [c], b) == CollateralIndex(cs, b)
  {
    if |cs| > 0 {
      assert (cs + [c])[1..] == cs[1..] + [c];
      CollateralIndexAfterPush(cs[1..], c, b);
    }
  }

  /** The find-or-push of the borrow handlers: add `amount` to the principal of the first entry
      of `a` (`checked_add`), or append a new entry with no interest when there are fewer than 4. */
  function AddBorrow(bs: seq<BorrowedAmount>, a: AssetType, amount: U64): (r: Result<seq<BorrowedAmount>>)
    ensures r.Err? ==> r.error == MathOverflow || r.error == MaxBorrowTypesReached
    ensures r == Err(MathOverflow) <==> BorrowIndex(bs, a) >= 0 && bs[BorrowIndex(bs, a)].amount + amount > U64_MAX
    ensures r == Err(MaxBorrowTypesReached) <==> BorrowIndex(bs, a) == -1 && |bs| >= MAX_BORROW_TYPES
    ensures r.Ok? && BorrowIndex(bs, a) >= 0 ==>
              var i := BorrowIndex(bs, a);
              r.value == bs[i := BorrowedAmount(a, bs[i].amount + amount, bs[i].accruedInterest)]
    ensures r.Ok? && BorrowIndex(bs, a) == -1 ==> r.value == bs + [BorrowedAmount(a, amount, 0)]
    ensures r.Ok? ==> DebtValue(r.value, AllAssets) == DebtValue(bs, AllAssets) + amount
  {
    var i := BorrowIndex(bs, a);
    if i >= 0 then
      if bs[i].amount + amount > U64_MAX then Err(MathOverflow)
      else
        var r := bs[i := BorrowedAmount(a, bs[i].amount + amount, bs[i].accruedInterest)];
        DebtValueUpdate(bs, i, r[i], AllAssets);
        Ok(r)
    else if |bs| >= MAX_BORROW_TYPES then Err(MaxBorrowTypesReached)
    else
      var r := bs + [BorrowedAmount(a, amount, 0)];
      assert r[..|bs|] == bs;
      assert a in AllAssets by { assert a == SOL || a == CbBTC || a == USDC || a == EURC; }
      Ok(r)
  }

  /** `AddCollateral` keeps a valid vector valid. */
  lemma AddCollateralKeepsDistinct(cs: seq<CollateralDeposit>, a: AssetType, amount: U64)
    requires DistinctCollaterals(cs) && |cs| <= MAX_COLLATERAL_TYPES
    requires AddCollateral(cs, a, amount).Ok?
    ensures DistinctCollaterals(AddCollateral(cs, a, amount).value)
    ensures |AddCollateral(cs, a, amount).value| <= MAX_COLLATERAL_TYPES
  {
    var r := AddCollateral(cs, a, amount).value;
    if CollateralIndex(cs, a) == -1 {
      assert r == cs + [CollateralDeposit(a, amount)];
      forall i, j | 0 <= i < j < |r| ensures r[i].assetType != r[j].assetType {
        if j == |cs| {
          assert r[i] == cs[i];
        } else {
          assert r[i] == cs[i] && r[j] == cs[j];
        }
      }
    }
  }

  /** `AddBorrow` keeps a valid vector valid. */
  lemma AddBorrowKeepsDistinct(bs: seq<BorrowedAmount>, a: AssetType, amount: U64)
    requires DistinctBorrows(bs) && |bs| <= MAX_BORROW_TYPES
    requires AddBorrow(bs, a, amount).Ok?
    ensures DistinctBorrows(AddBorrow(bs, a, amount).value)
    ensures |AddBorrow(bs, a, amount).value| <= MAX_BORROW_TYPES
  {
    var r := AddBorrow(bs, a, amount).value;
    if BorrowIndex(bs, a) == -1 {
      forall i, j | 0 <= i < j < |r| ensures r[i].assetType != r[j].assetType {
        if j == |bs| {
          assert r[i] == bs[i];
        } else {
          assert r[i] == bs[i] && r[j] == bs[j];
        }
      }
    }
  }

  /** The find-or-push loop over the collateral vector. */
  method DepositInto(cs: seq<CollateralDeposit>, a: AssetType, amount: U64) returns (r: Result<seq<CollateralDeposit>>)
    ensures r == AddCollateral(cs, a, amount)
  {
    var i := FindCollateral(cs, a);
    if i >= 0 {
      if cs[i].amount + amount > U64_MAX {
        return Err(MathOverflow);
      }
      r := Ok(cs[i := CollateralDeposit(a, cs[i].amount + amount)]);
    } else {
      if |cs| >= MAX_COLLATERAL_TYPES {
        return Err(MaxCollateralTypesReached);
      }
      r := Ok(cs + [CollateralDeposit(a, amount)]);
    }
  }

  /** The find-or-push loop over the borrow vector. */
  method BorrowInto(bs: seq<BorrowedAmount>, a: AssetType, amount: U64) returns (r: Result<seq<BorrowedAmount>>)
    ensures r == AddBorrow(bs, a, amount)
  {
    var i := FindBorrow(bs, a);
    if i >= 0 {
      if bs[i].amount + amount > U64_MAX {
        return Err(MathOverflow);
      }
      r := Ok(bs[i := BorrowedAmount(a, bs[i].amount + amount, bs[i].accruedInterest)]);
    } else {
      if |bs| >= MAX_BORROW_TYPES {
        return Err(MaxBorrowTypesReached);
      }
      r := Ok(bs + [BorrowedAmount(a, amount, 0)]);
    }
  }

  // ---------------------------------------------------------------- checked sums

  const AllAssets: set<AssetType> := {SOL, CbBTC, USDC, EURC}

  /** USD value (6 decimals) of one collateral entry at a SOL price: `(amount * price / 1e9) as u64`.
      The `u128` product cannot overflow; the cast keeps the low 64 bits. */
  function EntryValue(c: CollateralDeposit, price: U64): (v: U64)
    ensures c.amount * price / LAMPORTS_PER_SOL <= U64_MAX ==> v == c.amount * price / LAMPORTS_PER_SOL
  {
    WrapU64(c.amount * price / LAMPORTS_PER_SOL)
  }

  /** Sum of the entry values of the collateral entries whose asset is in `valued`, unbounded. */
  function CollateralValue(cs: seq<CollateralDeposit>, price: U64, valued: set<AssetType>): nat
    decreases |cs|
  {
    if cs == [] then 0
    else
      var last := cs[|cs| - 1];
      CollateralValue(cs[..|cs| - 1], price, valued) + (if last.assetType in valued then EntryValue(last, price) else 0)
  }

  /** What one borrow entry owes: principal plus accrued interest, unbounded. */
  function Owed(b: BorrowedAmount): nat {
    b.amount + b.accruedInterest
  }

  /** Sum of what the borrow entries whose asset is in `counted` owe, unbounded. */
  function DebtValue(bs: seq<BorrowedAmount>, counted: set<AssetType>): nat
    decreases |bs|
  {
    if bs == [] then 0
    else
      var last := bs[|bs| - 1];
      DebtValue(bs[..|bs| - 1], counted) + (if last.assetType in counted then Owed(last) else 0)
  }

  lemma {:induction false} CollateralValuePrefix(cs: seq<CollateralDeposit>, k: nat, price: U64, valued: set<AssetType>)
    requires k <= |cs|
    ensures CollateralValue(cs[..k], price, valued) <= CollateralValue(cs, price, valued)
    decreases |cs| - k
  {
    if k < |cs| {
      assert cs[..k] == cs[..k + 1][..k];
      CollateralValuePrefix(cs, k + 1, price, valued);
    } else {
      assert cs[..k] == cs;
    }
  }

  lemma {:induction false} DebtValuePrefix(bs: seq<BorrowedAmount>, k: nat, counted: set<AssetType>)
    requires k <= |bs|
    ensures DebtValue(bs[..k], counted) <= DebtValue(bs, counted)
    decreases |bs| - k
  {
    if k < |bs| {
      assert bs[..k] == bs[..k + 1][..k];
      DebtValuePrefix(bs, k + 1, counted);
    } else {
      assert bs[..k] == bs;
    }
  }

  /** One entry of the debt sum: an entry that is not counted contributes nothing, a counted one
      what it owes. */
  lemma {:induction false} DebtValueAt(bs: seq<BorrowedAmount>, i: nat, counted: set<AssetType>)
    requires i < |bs|
    ensures DebtValue(bs, counted) == DebtValue(bs[..i], counted)
                                      + (if bs[i].assetType in counted then Owed(bs[i]) else 0)
                                      + DebtValue(bs[i + 1..], counted)
    decreases |bs|
  {
    if i == |bs| - 1 {
      assert bs[..|bs| - 1] == bs[..i];
      assert bs[i + 1..] == [];
    } else {
      var n := |bs| - 1;
      DebtValueAt(bs[..n], i, counted);
      assert bs[..n][..i] == bs[..i];
      assert bs[..n][i] == bs[i];
      assert bs[i + 1..][..|bs[i + 1..]| - 1] == bs[..n][i + 1..];
      assert bs[i + 1..][|bs[i + 1..]| - 1] == bs[n];
    }
  }

  /** Replacing one entry by another of the same asset changes the debt sum by the difference. */
  lemma DebtValueUpdate(bs: seq<BorrowedAmount>, i: nat, b: BorrowedAmount, counted: set<AssetType>)
    requires i < |bs| && b.assetType == bs[i].assetType
    ensures DebtValue(bs[i := b], counted) + (if b.assetType in counted then Owed(bs[i]) else 0)
            == DebtValue(bs, counted) + (if b.assetType in counted then Owed(b) else 0)
  {
    var r := bs[i := b];
    DebtValueAt(bs, i, counted);
    DebtValueAt(r, i, counted);
    assert r[..i] == bs[..i];
    assert r[i + 1..] == bs[i + 1..];
  }

  /** The accumulator loop over collateral entries with `checked_add`: it fails exactly when the
      value of the counted entries does not fit in a `u64`. */
  method SumCollateralValue(cs: seq<CollateralDeposit>, price: U64, valued: set<AssetType>) returns (r: Result<U64>)
    ensures r.Ok? <==> CollateralValue(cs, price, valued) <= U64_MAX
    ensures r.Ok? ==> r.value == CollateralValue(cs, price, valued)
    ensures r.Err? ==> r.error == MathOverflow
  {
    var total: U64 := 0;
    var i := 0;
    while i < |cs|
      invariant 0 <= i <= |cs|
      invariant total == CollateralValue(cs[..i], price, valued)
    {
      assert cs[..i + 1][..i] == cs[..i];
      if cs[i].assetType in valued {
        var value := EntryValue(cs[i], price);
        if total + value > U64_MAX {
          CollateralValuePrefix(cs, i + 1, price, valued);
          return Err(MathOverflow);
        }
        total := total + value;
      }
      i := i + 1;
    }
    assert cs[..i] == cs;
    r := Ok(total);
  }

  /** The accumulator loop over borrow entries with `checked_add` (on each entry's principal plus
      interest and on the running total): it fails exactly when the debt of the counted entries
      does not fit in a `u64`. */
  method SumDebtValue(bs: seq<BorrowedAmount>, counted: set<AssetType>) returns (r: Result<U64>)
    ensures r.Ok? <==> DebtValue(bs, counted) <= U64_MAX
    ensures r.Ok? ==> r.value == DebtValue(bs, counted)
    ensures r.Err? ==> r.error == MathOverflow
  {
    var total: U64 := 0;
    var i := 0;
    while i < |bs|
      invariant 0 <= i <= |bs|
      invariant total == DebtValue(bs[..i], counted)
    {
      assert bs[..i + 1][..i] == bs[..i];
      if bs[i].assetType in counted {
        if bs[i].amount + bs[i].accruedInterest > U64_MAX || total + Owed(bs[i]) > U64_MAX {
          DebtValuePrefix(bs, i + 1, counted);
          return Err(MathOverflow);
        }
        total := total + Owed(bs[i]);
      }
      i := i + 1;
    }
    assert bs[..i] == bs;
    r := Ok(total);
  }

  // ---------------------------------------------------------------- paying debt down

  /** One entry after a payment, and what the payment took. */
  datatype Payment = Payment(entry: BorrowedAmount, paid: nat)

  /** Pays `budget` into one entry, interest first and then principal. With `skipOverflowing`
      (the GAD crank) an entry whose principal plus interest overflows a `u64` is left alone
      (`checked_add(..).unwrap_or(0)`). */
  function PayEntry(b: BorrowedAmount, budget: nat, skipOverflowing: bool): (r: Payment)
    ensures r.paid <= budget
    ensures Owed(r.entry) + r.paid == Owed(b)
  {
    if skipOverflowing && Owed(b) > U64_MAX then Payment(b, 0)
    else
      var interest := Min(budget, b.accruedInterest);
      var principal := Min(budget - interest, b.amount);
      Payment(BorrowedAmount(b.assetType, b.amount - principal, b.accruedInterest - interest), interest + principal)
  }

  /** What one entry's payment takes: everything it owes up to the budget (nothing for a skipped
      entry), interest before principal, and the asset stays the same. */
  lemma PayEntryTakes(b: BorrowedAmount, budget: nat, skipOverflowing: bool)
    ensures PayEntry(b, budget, skipOverflowing).paid
            == if skipOverflowing && Owed(b) > U64_MAX then 0 else Min(budget, Owed(b))
    ensures PayEntry(b, budget, skipOverflowing).paid > 0
            ==> PayEntry(b, budget, skipOverflowing).entry.accruedInterest
                == b.accruedInterest - Min(budget, b.accruedInterest)
    ensures PayEntry(b, budget, skipOverflowing).entry.assetType == b.assetType
  {
  }

  /** The borrow entries after a waterfall, and what was left of the budget. */
  datatype Paydown = Paydown(entries: seq<BorrowedAmount>, left: nat)

  /** The debt-reduction loops: walk the entries in order while something remains, paying each
      entry down interest first. */
  function Waterfall(bs: seq<BorrowedAmount>, remaining: nat, skipOverflowing: bool): (r: Paydown)
    ensures |r.entries| == |bs| && r.left <= remaining
    decreases |bs|
  {
    if bs == [] || remaining == 0 then Paydown(bs, remaining)
    else
      var step := PayEntry(bs[0], remaining, skipOverflowing);
      var rest := Waterfall(bs[1..], remaining - step.paid, skipOverflowing);
      Paydown([step.entry] + rest.entries, rest.left)
  }

  /** What a waterfall can pay at most: the debt of every entry it does not skip. */
  function Payable(bs: seq<BorrowedAmount>, skipOverflowing: bool): nat
    decreases |bs|
  {
    if bs == [] then 0
    else (if skipOverflowing && Owed(bs[0]) > U64_MAX then 0 else Owed(bs[0])) + Payable(bs[1..], skipOverflowing)
  }

  /** Total debt of the entries, summed front to back. */
  function TotalOwed(bs: seq<BorrowedAmount>): nat
    decreases |bs|
  {
    if bs == [] then 0 else Owed(bs[0]) + TotalOwed(bs[1..])
  }

  lemma TotalOwedCons(b: BorrowedAmount, bs: seq<BorrowedAmount>)
    ensures TotalOwed([b] + bs) == Owed(b) + TotalOwed(bs)
  {
    assert ([b] + bs)[1..] == bs;
  }

  lemma {:induction false} TotalOwedSnoc(bs: seq<BorrowedAmount>, b: BorrowedAmount)
    ensures TotalOwed(bs + [b]) == TotalOwed(bs) + Owed(b)
    decreases |bs|
  {
    if bs == [] {
      assert [b][1..] == [];
    } else {
      assert (bs + [b])[1..] == bs[1..] + [b];
      TotalOwedSnoc(bs[1..], b);
    }
  }

  /** Summed front to back, the debt is the debt of every asset. */
  lemma {:induction false} TotalOwedIsDebt(bs: seq<BorrowedAmount>)
    ensures TotalOwed(bs) == DebtValue(bs, AllAssets)
    decreases |bs|
  {
    if bs != [] {
      var n := |bs| - 1;
      TotalOwedIsDebt(bs[..n]);
      TotalOwedSnoc(bs[..n], bs[n]);
      assert bs[..n] + [bs[n]] == bs;
      var t := bs[n].assetType;
      assert t == SOL || t == CbBTC || t == USDC || t == EURC;
    }
  }

  /** A waterfall that skips nothing can pay the whole debt. */
  lemma {:induction false} PayableAll(bs: seq<BorrowedAmount>)
    ensures Payable(bs, false) == TotalOwed(bs)
    decreases |bs|
  {
    if bs != [] {
      PayableAll(bs[1..]);
    }
  }

  lemma {:induction false} PayableSnoc(bs: seq<BorrowedAmount>, b: BorrowedAmount, skipOverflowing: bool)
    ensures Payable(bs + [b], skipOverflowing)
            == Payable(bs, skipOverflowing) + (if skipOverflowing && Owed(b) > U64_MAX then 0 else Owed(b))
    decreases |bs|
  {
    if bs == [] {
      assert [b][1..] == [];
    } else {
      assert (bs + [b])[1..] == bs[1..] + [b];
      PayableSnoc(bs[1..], b, skipOverflowing);
    }
  }

  /** When the debt of some assets fits in a `u64`, none of their entries overflows, so a waterfall
      that skips overflowing entries can still pay all of it. */
  lemma {:induction false} PayableCovers(bs: seq<BorrowedAmount>, counted: set<AssetType>)
    requires DebtValue(bs, counted) <= U64_MAX
    ensures DebtValue(bs, counted) <= Payable(bs, true)
    decreases |bs|
  {
    if bs != [] {
      var n := |bs| - 1;
      PayableCovers(bs[..n], counted);
      PayableSnoc(bs[..n], bs[n], true);
      assert bs[..n] + [bs[n]] == bs;
    }
  }

  /** The first step of a waterfall that has something to pay. */
  lemma WaterfallHead(bs: seq<BorrowedAmount>, remaining: nat, skipOverflowing: bool)
    requires bs != [] && remaining != 0
    ensures Waterfall(bs, remaining, skipOverflowing)
            == Paydown([PayEntry(bs[0], remaining, skipOverflowing).entry]
                       + Waterfall(bs[1..], remaining - PayEntry(bs[0], remaining, skipOverflowing).paid, skipOverflowing).entries,
                       Waterfall(bs[1..], remaining - PayEntry(bs[0], remaining, skipOverflowing).paid, skipOverflowing).left)
  {
  }

  /** The waterfall removes from the entries exactly what it spends. */
  lemma {:induction false} WaterfallConserves(bs: seq<BorrowedAmount>, remaining: nat, skipOverflowing: bool)
    ensures TotalOwed(bs) == TotalOwed(Waterfall(bs, remaining, skipOverflowing).entries)
                             + (remaining - Waterfall(bs, remaining, skipOverflowing).left)
    decreases |bs|
  {
    if bs != [] && remaining != 0 {
      var step := PayEntry(bs[0], remaining, skipOverflowing);
      var rest := Waterfall(bs[1..], remaining - step.paid, skipOverflowing);
      assert Waterfall(bs, remaining, skipOverflowing) == Paydown([step.entry] + rest.entries, rest.left);
      assert TotalOwed(bs) == Owed(bs[0]) + TotalOwed(bs[1..]);
      WaterfallConserves(bs[1..], remaining - step.paid, skipOverflowing);
      TotalOwedCons(step.entry, rest.entries);
    }
  }

  /** The waterfall stops with something left only when everything it could pay is paid. */
  lemma {:induction false} WaterfallLeftover(bs: seq<BorrowedAmount>, remaining: nat, skipOverflowing: bool)
    ensures Waterfall(bs, remaining, skipOverflowing).left == Max(remaining - Payable(bs, skipOverflowing), 0)
    decreases |bs|
  {
    if bs != [] && remaining != 0 {
      var step := PayEntry(bs[0], remaining, skipOverflowing);
      var first := if skipOverflowing && Owed(bs[0]) > U64_MAX then 0 else Owed(bs[0]);
      assert Payable(bs, skipOverflowing) == first + Payable(bs[1..], skipOverflowing);
      assert step.paid == Min(remaining, first) by {
        PayEntryTakes(bs[0], remaining, skipOverflowing);
      }
      var rest := Payable(bs[1..], skipOverflowing);
      WaterfallLeftover(bs[1..], remaining - step.paid, skipOverflowing);
      WaterfallHead(bs, remaining, skipOverflowing);
      if remaining < first {
        assert Max(remaining - step.paid - rest, 0) == 0 == Max(remaining - (first + rest), 0);
      } else {
        assert remaining - step.paid - rest == remaining - (first + rest);
      }
    } else if bs == [] {
      assert Payable(bs, skipOverflowing) == 0;
    }
  }

  /** An entry after a payment: same asset, and neither principal nor interest went up. */
  predicate Reduced(after: BorrowedAmount, before: BorrowedAmount) {
    after.assetType == before.assetType
    && after.amount <= before.amount
    && after.accruedInterest <= before.accruedInterest
  }

  /** Entry by entry, the waterfall keeps the asset and never raises principal or interest. */
  lemma {:induction false} WaterfallReduces(bs: seq<BorrowedAmount>, remaining: nat, skipOverflowing: bool, k: nat)
    requires k < |bs|
    ensures Reduced(Waterfall(bs, remaining, skipOverflowing).entries[k], bs[k])
    decreases |bs|
  {
    if remaining != 0 {
      var paid := PayEntry(bs[0], remaining, skipOverflowing).paid;
      WaterfallEntry(bs, remaining, skipOverflowing, k);
      if k > 0 {
        WaterfallReduces(bs[1..], remaining - paid, skipOverflowing, k - 1);
        assert bs[1..][k - 1] == bs[k];
      } else {
        PayEntryReduces(bs[0], remaining, skipOverflowing);
      }
    }
  }

  /** Entry `k` of a waterfall that pays: the first entry's payment, or entry `k - 1` of the rest. */
  lemma WaterfallEntry(bs: seq<BorrowedAmount>, remaining: nat, skipOverflowing: bool, k: nat)
    requires remaining != 0 && k < |bs|
    ensures var step := PayEntry(bs[0], remaining, skipOverflowing);
            Waterfall(bs, remaining, skipOverflowing).entries[k]
            == if k == 0 then step.entry
               else Waterfall(bs[1..], remaining - step.paid, skipOverflowing).entries[k - 1]
  {
    var step := PayEntry(bs[0], remaining, skipOverflowing);
    var rest := Waterfall(bs[1..], remaining - step.paid, skipOverflowing).entries;
    assert Waterfall(bs, remaining, skipOverflowing).entries == [step.entry] + rest;
  }

  lemma PayEntryReduces(b: BorrowedAmount, budget: nat, skipOverflowing: bool)
    ensures Reduced(PayEntry(b, budget, skipOverflowing).entry, b)
  {
  }

  /** Without skipped entries, money left over means every entry is paid off. */
  lemma {:induction false} WaterfallClears(bs: seq<BorrowedAmount>, remaining: nat, k: nat)
    requires Waterfall(bs, remaining, false).left > 0 && k < |bs|
    ensures Owed(Waterfall(bs, remaining, false).entries[k]) == 0
    decreases |bs|
  {
    var step := PayEntry(bs[0], remaining, false);
    if k == 0 {
      WaterfallLeftover(bs[1..], remaining - step.paid, false);
    } else {
      WaterfallClears(bs[1..], remaining - step.paid, k - 1);
    }
  }

  /** One step of the waterfall at position `i`. */
  lemma WaterfallUnfold(bs: seq<BorrowedAmount>, i: nat, remaining: nat, skipOverflowing: bool)
    requires i < |bs| && remaining != 0
    ensures Waterfall(bs[i..], remaining, skipOverflowing)
            == Paydown([PayEntry(bs[i], remaining, skipOverflowing).entry]
                       + Waterfall(bs[i + 1..], remaining - PayEntry(bs[i], remaining, skipOverflowing).paid, skipOverflowing).entries,
                       Waterfall(bs[i + 1..], remaining - PayEntry(bs[i], remaining, skipOverflowing).paid, skipOverflowing).left)
  {
    assert bs[i..][0] == bs[i];
    assert bs[i..][1..] == bs[i + 1..];
  }

  /** The body of the debt loop for one entry: the reduction is the entry's whole debt capped by
      what remains (zero for a skipped entry), taken from the interest first. */
  method PayOne(b: BorrowedAmount, remaining: U64, skipOverflowing: bool) returns (nb: BorrowedAmount, reduction: U64)
    ensures Payment(nb, reduction) == PayEntry(b, remaining, skipOverflowing)
  {
    if skipOverflowing && b.amount + b.accruedInterest > U64_MAX {
      reduction := 0;
    } else {
      reduction := Min(remaining, b.amount + b.accruedInterest);
    }
    var interestPayment := Min(reduction, b.accruedInterest);
    var principalPayment := reduction - interestPayment;
    nb := BorrowedAmount(b.assetType, b.amount - principalPayment, b.accruedInterest - interestPayment);
  }

  /** Sequence bookkeeping of one step of `PayDown`. */
  lemma Splice<T>(r: seq<T>, s: seq<T>, i: nat, x: T, tail: seq<T>)
    requires i < |r| == |s| && r[i..] == s[i..]
    ensures r[i := x][i + 1..] == s[i + 1..]
    ensures r[..i] + ([x] + tail) == r[i := x][..i + 1] + tail
  {
    assert r[i := x][..i + 1] == r[..i] + [x];
    assert r[i := x][i + 1..] == r[i + 1..] == s[i + 1..] by {
      assert r[i + 1..] == r[i..][1..];
      assert s[i + 1..] == s[i..][1..];
    }
  }

  /** The debt loop as it runs, from entry `i` with `remaining` left: entries are paid in place. */
  function PayFrom(r: seq<BorrowedAmount>, i: nat, remaining: nat, skipOverflowing: bool): (p: Paydown)
    requires i <= |r|
    decreases |r| - i
  {
    if i == |r| || remaining == 0 then Paydown(r, remaining)
    else
      var step := PayEntry(r[i], remaining, skipOverflowing);
      PayFrom(r[i := step.entry], i + 1, remaining - step.paid, skipOverflowing)
  }

  /** Paying in place from `i` leaves the first `i` entries alone and runs the waterfall on the rest. */
  lemma {:induction false} PayFromIsWaterfall(r: seq<BorrowedAmount>, i: nat, remaining: nat, skipOverflowing: bool)
    requires i <= |r|
    ensures PayFrom(r, i, remaining, skipOverflowing)
            == Paydown(r[..i] + Waterfall(r[i..], remaining, skipOverflowing).entries,
                       Waterfall(r[i..], remaining, skipOverflowing).left)
    decreases |r| - i
  {
    if i == |r| || remaining == 0 {
      assert r[..i] + r[i..] == r;
    } else {
      var step := PayEntry(r[i], remaining, skipOverflowing);
      var rest := Waterfall(r[i + 1..], remaining - step.paid, skipOverflowing);
      PayFromIsWaterfall(r[i := step.entry], i + 1, remaining - step.paid, skipOverflowing);
      WaterfallUnfold(r, i, remaining, skipOverflowing);
      Splice(r, r, i, step.entry, rest.entries);
    }
  }

  /** The debt loop, in place: `for borrow in borrows.iter_mut() { if remaining == 0 { break } ... }`. */
  method PayDown(bs: seq<BorrowedAmount>, budget: U64, skipOverflowing: bool) returns (r: seq<BorrowedAmount>, remaining: U64)
    ensures Paydown(r, remaining) == Waterfall(bs, budget, skipOverflowing)
  {
    r := bs;
    remaining := budget;
    var i := 0;
    PayFromIsWaterfall(bs, 0, budget, skipOverflowing);
    assert bs[..0] + Waterfall(bs, budget, skipOverflowing).entries == Waterfall(bs, budget, skipOverflowing).entries;
    assert bs[0..] == bs;
    while i < |r| && remaining != 0
      invariant i <= |r| == |bs|
      invariant PayFrom(r, i, remaining, skipOverflowing) == Waterfall(bs, budget, skipOverflowing)
    {
      var nb, reduction := PayOne(r[i], remaining, skipOverflowing);
      r := r[i := nb];
      remaining := remaining - reduction;
      i := i + 1;
    }
  }

  // ---------------------------------------------------------------- retain

  /** `Vec::retain`: the entries that satisfy `keep`, in their original order. */
  function Retain<T(!new)>(s: seq<T>, keep: T -> bool): (r: seq<T>)
    ensures |r| <= |s|
    ensures forall x :: x in r <==> x in s && keep(x)
    decreases |s|
  {
    if s == [] then []
    else
      var init := Retain(s[..|s| - 1], keep);
      var last := s[|s| - 1];
      assert forall x :: x in s <==> x in s[..|s| - 1] || x == last;
      if keep(last) then init + [last] else init
  }

  /** The in-place `retain` as a loop. */
  method RetainLoop<T(!new)>(s: seq<T>, keep: T -> bool) returns (r: seq<T>)
    ensures r == Retain(s, keep)
  {
    r := [];
    var i := 0;
    while i < |s|
      invariant 0 <= i <= |s|
      invariant r == Retain(s[..i], keep)
    {
      assert s[..i + 1][..i] == s[..i];
      if keep(s[i]) {
        r := r + [s[i]];
      }
      i := i + 1;
    }
    assert s[..i] == s;
  }

  /** `retain(|c| c.amount > 0)` */
  function NonEmptyCollateral(c: CollateralDeposit): bool { c.amount > 0 }

  /** `retain(|b| b.amount > 0 || b.accrued_interest > 0)` */
  function OutstandingBorrow(b: BorrowedAmount): bool { b.amount > 0 || b.accruedInterest > 0 }

  lemma {:induction false} RetainKeepsDistinctCollaterals(cs: seq<CollateralDeposit>, keep: CollateralDeposit -> bool)
    requires DistinctCollaterals(cs)
    ensures DistinctCollaterals(Retain(cs, keep))
    decreases |cs|
  {
    if cs != [] {
      var init := cs[..|cs| - 1];
      RetainKeepsDistinctCollaterals(init, keep);
      var r := Retain(cs, keep);
      var ri := Retain(init, keep);
      if keep(cs[|cs| - 1]) {
        forall i, j | 0 <= i < j < |r| ensures r[i].assetType != r[j].assetType {
          if j == |ri| {
            assert r[i] in ri;
            var k :| 0 <= k < |init| && init[k] == r[i];
            assert cs[k] == r[i];
          } else {
            assert r[i] == ri[i] && r[j] == ri[j];
          }
        }
      }
    }
  }

  lemma {:induction false} RetainKeepsDistinctBorrows(bs: seq<BorrowedAmount>, keep: BorrowedAmount -> bool)
    requires DistinctBorrows(bs)
    ensures DistinctBorrows(Retain(bs, keep))
    decreases |bs|
  {
    if bs != [] {
      var init := bs[..|bs| - 1];
      RetainKeepsDistinctBorrows(init, keep);
      var r := Retain(bs, keep);
      var ri := Retain(init, keep);
      if keep(bs[|bs| - 1]) {
        forall i, j | 0 <= i < j < |r| ensures r[i].assetType != r[j].assetType {
          if j == |ri| {
            assert r[i] in ri;
            var k :| 0 <= k < |init| && init[k] == r[i];
            assert bs[k] == r[i];
          } else {
            assert r[i] == ri[i] && r[j] == ri[j];
          }
        }
      }
    }
  }

  /** With one entry per asset, dropping empty collateral entries changes no holding. */
  lemma RetainKeepsHeld(cs: seq<CollateralDeposit>, a: AssetType)
    requires DistinctCollaterals(cs)
    ensures Held(Retain(cs, NonEmptyCollateral), a) == Held(cs, a)
  {
    var r := Retain(cs, NonEmptyCollateral);
    RetainKeepsDistinctCollaterals(cs, NonEmptyCollateral);
    var i := CollateralIndex(cs, a);
    if i >= 0 && cs[i].amount > 0 {
      assert cs[i] in r;
      HeldIs(r, a, cs[i]);
    } else {
      forall c | c in r ensures c.assetType != a {
      }
      HeldNone(r, a);
    }
  }

  /** Replacing an entry by one of the same asset keeps one entry per asset. */
  lemma UpdateKeepsDistinct(cs: seq<CollateralDeposit>, i: nat, c: CollateralDeposit)
    requires DistinctCollaterals(cs) && i < |cs| && c.assetType == cs[i].assetType
    ensures DistinctCollaterals(cs[i := c])
  {
  }

  /** Setting the amount of the entry of `SOL` and dropping empty entries: what is held of `SOL` is
      the new amount, and of every other asset what it was. */
  lemma SetSolHeld(cs: seq<CollateralDeposit>, i: nat, amount: U64, a: AssetType)
    requires DistinctCollaterals(cs) && i < |cs| && i == CollateralIndex(cs, SOL)
    ensures Held(Retain(cs[i := CollateralDeposit(SOL, amount)], NonEmptyCollateral), SOL) == amount
    ensures a != SOL ==> Held(Retain(cs[i := CollateralDeposit(SOL, amount)], NonEmptyCollateral), a) == Held(cs, a)
  {
    var r := cs[i := CollateralDeposit(SOL, amount)];
    CollateralIndexIs(r, SOL, i);
    UpdateKeepsDistinct(cs, i, r[i]);
    RetainKeepsHeld(r, SOL);
    if a != SOL {
      CollateralIndexAfterUpdate(cs, i, r[i], a);
      RetainKeepsHeld(r, a);
    }
  }

  /** Dropping settled borrow entries does not change the debt. */
  lemma {:induction false} PruneKeepsDebt(bs: seq<BorrowedAmount>, counted: set<AssetType>)
    ensures DebtValue(Retain(bs, OutstandingBorrow), counted) == DebtValue(bs, counted)
    decreases |bs|
  {
    if bs != [] {
      var init := bs[..|bs| - 1];
      PruneKeepsDebt(init, counted);
      var ri := Retain(init, OutstandingBorrow);
      if OutstandingBorrow(bs[|bs| - 1]) {
        assert (ri + [bs[|bs| - 1]])[..|ri|] == ri;
      }
    }
  }
}
