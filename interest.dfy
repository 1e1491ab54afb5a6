/** The two-slope interest-rate curve of the lending pools (`legasi-core/src/interest.rs`).

    Rates are annual, in basis points. Utilisation is `borrowed * 10000 / deposits`, computed in
    `u128` and cast back `as u64`; below the optimal utilisation of 80 % the rate climbs gently
    from 3 % to 11 %, above it steeply by 75 % over the last 20 % of utilisation. */
module Interest {
  import opened Num

  const BASE_RATE_BPS: int := 300
  const SLOPE1_BPS: int := 800
  const SLOPE2_BPS: int := 7500
  const OPTIMAL_UTILIZATION_BPS: int := 8000
  const PROTOCOL_FEE_BPS: int := 2000

  /** Utilisation in basis points of a pool with deposits: `(borrowed as u128 * 10000 / deposits) as u64`.
      The product cannot saturate a `u128`; the cast keeps the low 64 bits. */
  function Utilization(totalDeposits: U64, totalBorrowed: U64): (u: U64)
    requires totalDeposits > 0
    ensures totalBorrowed * 10000 / totalDeposits <= U64_MAX ==> u == totalBorrowed * 10000 / totalDeposits
  {
    WrapU64(totalBorrowed * 10000 / totalDeposits)
  }

  /** While the debt is covered by the deposits, utilisation stays within 100 %. */
  lemma UtilizationBounded(totalDeposits: U64, totalBorrowed: U64)
    requires 0 < totalDeposits && totalBorrowed <= totalDeposits
    ensures Utilization(totalDeposits, totalBorrowed) <= 10000
  {
    MulMonotone(totalBorrowed, totalDeposits, 10000);
    DivBelow(totalBorrowed * 10000, 10000, totalDeposits);
  }

  /** More debt against the same deposits never lowers the utilisation, while it stays covered. */
  lemma UtilizationMonotone(totalDeposits: U64, b1: U64, b2: U64)
    requires 0 < totalDeposits && b1 <= b2 <= totalDeposits
    ensures Utilization(totalDeposits, b1) <= Utilization(totalDeposits, b2) <= 10000
  {
    ScaledQuotientsOrdered(b1, b2, 10000, totalDeposits);
  }

  /** The rate at a given utilisation: the two branches of `calculate_borrow_rate`. Every `u128`
      product fits, the quotient of the steep branch is cast `as u64`, and the additions saturate. */
  function RateAt(u: U64): (rate: U64)
    ensures u <= OPTIMAL_UTILIZATION_BPS ==> rate == BASE_RATE_BPS + u * SLOPE1_BPS / OPTIMAL_UTILIZATION_BPS
    ensures u <= OPTIMAL_UTILIZATION_BPS ==> BASE_RATE_BPS <= rate <= BASE_RATE_BPS + SLOPE1_BPS
    ensures u > OPTIMAL_UTILIZATION_BPS ==> rate >= BASE_RATE_BPS + SLOPE1_BPS
  {
    if u <= OPTIMAL_UTILIZATION_BPS then
      var increase := WrapU64(u * SLOPE1_BPS / OPTIMAL_UTILIZATION_BPS);
      SatAddU64(BASE_RATE_BPS, increase)
    else
      var excess := SatSub(u, OPTIMAL_UTILIZATION_BPS);
      var span := SatSub(10000, OPTIMAL_UTILIZATION_BPS);
      var steep := WrapU64(excess * SLOPE2_BPS / span);
      SatAddU64(SatAddU64(BASE_RATE_BPS, SLOPE1_BPS), steep)
  }

  /** `calculate_borrow_rate`: the base rate for an empty pool, else the curve at the utilisation. */
  function BorrowRate(totalDeposits: U64, totalBorrowed: U64): (rate: U64)
    ensures totalDeposits == 0 ==> rate == BASE_RATE_BPS
    ensures totalDeposits > 0 ==> rate == RateAt(Utilization(totalDeposits, totalBorrowed))
    ensures rate >= BASE_RATE_BPS
  {
    if totalDeposits == 0 then BASE_RATE_BPS
    else RateAt(Utilization(totalDeposits, totalBorrowed))
  }

  /** Utilisations up to which the steep branch's `as u64` cast keeps the whole quotient. */
  predicate NoWrap(u: int) {
    u <= OPTIMAL_UTILIZATION_BPS || (u - OPTIMAL_UTILIZATION_BPS) * SLOPE2_BPS / 2000 <= U64_MAX - 1100
  }

  /** The curve is continuous at the kink: 80 % gives 3 % + 8 %, and the steep branch starts there. */
  lemma RateAtKink()
    ensures RateAt(OPTIMAL_UTILIZATION_BPS) == BASE_RATE_BPS + SLOPE1_BPS
    ensures RateAt(OPTIMAL_UTILIZATION_BPS + 1) == BASE_RATE_BPS + SLOPE1_BPS + SLOPE2_BPS / 2000
  {
  }

  /** The rate never falls as utilisation grows, as long as the steep branch's cast does not wrap
      (it can only wrap past 4.9e18 % utilisation, that is with debt far beyond the deposits). */
  lemma {:induction false} RateAtMonotone(u: U64, v: U64)
    requires u <= v && NoWrap(v)
    ensures RateAt(u) <= RateAt(v)
  {
    if v > OPTIMAL_UTILIZATION_BPS {
      var ev := v - OPTIMAL_UTILIZATION_BPS;
      assert RateAt(v) == 1100 + ev * SLOPE2_BPS / 2000;
      if u > OPTIMAL_UTILIZATION_BPS {
        var eu := u - OPTIMAL_UTILIZATION_BPS;
        DivMonotone(eu * SLOPE2_BPS, ev * SLOPE2_BPS, 2000);
        assert RateAt(u) == 1100 + eu * SLOPE2_BPS / 2000;
      }
    } else {
      DivMonotone(u * SLOPE1_BPS, v * SLOPE1_BPS, OPTIMAL_UTILIZATION_BPS);
    }
  }

  /** For a pool whose debt does not exceed its deposits, more debt never lowers the borrow rate. */
  lemma BorrowRateMonotone(totalDeposits: U64, b1: U64, b2: U64)
    requires b1 <= b2 <= totalDeposits
    ensures BorrowRate(totalDeposits, b1) <= BorrowRate(totalDeposits, b2)
  {
    if totalDeposits > 0 {
      var u1, u2 := Utilization(totalDeposits, b1), Utilization(totalDeposits, b2);
      UtilizationMonotone(totalDeposits, b1, b2);
      RateAtMonotone(u1, u2);
    }
  }

  /** `calculate_supply_rate`: the borrow rate scaled by utilisation (quotient cast `as u64`), then
      net of the protocol's 20 % (a saturating `u64` product). */
  function SupplyRate(totalDeposits: U64, totalBorrowed: U64): (rate: U64)
    ensures totalDeposits == 0 ==> rate == 0
    ensures rate <= U64_MAX / 10000 + 1
  {
    if totalDeposits == 0 then 0
    else
      var borrowRate := BorrowRate(totalDeposits, totalBorrowed);
      var u := Utilization(totalDeposits, totalBorrowed);
      var gross := WrapU64(borrowRate * u / 10000);
      Min(gross * (10000 - PROTOCOL_FEE_BPS), U64_MAX) / 10000
  }

  /** Lenders never earn more than borrowers pay, while the debt is covered by the deposits. */
  lemma SupplyBelowBorrow(totalDeposits: U64, totalBorrowed: U64)
    requires totalBorrowed <= totalDeposits
    ensures SupplyRate(totalDeposits, totalBorrowed) <= BorrowRate(totalDeposits, totalBorrowed)
  {
    if totalDeposits > 0 {
      var b := BorrowRate(totalDeposits, totalBorrowed);
      var u := Utilization(totalDeposits, totalBorrowed);
      UtilizationBounded(totalDeposits, totalBorrowed);
      MulMonotone(u, 10000, b);
      DivBelow(b * u, b, 10000);
      var gross := b * u / 10000;
      MulMonotone(10000 - PROTOCOL_FEE_BPS, 10000, gross);
      DivBelow(Min(gross * (10000 - PROTOCOL_FEE_BPS), U64_MAX), gross, 10000);
    }
  }

  /** `calculate_protocol_fee`: 20 % of the interest (a saturating `u64` product), never more than it. */
  function ProtocolFee(interest: U64): (fee: U64)
    ensures fee <= interest
    ensures interest * PROTOCOL_FEE_BPS <= U64_MAX ==> fee == interest * PROTOCOL_FEE_BPS / 10000
  {
    Min(interest * PROTOCOL_FEE_BPS, U64_MAX) / 10000
  }

  /** The values the unit tests of the rate curve pin down. */
  lemma RateExamples()
    ensures BorrowRate(1000, 0) == 300
    ensures 300 < BorrowRate(1000, 500) < 1100
    ensures BorrowRate(1000, 800) == 1100
    ensures BorrowRate(1000, 950) > 1100
    ensures SupplyRate(1000, 500) < BorrowRate(1000, 500)
  {
    assert Utilization(1000, 500) == 5000;
    assert Utilization(1000, 950) == 9500;
  }
}
