/** Fixed-width integers of the on-chain programs and the arithmetic they use on them.

    Every value the programs store is a Rust `u8`..`u128`, `i32` or `i64`. Here each width is a
    subset of `int`, and each Rust operation is written out:
    - `checked_*` gives `None` where Rust returns `None` (the programs turn it into `MathOverflow`);
    - `saturating_*` clamps to the bounds of the width;
    - `as uN` keeps the low N bits (`Wrap*`), and `as iN` reinterprets them as two's complement.
 */
module Num {

  const U8_LIMIT: int := 0x100
  const U16_LIMIT: int := 0x1_0000
  const U32_LIMIT: int := 0x1_0000_0000
  const U64_LIMIT: int := 0x1_0000_0000_0000_0000
  const U128_LIMIT: int := 0x1_0000_0000_0000_0000_0000_0000_0000_0000

  const U16_MAX: int := U16_LIMIT - 1
  const U32_MAX: int := U32_LIMIT - 1
  const U64_MAX: int := U64_LIMIT - 1
  const U128_MAX: int := U128_LIMIT - 1

  const I32_MIN: int := -0x8000_0000
  const I32_MAX: int := 0x7fff_ffff
  const I64_MIN: int := -0x8000_0000_0000_0000
  const I64_MAX: int := 0x7fff_ffff_ffff_ffff

  type U8 = x: int | 0 <= x < U8_LIMIT
  type U16 = x: int | 0 <= x < U16_LIMIT
  type U32 = x: int | 0 <= x < U32_LIMIT
  type U64 = x: int | 0 <= x < U64_LIMIT
  type U128 = x: int | 0 <= x < U128_LIMIT
  type I32 = x: int | I32_MIN <= x <= I32_MAX
  type I64 = x: int | I64_MIN <= x <= I64_MAX

  datatype Option<+T> = None | Some(value: T)

  function Min(a: int, b: int): int { if a <= b then a else b }
  function Max(a: int, b: int): int { if a >= b then a else b }

  /** `u64::saturating_add` */
  function SatAddU64(a: U64, b: U64): (r: U64)
    ensures r == Min(a + b, U64_MAX)
  {
    if a + b <= U64_MAX then a + b else U64_MAX
  }

  /** `u64::saturating_sub` (also used for u16/u32 operands, which cannot go below 0 either) */
  function SatSub(a: nat, b: nat): (r: nat)
    ensures r == Max(a - b, 0) && r <= a
  {
    if a >= b then a - b else 0
  }

  /** `u32::saturating_add` */
  function SatAddU32(a: U32, b: U32): (r: U32)
    ensures r == Min(a + b, U32_MAX)
  {
    if a + b <= U32_MAX then a + b else U32_MAX
  }

  /** `u16::saturating_add` */
  function SatAddU16(a: U16, b: U16): (r: U16)
    ensures r == Min(a + b, U16_MAX)
  {
    if a + b <= U16_MAX then a + b else U16_MAX
  }

  /** `i64::saturating_sub` */
  function SatSubI64(a: I64, b: I64): (r: I64)
    ensures I64_MIN <= a - b <= I64_MAX ==> r == a - b
    ensures a - b > I64_MAX ==> r == I64_MAX
    ensures a - b < I64_MIN ==> r == I64_MIN
  {
    if a - b > I64_MAX then I64_MAX else if a - b < I64_MIN then I64_MIN else a - b
  }

  /** `i64::checked_sub` */
  function CheckedSubI64(a: I64, b: I64): (r: Option<I64>)
    ensures r.Some? <==> I64_MIN <= a - b <= I64_MAX
    ensures r.Some? ==> r.value == a - b
  {
    if I64_MIN <= a - b <= I64_MAX then Some(a - b) else None
  }

  /** `u64::checked_add` */
  function CheckedAddU64(a: U64, b: U64): (r: Option<U64>)
    ensures r.Some? <==> a + b <= U64_MAX
    ensures r.Some? ==> r.value == a + b
  {
    if a + b <= U64_MAX then Some(a + b) else None
  }

  /** `u64::checked_mul` */
  function CheckedMulU64(a: U64, b: U64): (r: Option<U64>)
    ensures r.Some? <==> a * b <= U64_MAX
    ensures r.Some? ==> r.value == a * b
  {
    if a * b <= U64_MAX then Some(a * b) else None
  }

  /** `u128::checked_mul` */
  function CheckedMulU128(a: U128, b: U128): (r: Option<U128>)
    ensures r.Some? <==> a * b <= U128_MAX
    ensures r.Some? ==> r.value == a * b
  {
    if a * b <= U128_MAX then Some(a * b) else None
  }

  /** `x as u64` for a non-negative `x`: keeps the low 64 bits */
  function WrapU64(x: nat): (r: U64)
    ensures x <= U64_MAX ==> r == x
    ensures r <= x
  {
    x % U64_LIMIT
  }

  /** `x as u16` for a non-negative `x` */
  function WrapU16(x: nat): (r: U16)
    ensures x <= U16_MAX ==> r == x
    ensures r <= x
  {
    x % U16_LIMIT
  }

  /** `x as i64` for `x: u64`: reinterprets the 64 bits as two's complement */
  function U64AsI64(x: U64): (r: I64)
    ensures x <= I64_MAX ==> r == x
    ensures x > I64_MAX ==> r == x - U64_LIMIT
  {
    if x <= I64_MAX then x else x - U64_LIMIT
  }

  /** `x as u128` for `x: i64` with `x >= 0` (every use in the programs is guarded so) */
  function I64AsU128(x: I64): (r: U128)
    requires x >= 0
    ensures r == x
  {
    x
  }

  /** 10 to the power `k` */
  function Pow10(k: nat): (r: nat)
    ensures r >= 1
  {
    if k == 0 then 1 else 10 * Pow10(k - 1)
  }

  /** Pow10 grows with its exponent */
  lemma {:induction false} Pow10Monotone(j: nat, k: nat)
    requires j <= k
    ensures Pow10(j) <= Pow10(k)
  {
    if j < k {
      Pow10Monotone(j, k - 1);
    }
  }

  // ---------------------------------------------------------------- arithmetic facts

  /** Multiplying by a natural number keeps the order. */
  lemma MulMonotone(x: nat, y: nat, z: nat)
    ensures x <= y ==> x * z <= y * z
  {
    if x <= y {
      var k := y - x;
      assert y * z == x * z + k * z;
      assert k * z >= 0;
    }
  }

  /** The product of two `u64` values fits in a `u128`. */
  lemma ProductFits(a: U64, b: U64)
    ensures a * b <= U128_MAX
  {
    MulMonotone(a, U64_MAX, b);
    MulMonotone(b, U64_MAX, U64_MAX);
  }

  /** A truncated quotient is the largest multiple of the divisor within the dividend. */
  lemma FloorBounds(x: nat, d: nat)
    requires d > 0
    ensures (x / d) * d <= x < (x / d + 1) * d
  {
    assert x == (x / d) * d + x % d;
    assert (x / d + 1) * d == (x / d) * d + d;
  }

  /** A truncated quotient of naturals is natural (stated apart so callers need not re-derive it). */
  lemma DivNonNegative(a: nat, d: nat)
    requires d > 0
    ensures a / d >= 0
  {
  }

  /** A quotient is at most `c` when the dividend is at most `c` times the divisor. */
  lemma DivBelow(a: nat, c: nat, d: nat)
    requires d > 0 && a <= c * d
    ensures a / d <= c
  {
    var q := a / d;
    assert q * d <= a;
    assert (c + 1) * d == c * d + d;
    if q > c {
      MulMonotone(c + 1, q, d);
    }
  }

  /** Scaled by `k` and divided by `d`, two values up to `d` keep their order and stay within `k`. */
  lemma ScaledQuotientsOrdered(b1: nat, b2: nat, k: nat, d: nat)
    requires 0 < d && b1 <= b2 <= d
    ensures b1 * k / d <= b2 * k / d <= k
  {
    var p1, p2 := b1 * k, b2 * k;
    MulMonotone(b1, b2, k);
    MulMonotone(b2, d, k);
    DivMonotone(p1, p2, d);
    DivBelow(p2, k, d);
  }

  /** Dividing by the same positive number keeps the order. */
  lemma DivMonotone(a: nat, b: nat, d: nat)
    requires a <= b && d > 0
    ensures a / d <= b / d
  {
    var p := b / d;
    assert b == p * d + b % d;
    assert (p + 1) * d == p * d + d;
    var q := a / d;
    assert q * d <= a;
    if q > p {
      MulMonotone(p + 1, q, d);
    }
  }

  /** Multiplying and then dividing by the same positive number gives the number back. */
  lemma MulDivCancel(k: nat, c: nat)
    requires c > 0
    ensures k * c / c == k
  {
    var q := k * c / c;
    assert k * c == q * c + (k * c) % c;
    assert (q + 1) * c == q * c + c;
    assert (k + 1) * c == k * c + c;
    if q < k {
      MulMonotone(q + 1, k, c);
    } else if q > k {
      MulMonotone(k + 1, q, c);
    }
  }

  /** A natural number whose multiple by `s` stays within `x` is at most `x / s`. */
  lemma QuotientAtLeast(q: nat, x: nat, s: nat)
    requires s > 0 && q * s <= x
    ensures q <= x / s
  {
    DivMonotone(q * s, x, s);
    MulDivCancel(q, s);
  }

  /** Anything up to a truncated quotient, multiplied back, stays within the dividend. */
  lemma TruncatedProduct(w: nat, x: nat, d: nat)
    requires d > 0 && w <= x / d
    ensures w * d <= x
  {
    var q := x / d;
    assert x == q * d + x % d;
    MulMonotone(w, q, d);
  }

  /** A positive factor common to both sides can be cancelled. */
  lemma MulCancel(x: nat, y: nat, c: nat)
    requires c > 0 && x * c <= y * c
    ensures x <= y
  {
    assert (y + 1) * c == y * c + c;
    if x > y {
      MulMonotone(y + 1, x, c);
    }
  }
}
