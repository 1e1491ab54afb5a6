/** The Pyth oracle adapter (`legasi-core/src/pyth.rs`): a price record read from fixed offsets of
    an account's bytes, its rescaling to six decimals, and the staleness and confidence gates.

    `price * 10^expo` is the price in USD. The record's fields are little-endian: an `i64` price at
    byte 208, a `u64` confidence interval at 216, an `i32` exponent at 224 and an `i64` publish time
    at 232 (bytes 228..232 are not read). */
module Pyth {
  import opened Num
  import opened Errors

  /** `PythPrice` */
  datatype PythPrice = PythPrice(price: I64, conf: U64, expo: I32, publishTime: I64)

  const MAX_PRICE_AGE: int := 60
  const MAX_CONFIDENCE_BPS: int := 500
  const RECORD_LENGTH: int := 240

  // ---------------------------------------------------------------- little-endian bytes

  function Pow256(n: nat): (r: nat)
    ensures r >= 1
  {
    if n == 0 then 1 else 256 * Pow256(n - 1)
  }

  lemma Pow256Values()
    ensures Pow256(4) == U32_LIMIT && Pow256(8) == U64_LIMIT
  {
    assert Pow256(1) == 256;
    assert Pow256(2) == 0x1_0000;
    assert Pow256(3) == 0x100_0000;
    assert Pow256(4) == 0x1_0000_0000;
    assert Pow256(5) == 0x100_0000_0000;
    assert Pow256(6) == 0x1_0000_0000_0000;
    assert Pow256(7) == 0x100_0000_0000_0000;
  }

  /** The unsigned value of little-endian bytes (`uN::from_le_bytes`). */
  function LeValue(bs: seq<U8>): (n: nat)
    ensures n < Pow256(|bs|)
    decreases |bs|
  {
    if bs == [] then 0 else bs[0] + 256 * LeValue(bs[1..])
  }

  /** The `n` little-endian bytes of `x` (`uN::to_le_bytes`). */
  function LeBytes(x: nat, n: nat): (bs: seq<U8>)
    requires x < Pow256(n)
    ensures |bs| == n
    decreases n
  {
    if n == 0 then []
    else
      DivStrict(x, Pow256(n - 1), 256);
      [x % 256] + LeBytes(x / 256, n - 1)
  }

  /** A quotient is below `c` when the dividend is below `c` times the divisor. */
  lemma DivStrict(a: nat, c: nat, d: nat)
    requires d > 0 && a < d * c
    ensures a / d < c
  {
    var q := a / d;
    assert q * d <= a;
    if q >= c {
      MulMonotone(c, q, d);
    }
  }

  /** Reading back the bytes of a value gives the value. */
  lemma {:induction false} LeRoundTrip(x: nat, n: nat)
    requires x < Pow256(n)
    ensures LeValue(LeBytes(x, n)) == x
    decreases n
  {
    if n > 0 {
      var bs := LeBytes(x, n);
      DivStrict(x, Pow256(n - 1), 256);
      LeRoundTrip(x / 256, n - 1);
      assert bs[1..] == LeBytes(x / 256, n - 1);
    }
  }

  /** `i32::from_le_bytes` on the unsigned value of the four bytes */
  function U32AsI32(x: U32): (r: I32)
    ensures x <= I32_MAX ==> r == x
    ensures x > I32_MAX ==> r == x - U32_LIMIT
  {
    if x <= I32_MAX then x else x - U32_LIMIT
  }

  /** Two's complement bit patterns of the signed widths */
  function I64Bits(v: I64): (x: U64)
    ensures U64AsI64(x) == v
  {
    if v < 0 then v + U64_LIMIT else v
  }

  function I32Bits(v: I32): (x: U32)
    ensures U32AsI32(x) == v
  {
    if v < 0 then v + U32_LIMIT else v
  }

  // ---------------------------------------------------------------- the record

  /** `parse_pyth_price`: `None` for data shorter than the record, else the four fields. */
  function ParsePythPrice(data: seq<U8>): (r: Option<PythPrice>)
    ensures r.None? <==> |data| < RECORD_LENGTH
  {
    if |data| < RECORD_LENGTH then None
    else
      Pow256Values();
      Some(PythPrice(U64AsI64(LeValue(data[208..216])), LeValue(data[216..224]),
                     U32AsI32(LeValue(data[224..228])), U64AsI64(LeValue(data[232..240]))))
  }

  /** The record written into an account's bytes: the fields at their offsets, every other byte
      of `data` kept. */
  function EncodePythPrice(p: PythPrice, data: seq<U8>): (r: seq<U8>)
    requires |data| >= RECORD_LENGTH
    ensures |r| == |data|
    ensures r[..208] == data[..208] && r[228..232] == data[228..232] && r[240..] == data[240..]
  {
    Pow256Values();
    var price, conf, expo, time := LeBytes(I64Bits(p.price), 8), LeBytes(p.conf, 8),
                                   LeBytes(I32Bits(p.expo), 4), LeBytes(I64Bits(p.publishTime), 8);
    LayoutKeeps(data[..208], price, conf, expo, data[228..232], time, data[240..]);
    data[..208] + price + conf + expo + data[228..232] + time + data[240..]
  }

  /** The bytes a record layout keeps around its fields. */
  lemma LayoutKeeps(a: seq<U8>, b: seq<U8>, c: seq<U8>, d: seq<U8>, g: seq<U8>, t: seq<U8>, z: seq<U8>)
    requires |a| == 208 && |b| == 8 && |c| == 8 && |d| == 4 && |g| == 4 && |t| == 8
    ensures |a + b + c + d + g + t + z| == 240 + |z|
    ensures (a + b + c + d + g + t + z)[..208] == a
    ensures (a + b + c + d + g + t + z)[228..232] == g
    ensures (a + b + c + d + g + t + z)[240..] == z
  {
    var e := a + b + c + d + g + t + z;
    assert forall i | 0 <= i < 208 :: e[i] == a[i];
    assert forall i | 0 <= i < 4 :: e[228 + i] == g[i];
    assert forall i | 0 <= i < |z| :: e[240 + i] == z[i];
  }

  /** Where the pieces of a record layout sit. */
  lemma Layout(a: seq<U8>, b: seq<U8>, c: seq<U8>, d: seq<U8>, g: seq<U8>, t: seq<U8>, z: seq<U8>)
    requires |a| == 208 && |b| == 8 && |c| == 8 && |d| == 4 && |g| == 4 && |t| == 8
    ensures (a + b + c + d + g + t + z)[208..216] == b
    ensures (a + b + c + d + g + t + z)[216..224] == c
    ensures (a + b + c + d + g + t + z)[224..228] == d
    ensures (a + b + c + d + g + t + z)[232..240] == t
  {
    var e := a + b + c + d + g + t + z;
    assert forall i | 0 <= i < 8 :: e[208 + i] == b[i];
    assert forall i | 0 <= i < 8 :: e[216 + i] == c[i];
    assert forall i | 0 <= i < 4 :: e[224 + i] == d[i];
    assert forall i | 0 <= i < 8 :: e[232 + i] == t[i];
  }

  /** The encoded record holds each field's bytes at its offset. */
  lemma EncodedFields(p: PythPrice, data: seq<U8>)
    requires |data| >= RECORD_LENGTH
    ensures Pow256(8) == U64_LIMIT && Pow256(4) == U32_LIMIT
    ensures EncodePythPrice(p, data)[208..216] == LeBytes(I64Bits(p.price), 8)
    ensures EncodePythPrice(p, data)[216..224] == LeBytes(p.conf, 8)
    ensures EncodePythPrice(p, data)[224..228] == LeBytes(I32Bits(p.expo), 4)
    ensures EncodePythPrice(p, data)[232..240] == LeBytes(I64Bits(p.publishTime), 8)
  {
    Pow256Values();
    Layout(data[..208], LeBytes(I64Bits(p.price), 8), LeBytes(p.conf, 8), LeBytes(I32Bits(p.expo), 4),
           data[228..232], LeBytes(I64Bits(p.publishTime), 8), data[240..]);
  }

  /** Parsing what was encoded gives back the record. */
  lemma ParseEncode(p: PythPrice, data: seq<U8>)
    requires |data| >= RECORD_LENGTH
    ensures ParsePythPrice(EncodePythPrice(p, data)) == Some(p)
  {
    EncodedFields(p, data);
    LeRoundTrip(I64Bits(p.price), 8);
    LeRoundTrip(p.conf, 8);
    LeRoundTrip(I32Bits(p.expo), 4);
    LeRoundTrip(I64Bits(p.publishTime), 8);
  }

  /** Only the bytes of the four fields decide the parsed record. */
  lemma ParseReadsOnlyFields(d1: seq<U8>, d2: seq<U8>)
    requires |d1| >= RECORD_LENGTH && |d2| >= RECORD_LENGTH
    requires d1[208..228] == d2[208..228] && d1[232..240] == d2[232..240]
    ensures ParsePythPrice(d1) == ParsePythPrice(d2)
  {
    forall i | 208 <= i < 228
      ensures d1[i] == d2[i]
    {
      assert d1[i] == d1[208..228][i - 208];
    }
    assert d1[208..216] == d2[208..216];
    assert d1[216..224] == d2[216..224];
    assert d1[224..228] == d2[224..228];
  }

  // ---------------------------------------------------------------- conversions

  /** `PythPrice::to_usd_6dec`: 0 for a non-positive price; otherwise the price rescaled from
      `10^expo` to `10^-6`: divided (truncating) by `10^(-6-expo)`, or multiplied by `10^(6+expo)` with
      0 on `u128` overflow; the result is cast `as u64`. The exponent arithmetic (`6 - (-expo)` on
      `i32`, `10u128.pow(k)` for `k >= 39`) panics outside `-44 <= expo <= 32`. */
  function ToUsd6Dec(p: PythPrice): (r: Result<U64>)
    ensures p.price <= 0 ==> r == Ok(0)
    ensures r.Err? <==> p.price > 0 && !(-44 <= p.expo <= 32)
    ensures r.Err? ==> r.error == ArithmeticPanic
  {
    if p.price <= 0 then Ok(0)
    else if p.expo == I32_MIN || 6 + p.expo > I32_MAX then Err(ArithmeticPanic)
    else
      var adjustment := 6 + p.expo;
      if adjustment > 0 then
        if adjustment >= 39 then Err(ArithmeticPanic)
        else
          var scaled := ScaleUp(p.price, adjustment);
          Ok(WrapU64(if scaled <= U128_MAX then scaled else 0))
      else if adjustment < 0 then
        if -adjustment >= 39 then Err(ArithmeticPanic)
        else Ok(WrapU64(ScaleDown(p.price, -adjustment)))
      else Ok(p.price)
  }

  /** `price * 10^k`, the unchecked `u128` product before its overflow test. */
  function ScaleUp(price: nat, k: nat): nat
  {
    price * Pow10(k)
  }

  /** `price / 10^k`, truncating. */
  function ScaleDown(price: nat, k: nat): nat
  {
    var divisor := Pow10(k);
    DivNonNegative(price, divisor);
    price / divisor
  }

  /** At the usual negative exponents the price is divided by `10^(-6-expo)`, truncating. */
  lemma ToUsd6DecDivides(p: PythPrice)
    requires p.price > 0 && -44 <= p.expo <= -6
    ensures ToUsd6Dec(p) == Ok(p.price / Pow10(-6 - p.expo))
  {
    var divisor := Pow10(-6 - p.expo);
    MulMonotone(1, divisor, p.price);
    DivBelow(p.price, p.price, divisor);
    if p.expo == -6 {
      assert divisor == 1;
    }
  }

  /** Above exponent -6 the price is multiplied by `10^(6+expo)`: exactly where the product fits a
      `u64`, and 0 where it overflows the `u128`. */
  lemma ToUsd6DecMultiplies(p: PythPrice)
    requires p.price > 0 && -6 <= p.expo <= 32
    ensures p.price * Pow10(6 + p.expo) <= U64_MAX ==> ToUsd6Dec(p) == Ok(p.price * Pow10(6 + p.expo))
    ensures p.price * Pow10(6 + p.expo) > U128_MAX ==> ToUsd6Dec(p) == Ok(0)
  {
    if p.expo == -6 {
      assert Pow10(0) == 1;
    }
  }

  /** Rescaling down truncates: scaled back up, the 6-decimal price is within one unit of the
      oracle's price. */
  lemma ToUsd6DecTruncates(p: PythPrice)
    requires p.price > 0 && -44 <= p.expo <= -6
    ensures ToUsd6Dec(p).Ok?
    ensures ToUsd6Dec(p).value * Pow10(-6 - p.expo) <= p.price < (ToUsd6Dec(p).value + 1) * Pow10(-6 - p.expo)
  {
    ToUsd6DecDivides(p);
    FloorBounds(p.price, Pow10(-6 - p.expo));
  }

  /** A higher oracle price never converts to a lower 6-decimal price (for the usual negative
      exponents). */
  lemma ToUsd6DecMonotone(p: PythPrice, q: PythPrice)
    requires p.expo == q.expo && -44 <= p.expo <= -6 && p.price <= q.price
    ensures ToUsd6Dec(p).Ok? && ToUsd6Dec(q).Ok? && ToUsd6Dec(p).value <= ToUsd6Dec(q).value
  {
    if p.price > 0 {
      ToUsd6DecDivides(p);
      ToUsd6DecDivides(q);
      DivMonotone(p.price, q.price, Pow10(-6 - p.expo));
    } else {
      assert ToUsd6Dec(p) == Ok(0);
      if q.price > 0 {
        ToUsd6DecDivides(q);
      }
    }
  }

  /** The conversion the unit test pins down: $150 at exponent -8. */
  lemma ToUsd6DecExample()
    ensures ToUsd6Dec(PythPrice(15_000_000_000, 50_000_000, -8, 0)) == Ok(150_000_000)
  {
  }

  /** `PythPrice::is_stale`: older than `max_age`. The `i64` subtraction `now - publish_time` panics
      when it leaves the `i64` range. */
  function IsStale(p: PythPrice, now: I64, maxAge: I64): (r: Result<bool>)
    ensures r.Err? <==> !(I64_MIN <= now - p.publishTime <= I64_MAX)
    ensures r.Err? ==> r.error == ArithmeticPanic
    ensures r.Ok? ==> (r.value <==> now - p.publishTime > maxAge)
  {
    match CheckedSubI64(now, p.publishTime)
    case None => Err(ArithmeticPanic)
    case Some(age) => Ok(age > maxAge)
  }

  /** A price exactly `max_age` old is still fresh, and a stale price stays stale as time goes on. */
  lemma StaleBoundary(p: PythPrice, now: I64, later: I64, maxAge: I64)
    requires now - p.publishTime == maxAge && now <= later && IsStale(p, later, maxAge).Ok?
    ensures IsStale(p, now, maxAge) == Ok(false)
    ensures IsStale(p, later, maxAge) == Ok(later > now)
  {
  }

  /** `PythPrice::confidence_bps` as written: `(conf * 10000 / price) as u64`, 10000 for a
      non-positive price. The cast keeps only the low 64 bits of the quotient. */
  function ConfidenceBpsAsWritten(p: PythPrice): (r: U64)
    ensures p.price <= 0 ==> r == 10000
    ensures p.price > 0 && p.conf * 10000 / p.price <= U64_MAX ==> r == p.conf * 10000 / p.price
  {
    if p.price <= 0 then 10000 else WrapU64(p.conf * 10000 / p.price)
  }

  /** The confidence interval in basis points of the price, saturating at `u64::MAX` instead of
      wrapping, so that a wide interval can never pass as a narrow one. */
  function ConfidenceBps(p: PythPrice): (r: U64)
    ensures p.price <= 0 ==> r == 10000
    ensures p.price > 0 ==> r <= p.conf * 10000 / p.price
    ensures p.price > 0 && p.conf * 10000 / p.price <= U64_MAX ==> r == ConfidenceBpsAsWritten(p)
  {
    if p.price <= 0 then 10000 else Min(p.conf * 10000 / p.price, U64_MAX)
  }

  /** The confidence gate of the price sync admits a record exactly when its price is positive and
      its interval is below 5.01 % of it. */
  lemma ConfidenceGate(p: PythPrice)
    ensures ConfidenceBps(p) <= MAX_CONFIDENCE_BPS <==> p.price > 0 && p.conf * 10000 < 501 * p.price
  {
    if p.price > 0 {
      QuotientAtMost(p.conf * 10000, 500, p.price);
    }
  }

  /** While the quotient fits in a `u64`, the gate as written is the same test. */
  lemma ConfidenceGateAsWritten(p: PythPrice)
    requires p.price > 0 && p.conf * 10000 / p.price <= U64_MAX
    ensures ConfidenceBpsAsWritten(p) <= MAX_CONFIDENCE_BPS <==> p.conf * 10000 < 501 * p.price
  {
    ConfidenceGate(p);
  }

  /** `a / d <= c` exactly when `a < (c + 1) * d`. */
  lemma QuotientAtMost(a: nat, c: nat, d: nat)
    requires d > 0
    ensures a / d <= c <==> a < (c + 1) * d
  {
    var q := a / d;
    assert a == q * d + a % d;
    assert (q + 1) * d == q * d + d;
    if q <= c {
      MulMonotone(q + 1, c + 1, d);
    } else {
      MulMonotone(c + 1, q, d);
    }
  }

  /** The wrap of the cast: an interval 2^60 times the price reads as 0 basis points and passes the
      5 % gate, where the saturating reading refuses it. */
  lemma ConfidenceWraps(p: PythPrice)
    requires p.price == 1 && p.conf == 0x1000_0000_0000_0000
    ensures ConfidenceBpsAsWritten(p) == 0
    ensures ConfidenceBps(p) == U64_MAX
  {
  }

  /** The value the unit test pins down: an interval of 1 % is 100 basis points. */
  lemma ConfidenceExample()
    ensures ConfidenceBps(PythPrice(100_000_000, 1_000_000, -8, 0)) == 100
  {
  }
}
