/** Checks on an x402 payment request (`legasi-lending/src/x402.rs`). x402 is the machine-to-machine
    payment convention built on HTTP status 402 "Payment Required" (section 15.5.3 of RFC 9110);
    the lending program only checks the request record it is given. */
module X402 {
  import opened Num
  import opened State

  /** The largest amount a request may carry, exclusive: one million units of a six-decimal stablecoin. */
  const MAX_REQUEST_AMOUNT: int := 1_000_000_000_000

  /** `X402PaymentRequest`; the payment id and callback hash are opaque 32-byte values. */
  datatype PaymentRequest = PaymentRequest(
    recipient: Pubkey,
    amount: U64,
    asset: U8,
    paymentId: seq<U8>,
    expiresAt: I64,
    callbackUrlHash: seq<U8>)

  /** `X402PaymentRequest::is_valid`: unexpired (the expiry instant itself is too late) and non-zero. */
  function IsValid(req: PaymentRequest, now: I64): (valid: bool)
    ensures valid ==> req.amount > 0
    ensures req.amount > 0 ==> (valid <==> now < req.expiresAt)
  {
    now < req.expiresAt && req.amount > 0
  }

  /** A request that is valid now was valid at every earlier instant. */
  lemma ValidEarlier(req: PaymentRequest, earlier: I64, now: I64)
    requires earlier <= now && IsValid(req, now)
    ensures IsValid(req, earlier)
  {
  }

  /** `verify_x402_request`: the signature is not inspected; only the amount's range is checked. */
  function VerifyRequest(req: PaymentRequest, signature: seq<U8>): (ok: bool)
    ensures ok <==> 0 < req.amount < MAX_REQUEST_AMOUNT
  {
    req.amount > 0 && req.amount < MAX_REQUEST_AMOUNT
  }

  /** Any signature, the empty one included, verifies the same request alike. */
  lemma SignatureIgnored(req: PaymentRequest, s1: seq<U8>, s2: seq<U8>)
    ensures VerifyRequest(req, s1) == VerifyRequest(req, s2)
  {
  }
}
