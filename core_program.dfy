/** The administrative and oracle instructions of the core program (`legasi-core/src/lib.rs`):
    `update_price`, `sync_pyth_price` and `set_paused`. Account creation
    (`initialize_protocol`, `register_collateral`, `register_borrowable`, `initialize_price_feed`)
    is the constructors of the `State` classes. */
module CoreProgram {
  import opened Num
  import opened Errors
  import opened State
  import opened Pyth

  /** What a successful sync writes into the price feed. */
  datatype FeedUpdate = FeedUpdate(price: U64, confidence: U64)

  /** `sync_pyth_price` on the oracle account's bytes at time `now`: the record must parse, be at
      most a minute old and have a confidence interval of at most 500 bps as `confidence_bps`
      computes it, cast and all (see `ConfidenceWraps`); the stored price is the record's rescaled
      to six decimals. */
  function Sync(data: seq<U8>, now: I64): (r: Result<FeedUpdate>)
    ensures |data| < RECORD_LENGTH ==> r == Err(InvalidOracle)
    ensures r.Ok? ==> ParsePythPrice(data).Some?
    ensures r.Ok? ==> var p := ParsePythPrice(data).value;
                      && now - p.publishTime <= MAX_PRICE_AGE
                      && p.price > 0 && ConfidenceBpsAsWritten(p) <= MAX_CONFIDENCE_BPS
                      && (p.conf * 10000 / p.price <= U64_MAX ==> p.conf * 10000 < 501 * p.price)
                      && ToUsd6Dec(p) == Ok(r.value.price) && r.value.confidence == p.conf
    ensures ParsePythPrice(data).Some? && IsStale(ParsePythPrice(data).value, now, MAX_PRICE_AGE) == Ok(true)
            ==> r == Err(StalePriceFeed)
  {
    match ParsePythPrice(data)
    case None => Err(InvalidOracle)
    case Some(p) =>
      var stale :- IsStale(p, now, MAX_PRICE_AGE);
      if stale then Err(StalePriceFeed)
      else if ConfidenceBpsAsWritten(p) > MAX_CONFIDENCE_BPS then Err(InvalidOracle)
      else
        ConfidenceGate(p);
        var price :- ToUsd6Dec(p);
        Ok(FeedUpdate(price, p.conf))
  }

  /** A record that parses, is fresh, and is priced and exponented as Pyth feeds are, is accepted
      exactly when the confidence in basis points, as computed, is at most 500; while the quotient
      fits in a `u64`, that is exactly when its interval is under 5.01 % of its price. */
  lemma SyncAccepts(p: PythPrice, data: seq<U8>, now: I64)
    requires |data| >= RECORD_LENGTH && 0 <= now - p.publishTime <= MAX_PRICE_AGE
    requires p.price > 0 && -44 <= p.expo <= 32
    ensures Sync(EncodePythPrice(p, data), now).Ok? <==> ConfidenceBpsAsWritten(p) <= MAX_CONFIDENCE_BPS
    ensures p.conf * 10000 / p.price <= U64_MAX
            ==> (Sync(EncodePythPrice(p, data), now).Ok? <==> p.conf * 10000 < 501 * p.price)
    ensures Sync(EncodePythPrice(p, data), now).Ok?
            ==> Sync(EncodePythPrice(p, data), now).value == FeedUpdate(ToUsd6Dec(p).value, p.conf)
  {
    ParseEncode(p, data);
    SyncOfRecord(p, EncodePythPrice(p, data), now);
    if p.conf * 10000 / p.price <= U64_MAX {
      ConfidenceGateAsWritten(p);
    }
  }

  /** A fresh record in the feeds' exponent range reaches the confidence gate, and passes or fails
      only by it. */
  lemma SyncOfRecord(p: PythPrice, data: seq<U8>, now: I64)
    requires ParsePythPrice(data) == Some(p) && 0 <= now - p.publishTime <= MAX_PRICE_AGE
    requires p.price > 0 && -44 <= p.expo <= 32
    ensures Sync(data, now)
            == if ConfidenceBpsAsWritten(p) > MAX_CONFIDENCE_BPS then Err(InvalidOracle)
               else Ok(FeedUpdate(ToUsd6Dec(p).value, p.conf))
  {
    assert IsStale(p, now, MAX_PRICE_AGE) == Ok(false);
  }

  /** The wrapped gate at the sync: a fresh record priced at 1 (10^-8 USD) with an interval of
      2^60 has an interval in basis points of 0 as computed, so it is accepted and stores a price
      of 0 and the whole interval, though the saturating gate would refuse it. */
  lemma SyncAcceptsWideInterval(p: PythPrice, data: seq<U8>, now: I64)
    requires ParsePythPrice(data) == Some(p) && 0 <= now - p.publishTime <= MAX_PRICE_AGE
    requires p.price == 1 && p.conf == 0x1000_0000_0000_0000 && p.expo == -8
    ensures Sync(data, now) == Ok(FeedUpdate(0, p.conf))
    ensures ConfidenceBps(p) > MAX_CONFIDENCE_BPS
  {
    SyncOfRecord(p, data, now);
    ConfidenceWraps(p);
    ToUsd6DecDivides(p);
    assert Pow10(2) == 100;
  }

  /** `sync_pyth_price`: on success the feed holds the new price and interval, stamped `now` (not the
      record's publish time); on failure nothing changes. */
  method SyncPythPrice(feed: PriceFeed, data: seq<U8>, now: I64) returns (o: Outcome)
    modifies feed
    ensures o == OutcomeOf(Sync(data, now))
    ensures o.Success? ==> feed.priceUsd6dec == Sync(data, now).value.price
                           && feed.confidence == Sync(data, now).value.confidence
                           && feed.lastUpdate == now
    ensures o.Failure? ==> feed.priceUsd6dec == old(feed.priceUsd6dec) && feed.confidence == old(feed.confidence)
                           && feed.lastUpdate == old(feed.lastUpdate)
    ensures feed.assetType == old(feed.assetType)
  {
    var update := Sync(data, now);
    if update.Err? {
      return Failure(update.error);
    }
    feed.priceUsd6dec := update.value.price;
    feed.confidence := update.value.confidence;
    feed.lastUpdate := now;
    o := Success;
  }

  /** `update_price`: the admin's fallback stores any price, 0 included, with no staleness or
      confidence check. */
  method UpdatePrice(feed: PriceFeed, price: U64, now: I64)
    modifies feed
    ensures feed.priceUsd6dec == price && feed.lastUpdate == now
    ensures feed.confidence == old(feed.confidence) && feed.assetType == old(feed.assetType)
  {
    feed.priceUsd6dec := price;
    feed.lastUpdate := now;
  }

  /** `set_paused` */
  method SetPaused(protocol: Protocol, paused: bool)
    modifies protocol
    ensures protocol.paused == paused
    ensures protocol.admin == old(protocol.admin) && protocol.treasury == old(protocol.treasury)
    ensures protocol.insuranceFund == old(protocol.insuranceFund)
    ensures protocol.totalCollateralUsd == old(protocol.totalCollateralUsd)
    ensures protocol.totalBorrowedUsd == old(protocol.totalBorrowedUsd)
  {
    protocol.paused := paused;
  }
}
