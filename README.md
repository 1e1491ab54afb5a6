# Legasi lending protocol — a verified Dafny model

Legasi is a set of Solana (Anchor) programs for borrowing against crypto collateral.
The model covers these programs:

- **lending**: multi-asset positions with deposits, loan-to-value (LTV) limited borrowing, interest-first repayment, SOL withdrawal, time-throttled interest accrual, and an agent's daily borrow window with automatic repayment.
- **gad**: gradual auto-deleveraging (GAD) of multi-asset positions on a quadratic rate curve.
- **credit**: a single-asset SOL credit line with a tiered GAD curve, a user-chosen start LTV and a collateral floor.
- **core**: protocol and configuration accounts, the reputation score and its LTV bonus, the two-slope interest-rate curve, per-market rates with eMode and caps, and the Pyth price-record adapter with its staleness and confidence gate.
- **lp**: LP share accounting with the insurance skim.
- **flash**: flash-loan bookkeeping.
- **leverage**: leveraged longs and their profit and loss.
- **x402**: the request check of the x402 payment convention, which builds on HTTP status 402 (section 15.5.3 of RFC 9110).

Every instruction is an atomic state transition: a failing instruction reverts everything, so the model computes each handler's checks first and then its writes.

Each handler appears twice:

- a pure function on a snapshot of the accounts (`PositionData`, `PoolData`, `LeverageData`, …), returning `Result`;
- a method on the account objects, which are classes whose fields the handler assigns, with the handler's loops written as loops.

Each method's contract ties its outcome and the new state to the function. If the function fails, the method changes nothing. The properties are proved about the functions.

Integer widths are subset types (`U8` … `U128`, `I32`, `I64`). Three kinds of arithmetic are written out:

- `checked_*` becomes `Err(MathOverflow)`, or `None` where the source uses `unwrap_or`;
- `saturating_*` clamps;
- an `as` cast wraps modulo the width.

Unchecked `u32`/`i64`/`u64` arithmetic that can overflow, including in a log line's arguments, is treated as a panic, which aborts the instruction (`Err(ArithmeticPanic)`). That is the behaviour of a build with overflow checks, the Anchor template's release setting.

The files and modules:

- `num.dfy`: widths and Rust's integer operations.
- `errors.dfy`: the program error codes, `Result` and `Outcome`.
- `constants.dfy`: the shared constants.
- `state.dfy`: the core accounts, reputation and the agent window.
- `ledger.dfy`: the position vectors, find-or-push, value sums, the debt waterfall and `retain`.
- `lending.dfy`, `gad.dfy`, `credit.dfy`, `lp.dfy`, `flash.dfy`, `leverage.dfy`: one program each.
- `interest.dfy`, `market.dfy`, `pyth.dfy`, `core_program.dfy`: the core crate.
- `x402.dfy`: the x402 request check.

Where a handler's error order matters, the model keeps the source's order. The quadratic crank checks the interval before the LTV; the tiered crank checks the LTV first.

Four quirks of the source are reproduced, not fixed:

- cbBTC is valued at the SOL price.
- `withdraw_sol` ignores the reputation bonus.
- `open_long` makes no LTV check.
- The tiered crank's reward comes on top of the floor-capped slice.

## Model

| member | source | states |
|---|---|---|
| State.Score | programs/legasi-core/src/state.rs:114-119 | `get_score` panics exactly when one of its two unchecked `u32` products overflows; otherwise it is the capped repayment and age points minus 100 per GAD event, floored at 0, and never above 600 |
| State.ScoreMonotone | programs/legasi-core/src/state.rs:114-119 | more repayments or age and fewer GAD events never lower the score |
| State.BonusForScore | programs/legasi-core/src/state.rs:122-129 | the bonus is 500/300/100/0 exactly at the thresholds 400/200/100 |
| State.BonusMonotone | programs/legasi-core/src/state.rs:122-129 | the bonus never falls as the score rises |
| State.LtvBonus | programs/legasi-core/src/state.rs:122-129 | `get_ltv_bonus_bps` panics exactly when `get_score` does, and is at most 500 |
| State.BorrowWindow.NewDay | programs/legasi-core/src/state.rs:176-177 | the day test `now - period_start >= 86400`, failing exactly when the unchecked `i64` difference overflows |
| State.BorrowWindow.CanBorrow | programs/legasi-core/src/state.rs:173-181 | after a day only `amount <= limit` is checked, otherwise the saturating sum of the borrowed amount and `amount` must fit the limit |
| State.BorrowWindow.Recorded | programs/legasi-core/src/state.rs:184-192 | a new day restarts the window at `now` with `amount`, otherwise the amount accumulates (saturating); the limit is kept |
| State.RecordWithinLimit | programs/legasi-core/src/state.rs:173-192 | a borrow the window admits leaves the window within its limit once recorded |
| State.AgentConfig.constructor | programs/legasi-lending/src/lib.rs:631-652 | `configure_agent` opens a fresh window at `now` with nothing borrowed and alerts switched on |
| State.AgentConfig.Update | programs/legasi-lending/src/lib.rs:655-670 | `update_agent_config` replaces the limit and switches and keeps the current window |
| State.AgentConfig.RecordBorrow | programs/legasi-core/src/state.rs:184-192 | `record_borrow` sets the window to `Recorded` and changes no other field |
| State.Protocol.constructor | programs/legasi-core/src/lib.rs:24-36 | `initialize_protocol` stores admin and treasury, sets the insurance fund and both USD totals to 0, and leaves the protocol unpaused |
| State.CollateralConfig.constructor | programs/legasi-core/src/lib.rs:39-62 | `register_collateral` stores the parameters, is active, and has nothing deposited |
| State.BorrowableConfig.constructor | programs/legasi-core/src/lib.rs:65-85 | `register_borrowable` stores the parameters, is active, and both totals are 0 |
| State.PriceFeed.constructor | programs/legasi-core/src/lib.rs:88-106 | `initialize_price_feed` stores the price stamped `now` with confidence 0 |
| State.LpPool.constructor | programs/legasi-lp/src/lib.rs:14-26 | `initialize_pool` is an empty pool with the LP mint unset |
| CoreProgram.Sync | programs/legasi-core/src/lib.rs:119-149 | a record shorter than 240 bytes fails `InvalidOracle` and a record older than 60 s fails `StalePriceFeed`; success only for a fresh record with a positive price whose interval in basis points, cast `as u64` as computed, is at most 500 (which, while the quotient fits, means an interval under 5.01 % of the price), yielding its 6-decimal price and the interval |
| CoreProgram.SyncAccepts | programs/legasi-core/src/lib.rs:119-142 | a fresh record with a positive price and an exponent in the range the feeds use is accepted exactly when its computed interval in basis points is at most 500, and, while the quotient fits `u64`, exactly when its interval is under 5.01 % of its price |
| CoreProgram.SyncOfRecord | programs/legasi-core/src/lib.rs:119-142 | a fresh parsed record in the feeds' exponent range passes or fails `sync_pyth_price` only by the confidence gate as written |
| CoreProgram.SyncAcceptsWideInterval | programs/legasi-core/src/lib.rs:133-142 | a fresh record priced at 1 with an interval of 2^60 reads 0 bps, is accepted and stores price 0, though the saturating gate refuses it |
| CoreProgram.SyncPythPrice | programs/legasi-core/src/lib.rs:119-149 | on the feed account: the outcome of `Sync`, with price, confidence and `last_update = now` on success and nothing changed on failure |
| CoreProgram.UpdatePrice | programs/legasi-core/src/lib.rs:109-116 | the admin price is stored as given (0 included) and stamped `now`; nothing else changes |
| CoreProgram.SetPaused | programs/legasi-core/src/lib.rs:152-156 | only the paused flag changes |
| Interest.Utilization | programs/legasi-core/src/interest.rs:27-30 | utilisation is `borrowed * 10000 / deposits` wherever that fits the cast |
| Interest.UtilizationBounded | programs/legasi-core/src/interest.rs:27-30 | utilisation is at most 10000 while the debt is covered by the deposits |
| Interest.UtilizationMonotone | programs/legasi-core/src/interest.rs:27-30 | with the same deposits, more covered debt never lowers the utilisation, which stays at most 10000 |
| Interest.RateAt | programs/legasi-core/src/interest.rs:32-55 | at or below the 80 % kink the rate is `300 + u * 800 / 8000`, between 300 and 1100; above it, at least 1100 |
| Interest.BorrowRate | programs/legasi-core/src/interest.rs:21-56 | 300 for an empty pool, else the curve at the utilisation; never below 300 |
| Interest.RateAtKink | programs/legasi-core/src/interest.rs:32-55 | the curve is 1100 at the 8000 bps kink, and one basis point above it adds one step of the steep slope to 1100 |
| Interest.RateAtMonotone | programs/legasi-core/src/interest.rs:32-55 | the rate never falls as utilisation grows (where the steep cast does not wrap) |
| Interest.BorrowRateMonotone | programs/legasi-core/src/interest.rs:21-56 | while the debt is covered, more debt never lowers the borrow rate |
| Interest.SupplyRate | programs/legasi-core/src/interest.rs:60-85 | 0 for an empty pool, and bounded |
| Interest.SupplyBelowBorrow | programs/legasi-core/src/interest.rs:60-85 | lenders never earn more than borrowers pay while the debt is covered |
| Interest.ProtocolFee | programs/legasi-core/src/interest.rs:88-93 | the fee is 20 % of the interest (saturating) and never more than the interest |
| Interest.RateExamples | programs/legasi-core/src/interest.rs:100-122 | the values the unit tests assert: 300 at 0 %, between 300 and 1100 at 50 %, 1100 at 80 %, above 1100 at 95 %, and supply below borrow at 50 % |
| Market.EffectiveMaxLtv | programs/legasi-core/src/market.rs:150-158 | the eMode limit exactly when the market has a category and the user shares it, else the base limit |
| Market.NoEModeGetsBase | programs/legasi-core/src/market.rs:150-158 | a user without eMode gets the base limit |
| Market.SlopeIncrease | programs/legasi-core/src/market.rs:174-177 | `slope * x / span` with 0 for a zero span, as the `u32` and `u16` casts compute it |
| Market.SlopeIncreaseBounded | programs/legasi-core/src/market.rs:174-177 | within its span the increase is at most the slope |
| Market.MarketUtilization | programs/legasi-core/src/market.rs:167-170 | `borrowed * 10000 / collateral` cast to `u16` |
| Market.MarketUtilizationBounded | programs/legasi-core/src/market.rs:167-170 | while borrows are covered, utilisation is exact and at most 10000 |
| Market.MarketUtilizationWraps | programs/legasi-core/src/market.rs:167-170 | the `as u16` cast wraps once borrows exceed 6.5536 times the collateral |
| Market.MarketRateAt | programs/legasi-core/src/market.rs:172-190 | both branches of the kinked curve with saturating adds |
| Market.MarketRate | programs/legasi-core/src/market.rs:161-191 | the base rate for a market without collateral, else the curve at the utilisation |
| Market.SlopeIncreaseMonotone | programs/legasi-core/src/market.rs:174-177 | below the kink the increase never falls as utilisation grows |
| Market.MarketRateAtMonotone | programs/legasi-core/src/market.rs:172-190 | up to full utilisation a higher utilisation never lowers the market's rate |
| Market.MarketRateMonotone | programs/legasi-core/src/market.rs:161-191 | while borrows are covered, more borrowing never lowers the rate |
| Market.CanSupply | programs/legasi-core/src/market.rs:194-199 | true without a cap, else exactly when the saturating new total fits the cap |
| Market.CanBorrow | programs/legasi-core/src/market.rs:202-210 | false when borrowing is disabled; otherwise true without a cap, else exactly when the saturating new total fits |
| Market.CapsDownwardClosed | programs/legasi-core/src/market.rs:194-210 | a smaller request fits wherever a larger one does |
| Market.SolUsdc | programs/legasi-core/src/market.rs:220-237 | the SOL/USDC preset is sane, has no eMode category and a 75 % base limit |
| Market.UsdcUsdtEMode | programs/legasi-core/src/market.rs:240-257 | the stablecoin preset is sane and its eMode limit exceeds its base limit |
| Market.CbBtcUsdc | programs/legasi-core/src/market.rs:260-277 | the cbBTC/USDC preset is sane, BTC-correlated, with a 75 % base limit |
| Market.SaneLimits | programs/legasi-core/src/market.rs:150-158 | with sane parameters every user's limit lies between the base limit and 10000 |
| Market.IsActive | programs/legasi-core/src/market.rs:311-313 | active exactly when the category is not None |
| Market.BoostNeedsActiveEMode | programs/legasi-core/src/market.rs:150-158 | only a user with active eMode can receive a boosted limit |
| Pyth.LeValue | programs/legasi-core/src/pyth.rs:105-108 | the unsigned value of little-endian bytes |
| Pyth.LeBytes | programs/legasi-core/src/pyth.rs:105-108 | exactly `n` bytes; `LeRoundTrip` fixes their content |
| Pyth.LeRoundTrip | programs/legasi-core/src/pyth.rs:105-108 | reading back the bytes of a value gives the value |
| Pyth.ParsePythPrice | programs/legasi-core/src/pyth.rs:96-116 | `None` exactly for an account shorter than 240 bytes; what it reads is fixed by `ParseEncode` |
| Pyth.EncodePythPrice | programs/legasi-core/src/pyth.rs:96-116 | a record written into account bytes, the other bytes kept |
| Pyth.ParseEncode | programs/legasi-core/src/pyth.rs:96-116 | parsing what was encoded gives back the record |
| Pyth.ParseReadsOnlyFields | programs/legasi-core/src/pyth.rs:105-108 | two accounts that agree on the field bytes parse alike |
| Pyth.ToUsd6Dec | programs/legasi-core/src/pyth.rs:55-77 | 0 for a non-positive price; for a positive price, a panic exactly for exponents outside −44..=32 |
| Pyth.ToUsd6DecDivides | programs/legasi-core/src/pyth.rs:60-76 | a positive price at an exponent in −44..=−6 converts to `price / 10^(−6−expo)` |
| Pyth.ToUsd6DecMultiplies | programs/legasi-core/src/pyth.rs:60-76 | a positive price at an exponent in −6..=32 converts to `price * 10^(6+expo)` where that fits a `u64`, and to 0 where the `u128` product overflows |
| Pyth.ToUsd6DecTruncates | programs/legasi-core/src/pyth.rs:68-72 | rescaling down truncates: scaled back, the result is within one unit of the price |
| Pyth.ToUsd6DecMonotone | programs/legasi-core/src/pyth.rs:55-77 | a higher price never converts to a lower 6-decimal price |
| Pyth.ToUsd6DecExample | programs/legasi-core/src/pyth.rs:129-140 | $150 at exponent −8 converts to 150_000_000 |
| Pyth.IsStale | programs/legasi-core/src/pyth.rs:80-82 | stale exactly when `now - publish_time > max_age`, and a panic when that `i64` difference overflows |
| Pyth.StaleBoundary | programs/legasi-core/src/pyth.rs:80-82 | a price exactly `max_age` old is fresh, and a stale price stays stale later |
| Pyth.ConfidenceBpsAsWritten | programs/legasi-core/src/pyth.rs:85-91 | 10000 for a non-positive price, else the quotient truncated by the `as u64` cast |
| Pyth.ConfidenceBps | programs/legasi-core/src/pyth.rs:85-91 | the same quotient saturating instead of wrapping; equal to the source's wherever the quotient fits |
| Pyth.ConfidenceGate | programs/legasi-core/src/lib.rs:133-136 | the 500 bps gate admits exactly a positive price with an interval under 5.01 % of it |
| Pyth.ConfidenceGateAsWritten | programs/legasi-core/src/pyth.rs:90 | while the quotient fits `u64`, the gate as written admits exactly an interval under 5.01 % of the price |
| Pyth.ConfidenceWraps | programs/legasi-core/src/pyth.rs:90 | a price of 1 with an interval of 2^60 reads 0 bps as written, `u64::MAX` saturating |
| Pyth.ConfidenceExample | programs/legasi-core/src/pyth.rs:143-152 | an interval of 1 % is 100 bps |
| X402.IsValid | programs/legasi-lending/src/x402.rs:32-34 | valid exactly when unexpired (the expiry instant excluded) and the amount is positive |
| X402.ValidEarlier | programs/legasi-lending/src/x402.rs:32-34 | a request valid now was valid at every earlier instant |
| X402.VerifyRequest | programs/legasi-lending/src/x402.rs:71-75 | accepted exactly when `0 < amount < 10^12` |
| X402.SignatureIgnored | programs/legasi-lending/src/x402.rs:71-75 | the signature does not affect the verdict |
| Ledger.Position.constructor | programs/legasi-lending/src/lib.rs:144-158 | `initialize_position`: empty vectors, both clocks at `now`, GAD enabled, default reputation |
| Ledger.Position.Store | programs/legasi-lending/src/lib.rs:177-203 | the position's fields become the given snapshot |
| Ledger.CollateralIndex | programs/legasi-lending/src/lib.rs:181-190 | the index of the first entry of the asset, or −1 exactly when there is none |
| Ledger.BorrowIndex | programs/legasi-lending/src/lib.rs:346-355 | the index of the first borrow entry of the asset, or −1 exactly when there is none |
| Ledger.FindCollateral | programs/legasi-lending/src/lib.rs:181-190 | the search loop returns `CollateralIndex`: the first entry of the asset, or -1 |
| Ledger.FindBorrow | programs/legasi-lending/src/lib.rs:346-355 | the search loop returns `BorrowIndex`: the first entry of the asset, or -1 |
| Ledger.Held | programs/legasi-lending/src/lib.rs:444-450 | the amount of the first entry of an asset, and 0 without one |
| Ledger.AddCollateral | programs/legasi-lending/src/lib.rs:180-201 | `MathOverflow` exactly when the existing entry would overflow, `MaxCollateralTypesReached` exactly when a ninth entry is needed; otherwise the holding of that asset grows by `amount` and no other changes |
| Ledger.AddBorrow | programs/legasi-lending/src/lib.rs:345-367 | the same for borrows with a limit of 4: the entry's principal grows, or a new entry is appended, and the debt grows by exactly `amount` |
| Ledger.AddCollateralKeepsDistinct | programs/legasi-lending/src/lib.rs:180-201 | find-or-push keeps at most 8 entries with one entry per asset |
| Ledger.AddBorrowKeepsDistinct | programs/legasi-lending/src/lib.rs:345-367 | find-or-push keeps at most 4 entries with one entry per asset |
| Ledger.DepositInto | programs/legasi-lending/src/lib.rs:180-201 | the in-place find-or-push loop computes `AddCollateral` |
| Ledger.BorrowInto | programs/legasi-lending/src/lib.rs:345-367 | the in-place find-or-push loop computes `AddBorrow` |
| Ledger.EntryValue | programs/legasi-lending/src/lib.rs:285-289 | an entry's value is `amount * price / 1e9` wherever the cast keeps it |
| Ledger.SumCollateralValue | programs/legasi-gad/src/lib.rs:330-348 | the accumulator loop fails exactly when the running sum leaves `u64`, else returns the value of the counted entries |
| Ledger.SumDebtValue | programs/legasi-gad/src/lib.rs:350-364 | the same for principal plus interest of the counted borrow entries |
| Ledger.PayEntry | programs/legasi-gad/src/lib.rs:185-195 | one entry's payment: interest first, then principal, within the budget |
| Ledger.PayEntryTakes | programs/legasi-gad/src/lib.rs:185-195 | a payment takes everything the entry owes up to the budget (nothing from an entry whose sum overflows, when such entries are skipped) |
| Ledger.Waterfall | programs/legasi-gad/src/lib.rs:180-196 | the debt loops keep the number of entries and never spend more than the budget |
| Ledger.TotalOwedIsDebt | programs/legasi-lending/src/lib.rs:822-838 | summed front to back, the debt is the debt of every asset |
| Ledger.WaterfallConserves | programs/legasi-gad/src/lib.rs:180-196 | the waterfall removes from the entries exactly what it spends |
| Ledger.WaterfallLeftover | programs/legasi-gad/src/lib.rs:180-196 | the waterfall stops with money left only once everything payable is paid |
| Ledger.WaterfallReduces | programs/legasi-gad/src/lib.rs:180-196 | entry by entry the asset is kept and neither principal nor interest rises |
| Ledger.WaterfallClears | programs/legasi-lending/src/lib.rs:822-838 | without skipped entries, money left over means every entry is paid off |
| Ledger.PayableCovers | programs/legasi-gad/src/lib.rs:180-196 | when the debt of some assets fits `u64`, a waterfall that skips overflowing entries can still pay all of it |
| Ledger.PayOne | programs/legasi-gad/src/lib.rs:185-195 | the loop body computes `PayEntry` |
| Ledger.PayDown | programs/legasi-gad/src/lib.rs:180-196 | the in-place debt loop computes `Waterfall` |
| Ledger.Retain | programs/legasi-lending/src/lib.rs:421-423 | `Vec::retain`: an element is kept exactly when it was present and satisfies the predicate, and no entries are added |
| Ledger.RetainLoop | programs/legasi-lending/src/lib.rs:421-423 | the retain loop computes `Retain` |
| Ledger.RetainKeepsDistinctCollaterals | programs/legasi-lending/src/lib.rs:511 | retain keeps one collateral entry per asset |
| Ledger.RetainKeepsDistinctBorrows | programs/legasi-lending/src/lib.rs:421-423 | retain keeps one borrow entry per asset |
| Ledger.RetainKeepsHeld | programs/legasi-lending/src/lib.rs:511 | dropping empty collateral entries changes no holding |
| Ledger.SetSolHeld | programs/legasi-lending/src/lib.rs:505-511 | lowering the SOL entry then dropping empty entries leaves exactly the new SOL amount and every other holding |
| Ledger.PruneKeepsDebt | programs/legasi-lending/src/lib.rs:421-423 | dropping settled borrow entries does not change the debt |
| Lending.CreditDeposit | programs/legasi-lending/src/lib.rs:177-203 | the deposit writes: `AddCollateral` and `last_update = now` |
| Lending.CreditKeepsValid | programs/legasi-lending/src/lib.rs:180-201 | a deposit keeps the position valid |
| Lending.DepositSol | programs/legasi-lending/src/lib.rs:161-206 | `InvalidAmount` for 0, `TransferFailed`, then the find-or-push; the SOL holding grows by `amount` |
| Lending.DepositToken | programs/legasi-lending/src/lib.rs:209-264 | also `AssetNotActive`, and `MathOverflow` when the configuration's total would overflow; on success the asset's holding and that total grow by `amount` |
| Lending.Value | programs/legasi-lending/src/lib.rs:282-306 | the two summing loops fail exactly when a sum leaves `u64`, else give the SOL and cbBTC value at the SOL price and the whole debt |
| Lending.CbBtcAtSolPrice | programs/legasi-lending/src/lib.rs:284-285 | a cbBTC entry adds what a SOL entry of the same amount adds |
| Lending.EffectiveLtv | programs/legasi-lending/src/lib.rs:312-314 | `7500 + bonus`, between 7500 and 8000, failing when the score panics |
| Lending.MaxBorrow | programs/legasi-lending/src/lib.rs:316-320 | `collateral * ltv / 10000` with a checked product |
| Lending.WithinMaxBorrow | programs/legasi-lending/src/lib.rs:316-322 | a debt is within the limit exactly when `debt * 10000 <= collateral * ltv` |
| Lending.Borrow | programs/legasi-lending/src/lib.rs:267-372 | `InvalidAmount`, `AssetNotActive` and `InsufficientLiquidity` first; on success only the borrows and the time stamp change, the borrows are `AddBorrow(borrows, asset, amount)` (the asset's entry grows, or one is appended), the debt grows by exactly `amount`, and the new debt is within the collateral value times 75 % plus the reputation bonus |
| Lending.BorrowAdmits | programs/legasi-lending/src/lib.rs:267-372 | conversely, a borrow whose new debt fits the limit, with liquidity and room for the entry, succeeds |
| Lending.BorrowKeepsValid | programs/legasi-lending/src/lib.rs:343-369 | a borrow keeps the position valid |
| Lending.RepayEntry | programs/legasi-lending/src/lib.rs:410-418 | the payment lowers the entry's interest first and then its principal, by the payment in total |
| Lending.PlanRepay | programs/legasi-lending/src/lib.rs:376-393 | `InvalidAmount` for 0 and `PositionNotFound` without an entry of the asset; it succeeds whenever something that fits `u64` is owed, paying `min(amount, owed)` into the first entry of the asset |
| Lending.ApplyRepay | programs/legasi-lending/src/lib.rs:408-431 | the writes: collateral kept, time stamped, reputation credited with one repayment of the payment |
| Lending.Repay | programs/legasi-lending/src/lib.rs:375-435 | the checks, the transfer, then the writes |
| Lending.ApplyRepayPaysDebt | programs/legasi-lending/src/lib.rs:408-423 | the writes lower the debt of the repaid asset by exactly the payment and leave the other assets' debt |
| Lending.RepayPaysDebt | programs/legasi-lending/src/lib.rs:375-435 | a repayment lowers the debt by exactly `min(amount, owed)`, only in that asset, and credits the reputation with one repayment of that amount |
| Lending.ApplyRepayClears | programs/legasi-lending/src/lib.rs:410-423 | paying everything owed on an asset removes its entry |
| Lending.RepayClears | programs/legasi-lending/src/lib.rs:375-435 | a repayment keeps the position valid, and repaying at least what is owed leaves no entry of the asset |
| Lending.WithdrawLimit | programs/legasi-lending/src/lib.rs:454-481 | skipped without borrows; otherwise `MathOverflow` when the debt sum leaves `u64`, `ExceedsLTV` exactly when the debt passes 75 % of the remaining value |
| Lending.WithdrawSol | programs/legasi-lending/src/lib.rs:438-516 | `InvalidAmount`, `InsufficientCollateral` when the first SOL entry holds less, the limit, `TransferFailed`; on success the writes of `TakeSol` |
| Lending.TakeSol | programs/legasi-lending/src/lib.rs:503-512 | the writes: SOL entry lowered (saturating), empty entries dropped |
| Lending.TakeSolHeld | programs/legasi-lending/src/lib.rs:503-512 | the writes take exactly the amount from the SOL held and leave every other asset |
| Lending.WithdrawLimitSteps | programs/legasi-lending/src/lib.rs:454-481 | summing the debt with the loop and then checking it against the limit gives `WithdrawLimit` |
| Lending.TakeSolSteps | programs/legasi-lending/src/lib.rs:503-512 | lowering the first SOL entry in place and then running `retain` as a loop gives `TakeSol` |
| Lending.WithdrawWithoutDebt | programs/legasi-lending/src/lib.rs:451-454 | without debt, any positive amount up to the SOL held can be withdrawn |
| Lending.WithdrawIgnoresReputation | programs/legasi-lending/src/lib.rs:474-478 | whether a withdrawal succeeds does not depend on the reputation |
| Lending.WithdrawTakesSol | programs/legasi-lending/src/lib.rs:438-516 | a withdrawal takes exactly the amount from the SOL held and leaves every other asset |
| Lending.AnnualRateBps | programs/legasi-lending/src/lib.rs:532-536 | positive exactly for USDC and EURC, and never above 800 |
| Lending.AccruedInterest | programs/legasi-lending/src/lib.rs:544-553 | `amount * rate * elapsed / 31_557_600 / 10000` where the product fits `u128` and the result `u64`; 0 when the product overflows |
| Lending.AccrueEntry | programs/legasi-lending/src/lib.rs:530-556 | a stablecoin entry with principal gains the interest (saturating); other entries are unchanged |
| Lending.AccrueAll | programs/legasi-lending/src/lib.rs:530-556 | one accrued entry per entry |
| Lending.Accrue | programs/legasi-lending/src/lib.rs:520-562 | nothing changes (not even the time stamp) within the hour; otherwise each entry becomes `AccrueEntry` of it for the whole elapsed time, so principal and asset are kept and interest never falls, and `last_update = now` |
| Lending.AccrueAllRaisesDebt | programs/legasi-lending/src/lib.rs:555 | accrual never lowers the debt |
| Lending.AccrueRaisesDebt | programs/legasi-lending/src/lib.rs:520-562 | accrual never lowers the debt and keeps the position valid |
| Lending.AccrueThrottled | programs/legasi-lending/src/lib.rs:523-528 | within the hour after an accrual a second one changes nothing |
| Lending.AgentBorrow | programs/legasi-lending/src/lib.rs:674-797 | `InvalidAmount`, `ExceedsLTV` outside the daily window or beyond the LTV limit, overflow and entry-limit errors; on success the borrows are `AddBorrow(borrows, USDC, amount)`, the debt grows by `amount`, the window records it and the pool's total grows by it |
| Lending.AgentAutoRepay | programs/legasi-lending/src/lib.rs:800-860 | `InvalidAmount`, `Unauthorized` when switched off, `TransferFailed`; on success collateral kept, reputation credited with the whole `amount`, and the pool's total lowered (saturating) by what was placed, which is at most `amount` |
| Lending.AutoRepayPaysDebt | programs/legasi-lending/src/lib.rs:822-853 | the repayment places `min(amount, debt)` and lowers the debt and the pool's total by exactly that |
| Lending.AutoRepayClears | programs/legasi-lending/src/lib.rs:822-842 | a repayment of at least the whole debt leaves no borrow entry |
| Lending.AutoRepayKeepsValid | programs/legasi-lending/src/lib.rs:822-842 | the repayment keeps the position valid |
| Lending.DepositSolOn | programs/legasi-lending/src/lib.rs:161-206 | on the position account: outcome and new state of `DepositSol`, nothing changed on failure |
| Lending.DepositTokenOn | programs/legasi-lending/src/lib.rs:209-264 | on the position and configuration: outcome and new state of `DepositToken` |
| Lending.ValueSteps | programs/legasi-lending/src/lib.rs:282-306 | the summing loops compute `Value` |
| Lending.BorrowOn | programs/legasi-lending/src/lib.rs:267-372 | on the position account: outcome and new state of `Borrow` |
| Lending.PlanRepaySteps | programs/legasi-lending/src/lib.rs:376-393 | the search loop computes `PlanRepay` |
| Lending.RepayOn | programs/legasi-lending/src/lib.rs:375-435 | on the position account: outcome and new state of `Repay` |
| Lending.SumOwed | programs/legasi-lending/src/lib.rs:464-472 | the debt loop, adding principal and interest one at a time, fails exactly when the sum leaves `u64` |
| Lending.WithdrawSolOn | programs/legasi-lending/src/lib.rs:438-516 | on the position account: outcome and new state of `WithdrawSol` |
| Lending.AccrueOn | programs/legasi-lending/src/lib.rs:520-562 | on the position account: the new state is `Accrue` |
| Lending.AgentBorrowOn | programs/legasi-lending/src/lib.rs:674-797 | on position, agent configuration and pool: outcome and new states of `AgentBorrow` |
| Lending.AgentAutoRepayOn | programs/legasi-lending/src/lib.rs:800-860 | on position and pool: outcome and new states of `AgentAutoRepay` |
| Gad.GadRateAsWritten | programs/legasi-gad/src/lib.rs:20-34 | never above 1000, and 0 at or below the limit |
| Gad.GadRate | programs/legasi-gad/src/lib.rs:20-34 | the curve without the cast: never above 1000, and 0 at or below the limit |
| Gad.GadRateMonotone | programs/legasi-gad/src/lib.rs:25-33 | the curve never falls as the LTV rises |
| Gad.GadRateThresholds | programs/legasi-gad/src/lib.rs:25-33 | the rate is positive exactly from an excess of 10 bps and reaches 1000 exactly from 317 bps |
| Gad.GadRateExamples | programs/legasi-gad/src/lib.rs:25-33 | 0 at the limit, 1 at 10 bps above it, 100 at 100, 998 at 316, and 1000 from 500 bps above |
| Gad.GadRateAgrees | programs/legasi-gad/src/lib.rs:28-31 | up to an excess of 42949672959 bps the source's curve is the intended one |
| Gad.GadRateWraps | programs/legasi-gad/src/lib.rs:28-31 | one basis point further the cast makes the rate 0 where the curve gives 1000 |
| Gad.ReadPosition | programs/legasi-gad/src/lib.rs:55-87 | `GadDisabled`, `NoDebtToDeleverage`, `CrankTooSoon`, then `MathOverflow` for a SOL value past `u64`, `InsufficientCollateral` for a zero value, `MathOverflow` when the debt times 10000 passes `u64`, `LtvBelowGadThreshold` at or below 75 %, `NothingToLiquidate` when the rate as computed (cast included) is 0, and success otherwise; on success the SOL value, the USDC/EURC debt, the LTV and that positive rate |
| Gad.MulDiv | programs/legasi-gad/src/lib.rs:90-121 | `a * b / d` wherever it fits `u64` |
| Gad.LtvOf | programs/legasi-gad/src/lib.rs:75-79 | the LTV in basis points is the largest number whose multiple of the SOL value stays within the debt times 10000 |
| Gad.SizeCrank | programs/legasi-gad/src/lib.rs:86-133 | `InsufficientCollateral` without a SOL entry; on success a positive slice from the first SOL entry, valued at `(slice * price / 1e9) as u64`, a debt reduction of `min(value, debt)` and a reward of 0.5 % of the slice, which together fit `u64` |
| Gad.SizeCrankExact | programs/legasi-gad/src/lib.rs:90-112 | the slice is `amount * f / 10000` with `f = rate * (elapsed * 10000 / 86400) / 10000` whenever neither wraps `u64` |
| Gad.SliceExact | programs/legasi-gad/src/lib.rs:90-100 | the share of a day never wraps, so the fraction is exact when it fits `u64` |
| Gad.SizeWithinRate | programs/legasi-gad/src/lib.rs:90-111 | within a day the slice is at most the day's rate of the SOL held |
| Gad.PlanCrank | programs/legasi-gad/src/lib.rs:59-133 | the checks and the sizing together |
| Gad.ApplyCrank | programs/legasi-gad/src/lib.rs:172-206 | the writes: owner and switch kept, both clocks at `now`, liquidated total and GAD events counted (saturating) |
| Gad.CrankGad | programs/legasi-gad/src/lib.rs:55-237 | the plan's error, else `TransferFailed`, else the writes of `ApplyCrank` with the clock at `now` and one more GAD event |
| Gad.CrankDailyCap | programs/legasi-gad/src/lib.rs:90-111 | within a day of the last crank a crank sells at most 10 % of the SOL held |
| Gad.CrankStallsAtWrappedLtv | programs/legasi-gad/src/lib.rs:28-31 | a crank of a position owing 4294.968046 USDC against 0.001 USD of SOL fails `NothingToLiquidate`, where the intended curve gives the full 1000 bps |
| Gad.ApplyTakesSol | programs/legasi-gad/src/lib.rs:175-177 | the writes take slice plus reward from the SOL held, down to zero, and no other asset |
| Gad.CrankTakesSol | programs/legasi-gad/src/lib.rs:55-237 | a crank takes exactly slice plus reward from the SOL held (down to zero) |
| Gad.ApplyPaysDebt | programs/legasi-gad/src/lib.rs:180-206 | the writes lower the debt by what the waterfall places |
| Gad.CrankPaysDebt | programs/legasi-gad/src/lib.rs:124-196 | a crank lowers the debt over all assets by exactly its debt reduction `min(liquidated value, USDC/EURC debt)`, which is the part the waterfall can place: no stablecoin entry overflows, since their sum fits `u64` |
| Gad.ApplyKeepsValid | programs/legasi-gad/src/lib.rs:172-206 | the writes keep the position valid |
| Gad.CrankKeepsValid | programs/legasi-gad/src/lib.rs:55-237 | a crank keeps the position valid |
| Gad.ReadPositionSteps | programs/legasi-gad/src/lib.rs:55-87 | the checks with the summing loops compute `ReadPosition` |
| Gad.PlanCrankSteps | programs/legasi-gad/src/lib.rs:59-133 | with the loop that finds the SOL entry, computes `PlanCrank` |
| Gad.ApplyCrankSteps | programs/legasi-gad/src/lib.rs:172-206 | with the debt loop and the two `retain` loops, computes `ApplyCrank` |
| Gad.CrankGadOn | programs/legasi-gad/src/lib.rs:55-237 | on the position account: outcome and new state of `CrankGad` |
| Gad.ConfigureGad | programs/legasi-gad/src/lib.rs:41-52 | only the GAD switch is stored; the custom threshold is ignored |
| Credit.Position.constructor | programs/legasi-credit/src/lib.rs:64-77 | `initialize_position`: nothing deposited or owed, both clocks at `now`, the default GAD configuration |
| Credit.Protocol.constructor | programs/legasi-credit/src/lib.rs:37-49 | `initialize_protocol`: the given price, zero totals |
| Credit.Protocol.UpdatePrice | programs/legasi-credit/src/lib.rs:52-61 | `InvalidAmount` for a zero price, else price and time stamp stored |
| Credit.TieredGadRate | programs/legasi-credit/src/lib.rs:18-30 | 0 exactly up to 5000 bps, never above 1000, and 1000 above 7500 |
| Credit.TieredGadRateMonotone | programs/legasi-credit/src/lib.rs:18-30 | a higher LTV never gets a lower rate |
| Credit.SolValueUsd | programs/legasi-credit/src/lib.rs:149-153 | `lamports * price / 1e9` in `u128` |
| Credit.MaxBorrow | programs/legasi-credit/src/lib.rs:155-159 | at most half the value, and exactly half where that fits `u64` |
| Credit.MaxBorrowMonotoneInPrice | programs/legasi-credit/src/lib.rs:149-159 | the limit grows with the price where the cast does not wrap |
| Credit.MaxBorrowWraps | programs/legasi-credit/src/lib.rs:155-159 | 2^63 lamports at $4000 make the limit wrap to 0 |
| Credit.SetPrice | programs/legasi-credit/src/lib.rs:52-61 | `InvalidAmount` exactly for a zero price, else price and stamp stored |
| Credit.ConfigureGad | programs/legasi-credit/src/lib.rs:80-105 | the switch is set; a custom start LTV outside [4000, 7000] fails `InvalidGadConfig`; a custom start LTV in range is stored; the floor is stored unchecked |
| Credit.ConfigureGadKeepsValid | programs/legasi-credit/src/lib.rs:90-93 | the stored start LTV stays within [4000, 7000] |
| Credit.DepositCollateral | programs/legasi-credit/src/lib.rs:108-136 | `InvalidAmount`, `TransferFailed`, overflow; collateral and the protocol total grow by `amount` |
| Credit.Borrow | programs/legasi-credit/src/lib.rs:139-176 | `InvalidAmount` for 0; on success debt and protocol total grow by `amount`, collateral is kept, and the new debt is within half the collateral value |
| Credit.BorrowAdmits | programs/legasi-credit/src/lib.rs:149-166 | a borrow within half the collateral value succeeds where the limit does not wrap |
| Credit.Repay | programs/legasi-credit/src/lib.rs:179-195 | the debt falls by exactly `min(amount, borrowed)` and the total saturates down by it |
| Credit.RepayUndoesBorrow | programs/legasi-credit/src/lib.rs:139-195 | repaying what was just borrowed restores debt and total |
| Credit.WithdrawCollateral | programs/legasi-credit/src/lib.rs:198-261 | `InvalidAmount` for 0, `InsufficientCollateral` above the collateral held; on success the collateral falls by `amount` and stays at or above the floor, the debt stays within half the remaining value, and the protocol total falls (saturating) |
| Credit.WithdrawWithoutDebt | programs/legasi-credit/src/lib.rs:209-230 | without debt only the floor limits a withdrawal |
| Credit.WithdrawUndoesDeposit | programs/legasi-credit/src/lib.rs:108-261 | withdrawing what was just deposited restores the collateral and is allowed whenever the position was within its limits |
| Credit.CurrentLtvBps | programs/legasi-credit/src/lib.rs:293-297 | `borrowed * 10000 / value` cast to `u64` |
| Credit.LiquidationAmount | programs/legasi-credit/src/lib.rs:315-323 | `None` exactly when the product `collateral * rate * elapsed` leaves `u128`; otherwise at most `product / (10000 * 86400)`, and equal to it whenever that fits `u64` |
| Credit.PlanCrank | programs/legasi-credit/src/lib.rs:275-344 | `GadDisabled`, `NoDebtToDeleverage`, `NoCollateral`, then `LtvBelowGadThreshold` at or below the custom start LTV, `MathOverflow` when the time difference overflows, `CrankTooSoon` within the hour, `NothingToLiquidate` at or below 50 %; on success the LTV is above both start LTVs, the rate is the tiered rate and positive, an hour has passed, the slice is `min(LiquidationAmount(collateral, rate, elapsed), collateral - floor saturating)` and positive, the reward is `slice / 200`, and the debt reduction is `min(value, borrowed)` |
| Credit.CrankDailyCap | programs/legasi-credit/src/lib.rs:315-328 | within a day of the last crank the slice is at most `collateral * rate / 10000`, so at most 10 % of the collateral |
| Credit.SliceWithinDay | programs/legasi-credit/src/lib.rs:315-323 | a share of at most one day of `perDay * elapsed / (10000 * 86400)` is at most `perDay / 10000` |
| Credit.SizeLiquidation | programs/legasi-credit/src/lib.rs:310-344 | `MathOverflow` when the product leaves `u128`, `NothingToLiquidate` when `min(amount, collateral - floor)` is 0; on success the rate is the tiered rate at the LTV and positive, the slice is exactly that minimum, the reward is `slice / 200` and fits with the slice in `u64`, and the debt reduction is `min(value of the slice, borrowed)` |
| Credit.ApplyCrank | programs/legasi-credit/src/lib.rs:350-398 | the transfers, then `MathOverflow` when slice plus reward exceed the collateral; collateral, debt and totals lowered and the clock stamped |
| Credit.CrankGad | programs/legasi-credit/src/lib.rs:265-419 | a successful crank never raises the debt, strictly lowers the collateral and stamps the clock |
| Credit.CrankKeepsFloor | programs/legasi-credit/src/lib.rs:326-385 | only the slice respects the floor: the collateral after a crank is the floor-capped remainder less the reward |
| Credit.FullLiquidationOverflows | programs/legasi-credit/src/lib.rs:343-385 | a crank that takes everything above a zero floor, with a positive reward, fails `MathOverflow` |
| Credit.FullLiquidationExample | programs/legasi-credit/src/lib.rs:343-385 | a concrete position where that happens |
| Credit.CrankThrottled | programs/legasi-credit/src/lib.rs:289-309 | within the hour after a crank another crank fails, and fails with `CrankTooSoon` when the position is still in debt, valued and above its start LTV (the checks before the interval) |
| Credit.SecondsToLiquidate | programs/legasi-credit/src/lib.rs:448-458 | between 0 and the full-liquidation time at that rate, and exactly that without a floor |
| Credit.Health | programs/legasi-credit/src/lib.rs:422-474 | LTV 0 for a zero value, the tiered rate, `is_gad_active = enabled ∧ ltv > start`, the time to liquidation |
| Credit.HealthMatchesCrank | programs/legasi-credit/src/lib.rs:422-474 | for a position with debt and a value that fits `u64`, the report says GAD is active exactly when the crank passes its switch and LTV checks |
| Credit.ConfigureGadOn | programs/legasi-credit/src/lib.rs:80-105 | on the position account: outcome and new state of `ConfigureGad` |
| Credit.DepositCollateralOn | programs/legasi-credit/src/lib.rs:108-136 | on position and protocol: outcome and new state of `DepositCollateral` |
| Credit.BorrowOn | programs/legasi-credit/src/lib.rs:139-176 | on position and protocol: outcome and new state of `Borrow` |
| Credit.RepayOn | programs/legasi-credit/src/lib.rs:179-195 | on position and protocol: outcome and new state of `Repay` |
| Credit.WithdrawCollateralOn | programs/legasi-credit/src/lib.rs:198-261 | on position and protocol: outcome and new state of `WithdrawCollateral` |
| Credit.CrankGadOn | programs/legasi-credit/src/lib.rs:265-419 | on position and protocol: outcome and new state of `CrankGad` |
| Lp.SharesFor | programs/legasi-lp/src/lib.rs:47-55 | `amount` for a pool without shares; `MathOverflow` exactly for a pool with shares but no deposits |
| Lp.SharesForBounds | programs/legasi-lp/src/lib.rs:47-55 | with shares and deposits the minted shares never exceed `amount * shares / deposits`, and equal it truncated wherever it fits `u64` |
| Lp.Deposit | programs/legasi-lp/src/lib.rs:39-114 | `InvalidAmount` for 0 or for zero shares, `TransferFailed`, `MathOverflow`; deposits grow by `amount` and shares by the minted shares |
| Lp.DepositKeepsSharePrice | programs/legasi-lp/src/lib.rs:47-99 | a deposit into a pool with shares does not lower the share price |
| Lp.TokensFor | programs/legasi-lp/src/lib.rs:125-129 | the truncated `shares * deposits / total_shares` |
| Lp.Withdraw | programs/legasi-lp/src/lib.rs:117-186 | `InvalidAmount`, `NoLpShares`, `InvalidAmount` for a zero return, `InsufficientLiquidity`, `TransferFailed`; both totals lowered (saturating) |
| Lp.WithdrawKeepsSharePrice | programs/legasi-lp/src/lib.rs:125-171 | redeeming at most the shares in existence does not lower the share price |
| Lp.DepositWithdrawNoGain | programs/legasi-lp/src/lib.rs:39-186 | depositing and at once redeeming the shares minted returns at most the deposit |
| Lp.InsuranceSplit | programs/legasi-lp/src/lib.rs:193-199 | `MathOverflow` exactly when `x * 500` leaves `u64`; otherwise lenders' part plus insurance is `x`, and insurance is 5 % truncated |
| Lp.AccrueInterest | programs/legasi-lp/src/lib.rs:189-227 | `InvalidAmount` for 0; deposits and earned interest grow by the lenders' part, shares unchanged, insurance fund grows by the rest |
| Lp.ExchangeRate | programs/legasi-lp/src/lib.rs:230-244 | 1_000_000 for a pool without shares, else `deposits * 1e6 / shares` |
| Lp.ExchangeRateMonotone | programs/legasi-lp/src/lib.rs:237-241 | the rate does not fall when the share price does not |
| Lp.AccrualRaisesExchangeRate | programs/legasi-lp/src/lib.rs:189-244 | accrual never lowers the exchange rate |
| Lp.InitializePoolAccounts | programs/legasi-lp/src/lib.rs:30-36 | only the LP mint is recorded |
| Lp.DepositOn | programs/legasi-lp/src/lib.rs:39-114 | on the pool account: outcome, shares and new state of `Deposit` |
| Lp.WithdrawOn | programs/legasi-lp/src/lib.rs:117-186 | on the pool account: outcome, tokens and new state of `Withdraw` |
| Lp.AccrueInterestOn | programs/legasi-lp/src/lib.rs:189-227 | on pool and protocol: outcome and new states of `AccrueInterest` |
| Flash.FlashLoanState.constructor | programs/legasi-flash/src/lib.rs:89-96 | the loan-state account holds the given record |
| Flash.FlashFee | programs/legasi-flash/src/lib.rs:79-86 | at least 1; exactly 1 below 2000; else 5 bps truncated; `MathOverflow` when `amount * 5` leaves `u64` |
| Flash.FlashBorrow | programs/legasi-flash/src/lib.rs:67-125 | `InvalidAmount`, `InvalidSlot`, `InsufficientLiquidity`, fee overflow, `TransferFailed`; the record is unrepaid and dated to the current slot |
| Flash.FlashRepay | programs/legasi-flash/src/lib.rs:128-200 | `FlashLoanNotRepaid` in another slot or once repaid; success requires amount plus fee to fit and the transfer; the loan is marked repaid and the fee is split into pool and insurance fund |
| Flash.FeeSplit | programs/legasi-flash/src/lib.rs:163-185 | pool and insurance fund together gain the whole fee, and insurance gets 5 % of it |
| Flash.FeeCreditedAsInterest | programs/legasi-flash/src/lib.rs:163-185 | a fee is credited exactly as the pool program's `accrue_interest` credits the same amount |
| Flash.RepayOnce | programs/legasi-flash/src/lib.rs:137-159 | a second repayment is refused |
| Flash.RepaySameSlot | programs/legasi-flash/src/lib.rs:132-136 | a loan cannot be repaid in another slot |
| Flash.CloseFlashState | programs/legasi-flash/src/lib.rs:203-210 | only a repaid loan's account may be closed |
| Flash.CloseAfterRepay | programs/legasi-flash/src/lib.rs:94-205 | a fresh loan cannot be closed; once repaid in its slot, it can |
| Flash.FlashBorrowOn | programs/legasi-flash/src/lib.rs:67-125 | outcome of `FlashBorrow` and, on success, a fresh loan-state account holding its record |
| Flash.FlashRepayOn | programs/legasi-flash/src/lib.rs:128-200 | on loan state, pool and protocol: outcome and new states of `FlashRepay` |
| Leverage.LeveragePosition.constructor | programs/legasi-leverage/src/lib.rs:114-127 | the record account holds the given record |
| Leverage.LeverageBorrow | programs/legasi-leverage/src/lib.rs:52-61 | the SOL's value times `multiplier − 1`, `MathOverflow` exactly when that leaves `u64`; never below the SOL's value |
| Leverage.OpenLong | programs/legasi-leverage/src/lib.rs:36-195 | `InvalidAmount` for zero SOL or a multiplier outside 2..=5; on success the vault covered the loan, `initial * multiplier` met the slippage bound, the record is the new active long, the SOL holding grows by `initial`, the borrows are `AddBorrow(borrows, USDC, loan)`, and the debt grows by the loan |
| Leverage.OpenLongKeepsValid | programs/legasi-leverage/src/lib.rs:133-173 | opening keeps the position valid |
| Leverage.OpenLongExceedsLendingLimit | programs/legasi-leverage/src/lib.rs:129-173 | opening on an empty position leaves a debt above the 80 % the lending program would ever admit |
| Leverage.Pnl | programs/legasi-leverage/src/lib.rs:205-220 | exactly `current - entry - borrowed` whenever the three `as i64` casts keep their values and the result stays within `i64` |
| Leverage.PnlMonotoneInPrice | programs/legasi-leverage/src/lib.rs:205-220 | where the current value does not wrap, a higher price never lowers the reported result |
| Leverage.PnlAtEntryPrice | programs/legasi-leverage/src/lib.rs:205-220 | at the entry price the result is minus the debt |
| Leverage.DropUsdcDebt | programs/legasi-leverage/src/lib.rs:250 | dropping the USDC entries leaves exactly the other assets' debt |
| Leverage.ClosePosition | programs/legasi-leverage/src/lib.rs:198-277 | `PositionNotFound` for a closed record or without a USDC entry; on success principal plus interest of that entry is repaid, every USDC entry removed and every other kept, the reputation credited, the record closed and the result reported |
| Leverage.CloseClearsUsdc | programs/legasi-leverage/src/lib.rs:224-250 | closing clears the whole USDC debt and leaves every other debt |
| Leverage.CloseOnce | programs/legasi-leverage/src/lib.rs:198-263 | a closed record cannot be closed again |
| Leverage.UpdateLeverageCollateral | programs/legasi-leverage/src/lib.rs:280-298 | `PositionNotFound` when closed, `InvalidAmount` below the initial collateral, else only the total changes |
| Leverage.OpenLongOn | programs/legasi-leverage/src/lib.rs:36-195 | on the position: outcome and new state of `OpenLong`, and a fresh record account |
| Leverage.ClosePositionOn | programs/legasi-leverage/src/lib.rs:198-277 | on position and record: outcome, new states and reported result of `ClosePosition` |
| Leverage.UpdateLeverageCollateralOn | programs/legasi-leverage/src/lib.rs:280-298 | on the record: outcome and new state of `UpdateLeverageCollateral` |

## Left out

- Token and SOL custody (`invoke`, `invoke_signed`, `token::transfer`, `mint_to`, `burn`): each transfer is a `transferOk` flag, and false aborts the instruction with `TransferFailed`. Balances are not tracked.
- Anchor account validation (seeds, `has_one`, signers) and PDA bumps: authorisation plumbing with no arithmetic.
- `Clock::get()`: the time and slot are parameters (`now`, `currentSlot`).
- `crank_gad_with_swap`: an external Jupiter swap whose LTV computation is left unfinished in the source.
- `offramp_via_bridge`: an external fiat bridge (a burn and a record of IBAN strings).
- `x402_pay`: token movement and receipt writing. Only the request checks `is_valid` and `verify_x402_request` are modelled.
- `initialize_lending_vault`: it has no body.
- `msg!`/`emit!` output and the events file. The `f64` values appear only in log lines. A log line's arguments are still evaluated, so one that overflows aborts the instruction: `borrow`'s percentage `new_borrowed * 100 / max_borrow` is modelled that way (its divisor is never 0, since a positive borrow over a zero limit fails `ExceedsLTV` first).
- The Pyth feed-ID constants (`Pubkey::from_str`).
- The flash program reads its pool and protocol through untyped accounts and names an error code the error enum lacks. The model gives it typed records and an `InvalidSlot` error.
- Checks the source makes after a write, such as `deposit_token`'s `total_deposited` overflow, are made before the writes. A failing instruction reverts, so the observable result is the same.
- Unchecked `u32`/`i64`/`u64` arithmetic that can overflow (the `u64` product `new_borrowed * 100` in `borrow`'s log line, the score's products, the window's and staleness's time differences, the Pyth exponent's negation and power) is an abort. The build's overflow-check setting is not part of this model.
- Pyth.ToUsd6DecMonotone: stated only for exponents at or below −6, where the price is divided; above that the product can overflow to 0.
- Leverage.PnlMonotoneInPrice: stated only where the current value fits `i64`. Beyond that, the `as i64` cast wraps negative.
- Interest.SupplyRate: its contract bounds the rate; the exact formula is covered only through `SupplyBelowBorrow` and the unit-test values.

## Findings

| source | as written | input that shows it | evidently intended | confidence | as-written member | corrected member |
|---|---|---|---|---|---|---|
| programs/legasi-gad/src/lib.rs:28-31 | the squared excess over 100 is cast `as u64` before the cap, keeping only its low 64 bits | an LTV excess of 42949672960 bps (a debt of $4294.968046 against $0.001 of SOL): the quotient is exactly 2^64, the cast gives 0, and the crank fails `NothingToLiquidate` | the rate is capped at 1000 and never falls as the LTV rises | not executed | Gad.GadRateAsWritten, Gad.GadRateWraps, Gad.CrankStallsAtWrappedLtv | Gad.GadRate, Gad.GadRateMonotone, Gad.GadRateAgrees |
| programs/legasi-core/src/pyth.rs:90 | `(conf * 10000 / price) as u64` keeps the low 64 bits of the quotient | price 1, conf 2^60: the quotient is 10000 · 2^60, a multiple of 2^64, so it reads 0 bps and passes the 500 bps gate of `sync_pyth_price` | a wide interval never reads as a narrow one (saturate at `u64::MAX`) | not executed | Pyth.ConfidenceBpsAsWritten, Pyth.ConfidenceWraps, CoreProgram.SyncAcceptsWideInterval | Pyth.ConfidenceBps, Pyth.ConfidenceGate |

The handlers follow the source: `Gad.ReadPosition` uses the rate as written and `CoreProgram.Sync` the gate as written. The corrected members state the intended behaviour beside them, and `Gad.GadRateAgrees` and `Pyth.ConfidenceBps` show that the two agree wherever the cast keeps the whole quotient.
