# Signal-decision core of algo-trader-ib, in Dafny

This project models the decision layer of the trading strategies in
winglight/algo-trader-ib and proves properties about that model:

- **DOM structure strategy** (`strategies/dom_structure_strategy.py`):
  - the rolling structure window of `(timestamp, mid)` samples, with front eviction;
  - its extremes and support/resistance zones;
  - signal side, trend score, tick sizes and the loss-streak breaker;
  - the configuration normalisers and the per-regime settings with their "normal" fallback;
  - the precedence of manual overrides over threshold-model values;
  - the eight condition flags, sanitising of threshold-model responses and the threshold-model cache;
  - the emission gate of `_on_dom_snapshot`: throttle, hit count, cooldown with its one-shot notice, breaker, frequency guard, side, zero quantity, risk verdict, then emission into the bounded signal deque.
- **Signal value objects** (`strategies/templates.py`):
  - the first-wins contract-metadata merge;
  - `StrategySignal` construction, with its quantity truncation and the fraction it records, and `as_dict`;
  - order-quantity coercion and the default-parameter fill of `StrategyTemplate`.
- **Mean-reversion strategy** (`strategies/mean_reversion_strategy.py`):
  - candle event screening and closed-candle de-duplication;
  - the bounded price history;
  - the flat/long/short position machine driven by a z-score;
  - the breaker, cooldown and frequency guards, which apply to entries only;
  - the rule that the position moves only when the queue accepts a signal;
  - de-duplication of skip-log messages.
- **Predictive model repository** (`strategies/predictive_strategy.py`): versioned states, the active version, and listeners notified in order.

Modules, one per file:

| file | module | contents |
|---|---|---|
| `wrappers.dfy` | `Wrappers` | `Option` |
| `pyvalues.dfy` | `PyValues` | the Python value semantics the source relies on: untyped values (`Dyn`), `float()`, truthiness, `strip`, ASCII case mapping, `floor`/`ceil`/`int`/`round`, and appending to a `deque(maxlen=…)` |
| `templates.dfy` | `Templates` | `strategies/templates.py` |
| `dom_config.dfy` | `DomConfig` | the normalisers and the regime settings of the DOM strategy |
| `dom_structure.dfy` | `DomStructure` | the DOM strategy's pure rules |
| `dom_engine.dfy` | `DomEngine` | the `DomStructureStrategy` class: its state and the operations that change it |
| `mean_reversion.dfy` | `MeanReversion` | the `MeanReversionStrategy` class |
| `predictive.dfy` | `Predictive` | the `PredictiveModelRepository` class |

The source's own form is kept:
- Pure helpers are functions with lemmas.
- Objects that update their fields in place are classes with `modifies` frames.
- The contract-metadata merge and the sanitising loop are loops.
- The state-changing methods are proved against specification functions (`DropStale`, `GateVerdict`, `Transition`, `Extracted`, `FilledDefaults`, `Broadcast`, …), and the properties are proved about those functions.

Prices, sizes and times are exact `real`s. Clocks, the risk engine's verdict, analytics metrics, `AdaptiveThresholdState` and the threshold-model call are inputs of the operations that use them.

Four behaviours of the code that are easy to miss, all modelled as written:
- The breaker trips at `max(1, max_loss_streak)` losses, not at `max_loss_streak`.
- The cooldown check reads the monotonic clock a second time (`Readings.gateMonotonic`), separately from the throttle's reading.
- An `active` check and a symbol check come before the throttle.
- The volatility bounds are normalised with the lower bound clamped before the swap (`DomConfig.VolatilityBoundsNegativeUpper`).

## Model

| member | source | states |
|---|---|---|
| PyValues.CoerceNumeric | strategies/dom_structure_strategy.py:1989-1998 | a value comes back iff the input is a bool, an int or a finite float: a float as itself, an int as its real value, True as 1.0 and False as 0.0; None, other objects and non-finite floats give nothing |
| PyValues.TrimLeftSpec | strategies/templates.py:71 | `lstrip` removes exactly the leading whitespace: the rest is a suffix that starts with a non-space |
| PyValues.TrimRightSpec | strategies/templates.py:71 | `rstrip` removes exactly the trailing whitespace |
| PyValues.StripSpec | strategies/templates.py:70-73 | `strip` leaves a slice surrounded only by whitespace, with no whitespace at either end, and is empty iff the text is all whitespace |
| PyValues.Floor | strategies/dom_structure_strategy.py:1101 | the greatest integer not above x |
| PyValues.Ceil | strategies/templates.py:101 | the least integer not below x |
| PyValues.Trunc | strategies/templates.py:230 | `int(x)` truncates toward zero: floor for x ≥ 0, ceil below |
| PyValues.Round | strategies/dom_structure_strategy.py:2413 | the nearest integer, ties to the even one |
| PyValues.AppendBounded | strategies/dom_structure_strategy.py:1247 | appending to a full deque drops the oldest element: the result is the newest `maxlen` elements of the deque plus the new one, which is last |
| Templates.Usable | strategies/templates.py:67-73 | a usable value is never None; every value other than None and text is used as it is |
| Templates.UsableText | strategies/templates.py:70-73 | text is usable iff it is not all whitespace, and is then stored stripped |
| Templates.FirstUsable | strategies/templates.py:63-74 | nothing iff no candidate has a usable value for the key; never None |
| Templates.Extracted | strategies/templates.py:52-75 | the merge holds only the eight contract metadata keys, and never a None value |
| Templates.FirstUsableText | strategies/templates.py:70-74 | the first usable text is stripped and not empty |
| Templates.ExtractedTextStripped | strategies/templates.py:70-74 | text values in the merge are stripped and never blank |
| Templates.FirstUsableAppend | strategies/templates.py:63-66 | over candidates `a + b`, `b` is consulted only for keys `a` leaves unset |
| Templates.AllCandidatesAppend | strategies/templates.py:56-62 | the candidates of concatenated sources are the concatenated candidates |
| Templates.AllCandidatesSnoc | strategies/templates.py:56-62 | one more source adds its candidates at the end |
| Templates.ExtractedFirstWins | strategies/templates.py:64-66 | sources scanned later never overwrite a key an earlier source supplied |
| Templates.SourceBeatsItsContract | strategies/templates.py:59-63 | a source's own usable value beats the one in its nested "contract" |
| Templates.AgreesIsExtracted | strategies/templates.py:52-75 | a map that holds exactly the first usable value per contract key is the merge |
| Templates.TakeKeyStep | strategies/templates.py:64-74 | one key step of the inner loop keeps the loop invariant |
| Templates.ScanStarts | strategies/templates.py:63-64 | the inner loop invariant holds before its first key |
| Templates.ScanEnds | strategies/templates.py:64-74 | after the last key, the merge agrees with the candidates scanned so far plus this one |
| Templates.MergeKey | strategies/templates.py:65-74 | a key not yet merged takes the candidate's usable value; otherwise nothing changes |
| Templates.ScanCandidate | strategies/templates.py:64-74 | scanning one candidate extends the first-wins merge by that candidate |
| Templates.ScanSource | strategies/templates.py:57-74 | scanning one source extends the merge by the source and then its nested contract; a non-mapping is skipped |
| Templates.ExtractContractMetadata | strategies/templates.py:52-75 | the nested loops compute exactly the first-wins merge `Extracted` |
| Templates.WholeQuantity | strategies/templates.py:91-101 | the quantity becomes floor(q) for q ≥ 0 and ceil(q) for q < 0; 0 for non-numeric or non-finite input |
| Templates.DiscardedFraction | strategies/templates.py:97-106 | the recorded fraction lies in [0, 1), is the distance to the whole quantity, and is zeroed below 1e-9 |
| Templates.SignalMetadata | strategies/templates.py:108-118 | the metadata is a copy of the given mapping (empty for a non-mapping) plus the fraction only when it is positive, never overwriting an existing entry |
| Templates.NewSignal | strategies/templates.py:87-121 | construction keeps side and reason, truncates the quantity and stores the completed metadata |
| Templates.WholeQuantityUnchanged | strategies/templates.py:87-121 | a whole quantity with mapping metadata passes through construction unchanged |
| Templates.AsDict | strategies/templates.py:123-128 | the payload is the metadata, overridden by side, quantity and reason, plus "metadata" holding the metadata itself |
| Templates.CoerceOrderQuantityComponents | strategies/templates.py:223-238 | negative, non-numeric or non-finite input gives (0, 0.0); otherwise the whole part and the remainder in [0, 1), with a remainder below 1e-9 zeroed |
| Templates.FilledDefaults | strategies/templates.py:157-165 | the fill keeps every attribute and adds every defaulted one that was missing |
| Templates.StrategyTemplate.constructor | strategies/templates.py:145-153 | the instance starts with the attributes given |
| Templates.StrategyTemplate.PostInit | strategies/templates.py:157-170 | the fill replaces exactly the missing, None and (for text defaults) blank attributes, and then stores "order_quantity" as whole contracts |
| Templates.StrategyTemplate.ResolveOrderQuantity | strategies/templates.py:244-247 | the given value, or the stored "order_quantity" (0 when absent), coerced to whole contracts and remainder |
| Templates.FilledDefaultsNeverNone | strategies/templates.py:157-165 | after the fill, an attribute with a non-None default is present and not None |
| Templates.FilledDefaultsIdempotent | strategies/templates.py:157-165 | filling twice is filling once |
| DomConfig.NormaliseRegimeBreakpoints | strategies/dom_structure_strategy.py:2351-2374 | breakpoints always come out as 0 ≤ low < high |
| DomConfig.BreakpointsKeepValid | strategies/dom_structure_strategy.py:2358-2374 | ordered non-negative breakpoints are kept as given |
| DomConfig.BreakpointsIdempotent | strategies/dom_structure_strategy.py:2351-2374 | normalising twice is normalising once |
| DomConfig.BreakpointsSymmetric | strategies/dom_structure_strategy.py:2369-2370 | the order in which the two breakpoints are given does not matter |
| DomConfig.NormaliseVolatilityBounds | strategies/dom_structure_strategy.py:2467-2482 | low ≤ high and high > 0; low is negative exactly when the supplied upper bound is, and then equals it |
| DomConfig.VolatilityBoundsNegativeUpper | strategies/dom_structure_strategy.py:2474-2477 | (0.5, -1.0) normalises to (-1.0, 0.5) |
| DomConfig.VolatilityBoundsKeepValid | strategies/dom_structure_strategy.py:2467-2482 | bounds with 0 ≤ low ≤ high and high > 0 are kept |
| DomConfig.NormaliseScaleBounds | strategies/dom_structure_strategy.py:2484-2502 | scale bounds come out as 0 ≤ low ≤ high with high > 0 |
| DomConfig.ScaleBoundsKeepValid | strategies/dom_structure_strategy.py:2484-2502 | valid scale bounds are kept |
| DomConfig.ScaleBoundsIdempotent | strategies/dom_structure_strategy.py:2484-2502 | normalising twice is normalising once |
| DomConfig.ClampScale | strategies/dom_structure_strategy.py:2504-2511 | the result lies between the bounds, taken in either order; a value inside is kept and one outside goes to the nearer bound |
| DomConfig.ClampMonotone | strategies/dom_structure_strategy.py:2504-2511 | clamping preserves order |
| DomConfig.QuantityScale | strategies/dom_structure_strategy.py:2513-2521 | the quantity scale lies within its bounds, and is the clamped 1.0 when the exponent is not positive |
| DomConfig.CooldownScale | strategies/dom_structure_strategy.py:2523-2530 | the cooldown scale lies within its bounds, and is the clamped 1.0 when the exponent is not positive |
| DomConfig.ScalesMoveOppositeWays | strategies/dom_structure_strategy.py:2513-2530 | above-baseline volatility never enlarges the order or shortens the cooldown compared with a neutral factor, and below-baseline volatility does the opposite |
| DomConfig.ParseRequiredHits | strategies/dom_structure_strategy.py:2411-2417 | a required-hits setting is kept iff it rounds to a positive integer |
| DomConfig.ParseNonNegative | strategies/dom_structure_strategy.py:2418-2431 | a cooldown or quantity setting is kept iff it is a non-negative number, and then as that number |
| DomConfig.ParseOverride | strategies/dom_structure_strategy.py:2410-2431 | only settings present in the mapping are kept, and a non-empty override is valid (hits ≥ 1, cooldown and quantity ≥ 0) |
| DomConfig.EntryContribution | strategies/dom_structure_strategy.py:2395-2433 | an entry contributes only under its stripped, lower-cased key, only for calm/normal/volatile, and only with valid settings |
| DomConfig.Contributions | strategies/dom_structure_strategy.py:2395-2433 | one contribution per entry, in order |
| DomConfig.MergeContributions | strategies/dom_structure_strategy.py:2432-2433 | every merged key holds the override some entry contributed |
| DomConfig.NormaliseRegimeOverrides | strategies/dom_structure_strategy.py:2377-2434 | the normalised overrides name only the three regimes, and each holds valid settings |
| DomConfig.LastForSkip | strategies/dom_structure_strategy.py:2395-2433 | a trailing entry for another key does not change which entry is the last for this key |
| DomConfig.MergeLastWins | strategies/dom_structure_strategy.py:2432-2433 | a key is merged iff some entry contributes it, and then with the last such contribution |
| DomConfig.OverridesLastWins | strategies/dom_structure_strategy.py:2394-2434 | a regime is overridden iff some entry contributes to it; a later entry for the same regime replaces an earlier one |
| DomConfig.RegimeKey | strategies/dom_structure_strategy.py:2407 | the stripped, lower-cased regime name: no longer than the name, and empty iff the name is all whitespace |
| DomConfig.BaseSettings | strategies/dom_structure_strategy.py:2445-2449 | the engine's settings with hits raised to ≥ 1 and cooldown and quantity to ≥ 0; valid values are kept |
| DomConfig.ResolvedRegimeKey | strategies/dom_structure_strategy.py:2444 | the resolved regime key is never empty: a blank regime becomes "normal" |
| DomConfig.ApplicableOverride | strategies/dom_structure_strategy.py:2450-2452 | a regime's own override applies; without one, a regime other than "normal" uses the "normal" override |
| DomConfig.SettingsForKey | strategies/dom_structure_strategy.py:2445-2463 | required hits ≥ 1, cooldown ≥ 0 and default quantity ≥ 0 |
| DomConfig.ResolveRegimeSettings | strategies/dom_structure_strategy.py:2443-2464 | required hits ≥ 1, cooldown ≥ 0 and default quantity ≥ 0, whatever the overrides |
| DomConfig.ResolveWithoutOverrides | strategies/dom_structure_strategy.py:2445-2449 | without overrides, every regime runs with the engine's own clamped settings |
| DomConfig.ResolveFallsBackToNormal | strategies/dom_structure_strategy.py:2450-2452 | a regime without an override of its own runs with the "normal" regime's settings |
| DomConfig.ResolveUsesOwnOverride | strategies/dom_structure_strategy.py:2453-2463 | a valid override's settings are used exactly; the settings it omits come from the engine |
| DomStructure.TickSize | strategies/dom_structure_strategy.py:2347-2348 | the table entry for the upper-cased symbol, 0.25 for unknown symbols; always positive |
| DomStructure.UpperIdempotent | strategies/dom_structure_strategy.py:2348 | upper-casing twice is upper-casing once |
| DomStructure.TickSizeIgnoresCase | strategies/dom_structure_strategy.py:2347-2348 | the tick size does not depend on the symbol's case |
| DomStructure.DropStale | strategies/dom_structure_strategy.py:1460-1462 | eviction leaves a suffix whose first sample is not older than the cutoff, and every evicted sample was older |
| DomStructure.DropStaleKeepsNewest | strategies/dom_structure_strategy.py:1459-1462 | the newly appended sample is never evicted and stays last |
| DomStructure.DropStaleChronological | strategies/dom_structure_strategy.py:1460-1462 | on a chronological window, eviction keeps it chronological and leaves no sample older than the cutoff |
| DomStructure.Extremes | strategies/dom_structure_strategy.py:1507-1511 | no extremes iff the window is empty |
| DomStructure.ExtremesBound | strategies/dom_structure_strategy.py:1507-1511 | min ≤ max; every stored price lies between them, and both are stored prices |
| DomStructure.DetectZone | strategies/dom_structure_strategy.py:1514-1525 | no zone without extremes; support iff mid ≤ support + tolerance (tested first); resistance iff not support and mid ≥ resistance − tolerance |
| DomStructure.EdgeMidHasZone | strategies/dom_structure_strategy.py:1007-1009 | a mid that is itself the window's low or high always lies in a zone |
| DomStructure.MidBandHasNoZone | strategies/dom_structure_strategy.py:1521-1525 | strictly inside the band between the tolerances there is no zone |
| DomStructure.ResolveSide | strategies/dom_structure_strategy.py:2314-2319 | BUY iff support and imbalance ≥ 0; SELL iff resistance and imbalance ≤ 0 |
| DomStructure.SideFollowsZone | strategies/dom_structure_strategy.py:2314-2319 | a resolved side buys at support and sells at resistance, never against the imbalance |
| DomStructure.TrendScore | strategies/dom_structure_strategy.py:1528-1532 | 0 for an empty book; otherwise the score times the total depth is the imbalance |
| DomStructure.ShareBounded | strategies/dom_structure_strategy.py:1532 | a part within ±total gives a share within [-1, 1] |
| DomStructure.ShareSign | strategies/dom_structure_strategy.py:1532 | a share has its part's sign |
| DomStructure.TrendScoreBounded | strategies/dom_structure_strategy.py:1528-1532 | the trend score lies in [-1, 1] and is non-negative iff bids are at least asks |
| DomStructure.ClampOptional | strategies/dom_structure_strategy.py:1633-1636 | the optional maximum is always respected, and the optional minimum too when it is not above the maximum; a value inside both is kept |
| DomStructure.CoerceOverride | strategies/dom_structure_strategy.py:1620-1637 | a missing or non-numeric manual override does not apply; a finite one applies, clamped into the bounds (the non-finite cases are `CoerceOverrideNonFinite`) |
| DomStructure.CoerceOverrideNonFinite | strategies/dom_structure_strategy.py:1626-1637 | a NaN or -inf override with a lower bound gives the lower bound (clamped by the upper one); +inf or NaN with an upper bound and no lower bound gives the upper bound, and +inf does so whenever there is an upper bound; -inf with no lower bound does not apply |
| DomStructure.ApplyModelOverride | strategies/dom_structure_strategy.py:1639-1666 | the model's value, clamped, when the model has one for the key; the base otherwise |
| DomStructure.RawThreshold | strategies/dom_structure_strategy.py:1676-1687 | a manual or model value is held to the threshold's bounds |
| DomStructure.SmoothedThreshold | strategies/dom_structure_strategy.py:1688-1700 | the smoothed value when the adaptive state smooths the raw threshold, the raw threshold otherwise |
| DomStructure.StackingThreshold | strategies/dom_structure_strategy.py:1668-1720 | an unsmoothed manual override is used as given (never below 0) whatever the quantile; with no quantile, override or model value, it is the adaptive scaling of the setting |
| DomStructure.ObiThreshold | strategies/dom_structure_strategy.py:1722-1840 | an unsmoothed manual override is used, clamped into [0, 1], whatever the quantile; an unsmoothed model value lies in [0, 1] too |
| DomStructure.OfiThreshold | strategies/dom_structure_strategy.py:1845-1897 | an unsmoothed manual override is used as given (never below 0); a non-positive setting is never blended with the quantile |
| DomStructure.StackingThresholdBlend | strategies/dom_structure_strategy.py:1668-1720 | without a manual override or a model value, the stacking threshold is the (smoothed) adaptive scaling of `(setting + max(0, quantile)) / 2` when a target is set and its quantile known, and of the setting otherwise |
| DomStructure.ObiThresholdBlend | strategies/dom_structure_strategy.py:1722-1840 | without a manual override or a model value, an OBI threshold is the (smoothed) adaptive scaling, bounded to [0, 1], of `clamp01((setting + clamp01(quantile)) / 2)` when a target is set and the "obi" quantile known, and of `clamp01(setting)` otherwise |
| DomStructure.OfiThresholdBlend | strategies/dom_structure_strategy.py:1845-1897 | without a manual override or a model value, the OFI threshold is the (smoothed) adaptive scaling of `(setting + abs(quantile)) / 2` only when the setting is positive, a target is set and the "ofi" quantile known, and of the setting otherwise |
| DomStructure.ThresholdPrecedence | strategies/dom_structure_strategy.py:1676-1687 | a manual override beats the model's value, which beats the adaptive scaling |
| DomStructure.MetricOr | strategies/dom_structure_strategy.py:1717 | a missing or zero metric reads as the default |
| DomStructure.Clamp01 | strategies/dom_structure_strategy.py:1731 | the result lies in [0, 1]; values inside are kept |
| DomStructure.AtLeastIfPositive | strategies/dom_structure_strategy.py:1716-1720 | a positive threshold must be met; a non-positive one always passes |
| DomStructure.ObiValueAsWritten | strategies/dom_structure_strategy.py:1721 | the OBI metric when it is present and non-zero; 0.5 when it is missing or zero |
| DomStructure.ObiValue | strategies/dom_structure_strategy.py:1721 | the OBI metric itself, 0.5 only when missing |
| DomStructure.ObiCondition | strategies/dom_structure_strategy.py:1841-1844 | at support the OBI must reach the long threshold; at resistance it must not exceed the short one |
| DomStructure.ObiZeroDiscrepancy | strategies/dom_structure_strategy.py:1721 | with OBI 0.0 at resistance and a short threshold below 0.5, the condition as written fails, and the intended reading passes |
| DomStructure.ObiReadingsAgreeOffZero | strategies/dom_structure_strategy.py:1721 | the two readings agree on every non-zero OBI |
| DomStructure.OfiCondition | strategies/dom_structure_strategy.py:1891-1897 | with a positive threshold, OFI ≥ threshold at support and ≤ −threshold at resistance; otherwise it passes |
| DomStructure.SpreadCondition | strategies/dom_structure_strategy.py:1898-1902 | a known spread no wider than max(tick, tolerance·tick); an unknown spread fails |
| DomStructure.TrendCondition | strategies/dom_structure_strategy.py:1903-1907 | without a threshold it passes; otherwise \|score\| must reach it |
| DomStructure.FakeBreakoutFilter | strategies/dom_structure_strategy.py:1908-1913 | without a maximum it passes; otherwise the breakout probability must not exceed it |
| DomStructure.MomentumCondition | strategies/dom_structure_strategy.py:1914-1920 | it passes before the first move is known, and with no positive threshold; otherwise \|momentum\| ≥ tick·threshold |
| DomStructure.HitCount | strategies/dom_structure_strategy.py:1081 | between 1 and 8 hits |
| DomStructure.HitCountCounts | strategies/dom_structure_strategy.py:1081 | the hit count is 1 (the zone match) plus the number of true flags, counted by `CountTrue` over the seven flags |
| DomStructure.HitCountExtremes | strategies/dom_structure_strategy.py:1081 | the count is 1 iff no flag holds and 8 iff every flag holds |
| DomStructure.HitCountFlip | strategies/dom_structure_strategy.py:1081 | turning on any one flag, and nothing else, adds exactly one hit |
| DomStructure.CountTrueExtremes | strategies/dom_structure_strategy.py:1081 | the count of true entries is 0 iff none is true, and the length iff all are |
| DomStructure.CountTrueFlip | strategies/dom_structure_strategy.py:1081 | turning one false entry true, and nothing else, adds exactly one to the count |
| DomStructure.HitCountMonotone | strategies/dom_structure_strategy.py:1081 | turning a flag on never lowers the hit count |
| DomStructure.EvaluateConditions | strategies/dom_structure_strategy.py:1601-1928 | each flag is its condition on its threshold: stacking, OBI as written (`ObiValueAsWritten`, so a zero OBI reads as 0.5), OFI, spread as `SpreadCondition` states (≤ max(tick, tolerance·tick)), trend, fake breakout, and momentum (true before the first sample) |
| DomStructure.Sanitized | strategies/dom_structure_strategy.py:2073-2078 | exactly the response entries that are booleans or finite numbers are kept, with their numeric values |
| DomStructure.SanitizedIdempotent | strategies/dom_structure_strategy.py:2073-2078 | a sanitised response sanitises to itself |
| DomStructure.SanitizeResponse | strategies/dom_structure_strategy.py:2073-2079 | the sanitising loop computes `Sanitized` |
| DomStructure.InvokeThresholdModel | strategies/dom_structure_strategy.py:2028-2079 | nothing after a timeout, an error or a non-mapping payload; the sanitised mapping otherwise |
| DomEngine.ClampOption01 | strategies/dom_structure_strategy.py:596-605 | a set target quantile is clamped into [0, 1]; an unset one stays unset |
| DomEngine.WholeDefaultQuantity | strategies/dom_structure_strategy.py:550-554 | the default quantity becomes a non-negative whole number, the truncation of a non-negative value |
| DomEngine.SubscriptionIdFor | strategies/dom_structure_strategy.py:540-544 | the stripped subscription id, or the symbol when it is blank; never empty, and missing only when both are |
| DomEngine.NormaliseSettings | strategies/dom_structure_strategy.py:537-611 | after construction: cooldown, frequency, processing interval, exponents and refresh interval ≥ 0, window ≥ 1 s, minimum hits ≥ 1, a whole default quantity ≥ 0, OBI thresholds and fake-breakout maximum in [0, 1], and ordered scale bounds with a positive upper bound |
| DomEngine.TradeStep | strategies/dom_structure_strategy.py:694-707 | a loss increments the streak and trips the breaker at max(1, max_loss_streak) but never clears it; a non-loss resets both |
| DomEngine.LossRunTripsBreaker | strategies/dom_structure_strategy.py:694-699 | from a reset breaker and a streak s ≥ 0, n losses in a row give the streak s + n and trip the breaker iff n > 0 and s + n ≥ max(1, max_loss_streak) |
| DomEngine.RefreshDue | strategies/dom_structure_strategy.py:2011-2015 | a refresh is due when the cache is empty, and otherwise iff the refresh interval has passed since the last refresh |
| DomEngine.TrippedStaysTripped | strategies/dom_structure_strategy.py:695-698 | losses never clear a tripped breaker |
| DomEngine.GatePassesIff | strategies/dom_structure_strategy.py:1120-1175 | the gate passes iff hits ≥ required, not cooling down, breaker clear, frequency satisfied, a side resolves, quantity > 0 and risk permits; then with that side |
| DomEngine.CooldownNoticeOnce | strategies/dom_structure_strategy.py:1133-1137 | during one cooldown the notice is sent once |
| DomEngine.EvictStale | strategies/dom_structure_strategy.py:1461-1462 | the popleft loop computes `DropStale` |
| DomEngine.Or | strategies/dom_structure_strategy.py:1234 | `value or fallback` |
| DomEngine.SignalMetadataMerge | strategies/dom_structure_strategy.py:1227-1240 | the keys are exactly the strategy's, the contract's, `subscription_id` and `symbol`; a contract entry other than the symbol overrides the strategy's own; the strategy's other entries stay; with a non-empty snapshot symbol the symbol is truthy |
| DomEngine.EffectiveVolatilityScale | strategies/dom_structure_strategy.py:1040-1048 | a model volatility scale replaces the adaptive one: kept when inside the scale bounds, raised to the lower bound below them, lowered to the upper bound above them; without one the adaptive scale is used |
| DomEngine.ConditionHits | strategies/dom_structure_strategy.py:1067-1081 | the hits are exactly the hit count of the eight flags `EvaluateConditions` gives for this zone, spread, trend score, momentum, metrics, model values, overrides and adaptive state; so between 1 and 8 |
| DomEngine.ScaledQuantity | strategies/dom_structure_strategy.py:1098-1101 | the floor of the scaled quantity when it is positive, else 0 |
| DomEngine.ScaledCooldown | strategies/dom_structure_strategy.py:1102 | the scaled cooldown when it is non-negative, else 0 |
| DomEngine.Assess | strategies/dom_structure_strategy.py:1067-1119 | hits in 1..8, required hits ≥ 1, a non-negative whole quantity and a non-negative cooldown |
| DomEngine.RuntimeSettings | strategies/dom_structure_strategy.py:1082-1095 | the regime's settings have required hits ≥ 1, cooldown ≥ 0 and quantity ≥ 0; without regime overrides they are the engine's own settings |
| DomEngine.OrderQuantity | strategies/dom_structure_strategy.py:1082-1101 | the order quantity is the floor of the regime's default quantity times the quantity scale (with the model's volatility scale when it has one), and 0 when that product is not positive |
| DomEngine.SignalCooldown | strategies/dom_structure_strategy.py:1082-1102 | the cooldown is the regime's cooldown times the cooldown scale, or 0 when that product is negative |
| DomEngine.EvaluationMetadataEntries | strategies/dom_structure_strategy.py:1179-1216 | the strategy's own entries are exactly the twelve keys, with the zone name, the mid price (also the entry price hint), support and resistance, hits, quantity, scaled cooldown and regime |
| DomEngine.DomStructureStrategy.constructor | strategies/dom_structure_strategy.py:537-634 | settings normalised, regime overrides normalised, tick from the symbol, and every runtime field at its initial value |
| DomEngine.DomStructureStrategy.RecordTradeResult | strategies/dom_structure_strategy.py:694-707 | the streak and breaker move as `TradeStep` says |
| DomEngine.DomStructureStrategy.UpdateStructure | strategies/dom_structure_strategy.py:1458-1462 | the window becomes the old window plus the new sample, minus the samples older than the window |
| DomEngine.DomStructureStrategy.ComputeMomentum | strategies/dom_structure_strategy.py:1535-1542 | the move since the previous mid, or 0 and not ready for the first mid; the mid is remembered |
| DomEngine.DomStructureStrategy.MaybeRefreshThresholdModel | strategies/dom_structure_strategy.py:2001-2025 | a refresh happens iff the model is enabled and the cache is empty or stale; a failed refresh clears the cache, a successful one replaces it, and no refresh leaves it alone; the result is the cache, or nothing when it is empty |
| DomEngine.GateVerdict | strategies/dom_structure_strategy.py:1120-1175 | blocked for too few hits iff hits < required; cooling down iff enough hits and now < cooldown end, with the notice sent iff it was not sent for this cooldown; breaker-blocked iff neither and the breaker is tripped; a pass needs a positive quantity and the risk engine's consent |
| DomEngine.DomStructureStrategy.Gate | strategies/dom_structure_strategy.py:1120-1252 | the state stays valid; on any early return, the signals, cooldown and last-signal times are unchanged; on emission exactly one signal with the assessed quantity is appended to the bounded deque and the cooldown ends at now + the assessed cooldown |
| DomEngine.DomStructureStrategy.Emit | strategies/dom_structure_strategy.py:1241-1252 | the signal is recorded in the bounded deque, and the frequency guard and cooldown restart |
| DomEngine.DomStructureStrategy.OnDomSnapshot | strategies/dom_structure_strategy.py:983-1252 | a snapshot is dropped as inactive, other-symbol or throttled exactly when that check fails, and a dropped one changes no state at all; any other records the process time and is decided as `SnapshotDecided` says: without a mid price nothing else changes; a mid price enters the window, and one in no zone changes nothing more; one in a zone is decided as `ZoneDecided` says |
| DomEngine.DomStructureStrategy.ProcessMidPrice | strategies/dom_structure_strategy.py:1006-1252 | the window takes the sample (`WindowUpdated`); a mid in no zone of the updated window is `NoZone` and leaves momentum, model cache and gate state alone; a mid in a zone is decided as `ZoneDecided` says, on the zone `DetectZone` finds and the window's extremes |
| DomEngine.DomStructureStrategy.ModelInUse | strategies/dom_structure_strategy.py:1021-1041 | the model's values are used iff the model is enabled, a client is set and the cache is not empty, and are then the cache |
| DomEngine.DomStructureStrategy.EvaluateZone | strategies/dom_structure_strategy.py:1012-1119 | the mid is remembered, momentum is ready iff a mid was seen before and is the move since it, and the model cache is refreshed as `ModelRefreshed` says; the assessment is `Assess` on the snapshot, zone, momentum and the model in use after the refresh, so it has 1..8 hits, the regime's required hits, and that model's `OrderQuantity` and `SignalCooldown` |
| DomEngine.DomStructureStrategy.GateZone | strategies/dom_structure_strategy.py:1120-1252 | the outcome is the `GateVerdict` on the assessment: emitted iff it passes, with the verdict's side, the assessed quantity and the signal reason, and otherwise blocked by that verdict; the cooldown notice moves as the verdict says; the signal state changes only on emission; an emitted signal's metadata is `DomSignalMetadata` over the evaluation's entries and the snapshot's contract metadata |
| DomEngine.DomStructureStrategy.GatedInZone | strategies/dom_structure_strategy.py:1120-1175 | the gate's verdict on an assessment's hits, required hits and quantity, with the snapshot's imbalance and receive time, is the zone's gating (`ZoneGated`) |
| DomEngine.DomStructureStrategy.ProcessZone | strategies/dom_structure_strategy.py:1012-1252 | the snapshot is decided as `ZoneDecided` says: the evaluation state as `EvaluateZone` leaves it, and the gate's verdict on `Assess` of the snapshot, zone, momentum and refreshed model, with the signal state changed only on emission |
| DomEngine.DomStructureStrategy.ProcessSnapshot | strategies/dom_structure_strategy.py:995-1011 | a let-through snapshot records the process time, is never dropped, and is decided as `SnapshotDecided` says |
| DomEngine.DomStructureStrategy.EmittedSignalPassedGate | strategies/dom_structure_strategy.py:1067-1252 | an emitted signal had a condition hit count of at least the regime's required hits, the cooldown over, the breaker clear, the frequency guard satisfied and the risk engine's consent; it has the side `ResolveSide` gives for the zone and the positive `OrderQuantity` of the model in use, is appended to the bounded deque, and the cooldown ends at the gate time plus `SignalCooldown` |
| DomEngine.AppendKeepsChronological | strategies/dom_structure_strategy.py:1459 | appending a sample no older than the window keeps it chronological |
| DomEngine.DropStaleNotAfter | strategies/dom_structure_strategy.py:1461-1462 | eviction keeps every sample no later than a bound |
| DomEngine.AppendEvictChronological | strategies/dom_structure_strategy.py:1458-1462 | with non-decreasing timestamps, the window stays chronological |
| DomEngine.AppendEvictNotBefore | strategies/dom_structure_strategy.py:1458-1462 | with non-decreasing timestamps, no retained sample is older than the cutoff |
| DomEngine.AppendEvictNotAfter | strategies/dom_structure_strategy.py:1458-1462 | no retained sample is later than the newest |
| MeanReversion.Screen | strategies/mean_reversion_strategy.py:112-143 | a candle goes on iff its type is absent or "candle", it is closed, its interval (if given) is the subscribed one, and it carries a close or a price; close is preferred |
| MeanReversion.KeepLast | strategies/mean_reversion_strategy.py:207-209 | the newest n prices |
| MeanReversion.Transition | strategies/mean_reversion_strategy.py:420-472 | entries only when flat and exits only when holding; an entry SELLs to −1 or BUYs to +1, an exit goes to 0; a SELL needs z ≥ the entry (flat) or exit threshold, a BUY z ≤ its negation; longs are only sold and shorts only bought |
| MeanReversion.TransitionHoldsIff | strategies/mean_reversion_strategy.py:420-472 | no signal iff z lies inside the current position's band |
| MeanReversion.TransitionKeepsUnitPosition | strategies/mean_reversion_strategy.py:420-472 | positions stay in −1..1 and never flip sign without passing through flat |
| MeanReversion.EntryGuard | strategies/mean_reversion_strategy.py:346-375 | no guard fires iff the breaker is clear, no cooldown is active and the frequency guard is satisfied; the breaker is checked first |
| MeanReversion.EntryMetadata | strategies/mean_reversion_strategy.py:327-337 | z-score, price and symbol (the empty string for a falsy symbol) always; the discarded fraction, and the raw request when numeric, only when a fraction was dropped; no other key |
| MeanReversion.SkipLogDedupes | strategies/mean_reversion_strategy.py:80-87 | over two successive calls: a message just written is written again iff the dedupe interval has passed since, and a different message is always written |
| MeanReversion.MeanReversionStrategy.constructor | strategies/mean_reversion_strategy.py:63-69 | empty history bounded by the lookback, flat, no candle seen |
| MeanReversion.MeanReversionStrategy.LogSkipReason | strategies/mean_reversion_strategy.py:71-99 | the skip state becomes `AfterSkipLog` of the old one: a repeated message within the interval is dropped; otherwise it is logged and remembered with its time |
| MeanReversion.MeanReversionStrategy.ProcessCandle | strategies/mean_reversion_strategy.py:112-143 | screened-out events touch neither the history, its bound nor the position; intrabar and off-interval candles log their message as `_log_skip_reason` does (117, 129), at its own monotonic reading, and the other skips leave the skip log alone; the others are handled as closed candles, with the same guarantees |
| MeanReversion.MeanReversionStrategy.ProcessClosedCandle | strategies/mean_reversion_strategy.py:199-215 | a candle is ignored only when its id was just seen or its price is not a finite number; otherwise the price goes into the bounded history; replayed and warming-up candles stop there and submit nothing; with a full history the candle is decided as `Decide` states; only a suppressed entry changes the skip log |
| MeanReversion.MeanReversionStrategy.RecordPrice | strategies/mean_reversion_strategy.py:207-212 | the history is resized to the lookback and then takes the price, never exceeding the bound |
| MeanReversion.MeanReversionStrategy.Decide | strategies/mean_reversion_strategy.py:312-472 | no quantity means no signal; no transition means no signal; an entry is suppressed iff a guard fires; otherwise the signal is the transition's, and the position changes, to the transition's target, only when the queue accepts it; a suppressed entry logs the guard's message as `_log_skip_reason` does, and every other outcome leaves the skip log alone |
| MeanReversion.MeanReversionStrategy.EnqueueSignal | strategies/mean_reversion_strategy.py:339-382 | the guards apply to entries only, and a suppressed entry updates the skip log as `_log_skip_reason` does for the guard's message, at that function's own monotonic reading (80), separate from the guards' reading (347); an accepted signal moves the position, and a refused one leaves it; otherwise the skip log is untouched |
| MeanReversion.DequeAppend | strategies/mean_reversion_strategy.py:212 | the new price is last, the bound holds, and a zero-length deque stays empty |
| MeanReversion.DequeAppendKeepsNewest | strategies/mean_reversion_strategy.py:207-212 | appending keeps the newest `lookback` prices |
| MeanReversion.HistoryHoldsNewest | strategies/mean_reversion_strategy.py:207-212 | after any run of candles, the history holds exactly the newest `lookback` prices |
| MeanReversion.KeepLastAppend | strategies/mean_reversion_strategy.py:207-209 | trimming before appending more, then trimming again, is trimming once |
| Predictive.EmptyState | strategies/predictive_strategy.py:18-27 | the "uninitialised" state with mean 0, std 1, score 0 and no metrics |
| Predictive.RemoveFirst | strategies/predictive_strategy.py:57-61 | an absent listener leaves the list alone; a present one shortens it by one, and other listeners stay |
| Predictive.SubscribeIdempotent | strategies/predictive_strategy.py:53-55 | subscribing twice is subscribing once, and no listener is listed twice |
| Predictive.RemoveFirstDrops | strategies/predictive_strategy.py:57-61 | on a duplicate-free list, removal drops the listener entirely |
| Predictive.UnsubscribeUndoesSubscribe | strategies/predictive_strategy.py:53-61 | unsubscribing a newly subscribed listener restores the list |
| Predictive.PredictiveModelRepository.constructor | strategies/predictive_strategy.py:31-34 | no states, no active version, no listeners |
| Predictive.PredictiveModelRepository.Upsert | strategies/predictive_strategy.py:36-40 | the state is stored under its version, replacing an earlier one; only the first upsert activates and notifies |
| Predictive.PredictiveModelRepository.Activate | strategies/predictive_strategy.py:42-46 | an unknown version fails and changes nothing; a known one becomes active and is announced |
| Predictive.PredictiveModelRepository.GetActive | strategies/predictive_strategy.py:48-51 | nothing iff the active version is unset or empty; otherwise its stored state |
| Predictive.PredictiveModelRepository.Subscribe | strategies/predictive_strategy.py:53-55 | the listener is added once |
| Predictive.PredictiveModelRepository.Unsubscribe | strategies/predictive_strategy.py:57-61 | the listener is removed and absent afterwards |
| Predictive.PredictiveModelRepository.Notify | strategies/predictive_strategy.py:63-68 | every listener of the snapshot is called once, in registration order |

## Left out

- Text parsing by `float()`: a string is treated as non-numeric everywhere. This affects `_coerce_numeric`, the override and setting parsers, quantity coercion, and the mean-reversion price.
- Floating point: prices, sizes, times and scales are exact reals. Rounding error is not modelled.
- DomConfig.ParseNonNegative: rejects an infinite cooldown or quantity setting, which the source keeps.
- DomConfig.ParseRequiredHits: rejects an infinite required-hits setting. The source raises OverflowError from `round` there.
- DomStructure.CoerceOverride: a NaN or infinite override goes through the same `max`/`min` clamp as in the source, so NaN and -inf become the lower bound 0.0 at all four call sites, and +inf becomes 1.0 for the two OBI keys. Only a value that stays infinite does not apply: +inf for the stacking and OFI keys, which have no upper bound. The source uses +inf as the threshold there, so those conditions fail; the model falls back to the model value or the adaptive threshold.
- JSON decoding in `_normalise_regime_overrides` (2382-2404): overrides are given as already-parsed entries.
- `AdaptiveThresholdState` and `ThresholdModelClient`: their source is not part of this model. Their results are inputs: scaling, quantile adjustment, smoothing, regime classification, the volatility scale and its bounds, and how a model call ended.
- `_update_structure`'s volatility update (1463-1504): it belongs to the adaptive state and its detail payloads. `UpdateStructure` models the window only.
- The order book: `_extract_mid_price`, `_compute_imbalance`, `_compute_spread` and `_update_metrics` are foreign. Their results are fields of `Snapshot` and `Readings`.
- Threshold-model features, executor and timeout (1931-1987, 2028-2062): the call's outcome is an input.
- `_passes_risk` and the position provider: the risk verdict is a boolean input, and the risk reason text is not kept.
- Clocks: each clock reading is an input. The two monotonic reads of `_on_dom_snapshot` are distinct inputs, and so are the guards' monotonic read in `enqueue_signal` and the one `_log_skip_reason` takes.
- Telemetry, logging and event dispatch: these are output to external sinks. The mean-reversion skip log keeps only the message texts.
- Signal metadata: only the strategy's own entries are kept. The observability entries are not modelled: adaptive thresholds, debug detail, model thresholds, metric snapshots, conditions, and scales.
- `pow`: an uninterpreted function. The volatility scales are proved for any `pow`.
- `apply_parameter_updates`, `start`/`stop`, `set_dependencies`, `describe`, `_normalise_parameter_value` and `StrategySignal.from_probability`: none of these is part of the decision core. As a result, settings, the symbol and the tick size are constant after construction, and the manual threshold overrides keep their initial value.
- `StrategyTemplate.__post_init__`'s base-class initialisation and parameter definitions: base-class code that is not part of this model.
- Upper and lower case: ASCII letters only.
- DomEngine.Assess: its own contract states only the ranges of the assessment, because its body just bundles four functions and an equation per part would repeat it. What each part means is stated by `ConditionHits`, `RuntimeSettings`, `OrderQuantity` and `SignalCooldown`.
- DomEngine.DomStructureStrategy.OnDomSnapshot: does not restate the metadata of an emitted signal, and neither do `ProcessSnapshot`, `ProcessMidPrice` and `ProcessZone`. `GateZone` states it exactly; carrying that map equation through `ZoneDecided` would add no fact about the decision.
- The mean-reversion z-score (306-310): it uses a mean and a square root, so it is an input.
- The canonical candle id (145-197): parsing datetimes, so it is an input.
- The history-replay flag: an input.
- Backfill requests (216-303): data-layer I/O.
- The mean-reversion guard state: the breaker, cooldown deadline and last signal time belong to a base class not part of this model. They are read-only inputs (`Guards`). The queue's answer is an input.
- A non-numeric mean-reversion price: `float(price)` raising ValueError is modelled as the outcome `Ignored(NonNumericPrice)`, after the candle id was recorded as in the source.
- A negative lookback, for which `deque` raises ValueError: the lookback is a `nat`.
- MeanReversion.MeanReversionStrategy.ProcessClosedCandle: a NaN or infinite price is ignored as `NonNumericPrice`, because prices are exact reals; the source appends it to the history (205-212) and goes on with it.
- MeanReversion.MeanReversionStrategy.Decide: with a lookback of 0 the source raises StatisticsError from `mean` of the empty history (306); the z-score is an input here, so the model decides on it instead.
- DomEngine.WholeDefaultQuantity: a NaN or infinite `default_quantity` becomes 0, because the setting is an exact real; the source's `int()` raises there (550-554).
- `on_market_event` (530-534): only forwards closed candles to `_process_candle_event`.
- Listeners: they are identity tokens, and a call is a recorded delivery. An exception a listener raises is swallowed, so it is the same as a normal return. A listener that modifies the repository while being notified is not modelled.
- `fusion_config`: its object identity is a number.

## Findings

| source | as written | input that shows it | evidently intended | confidence | as-written member | corrected member |
|---|---|---|---|---|---|---|
| strategies/dom_structure_strategy.py:1721 | the OBI reading falls back to 0.5 on any falsy metric, so an OBI of exactly 0.0 (no bid volume) reads as neutral | metrics {"obi": 0.0}, resistance zone, short threshold 0.3: the OBI condition fails, though a book with no bids is the strongest sell imbalance | fall back to 0.5 only when the metric is missing | medium, not executed | DomStructure.ObiValueAsWritten, with DomStructure.ObiZeroDiscrepancy | DomStructure.ObiValue |
