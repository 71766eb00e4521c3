/**
  * The stateful part of `DomStructureStrategy`
  * (strategies/dom_structure_strategy.py): settings normalised at
  * construction, the structure window, the loss-streak breaker, momentum,
  * the threshold-model cache and the emission gate of `_on_dom_snapshot`.
  *
  * Clocks, the analytics metrics, `AdaptiveThresholdState`, the threshold
  * model call and the risk engine's verdict are inputs (`Readings`).
  */
module DomEngine {
  import opened Wrappers
  import opened PyValues
  import opened Templates
  import opened DomConfig
  import opened DomStructure

  /** `_signals = deque(maxlen=64)`. */
  const SignalsMaxLen: nat := 64

  const SignalReason: string := "dom-structure"

  // ---------------------------------------------------------------------------
  // Settings

  /** The strategy's tunable fields. */
  datatype DomSettings = DomSettings(
    symbol: string,
    subscriptionId: Option<string>,
    cooldownSeconds: real,
    structureWindowSeconds: real,
    minSignalConditions: int,
    signalFrequencySeconds: real,
    defaultQuantity: Dyn,
    minProcessingInterval: real,
    maxLossStreak: int,
    conditions: ConditionSettings,
    quantityScaleExponent: real,
    cooldownScaleExponent: real,
    quantityScaleBounds: Bounds,
    cooldownScaleBounds: Bounds,
    thresholdModelEnabled: bool,
    thresholdModelRefreshSeconds: real)
  {
    /** The ranges `__post_init__` establishes. */
    predicate Valid() {
      cooldownSeconds >= 0.0 && structureWindowSeconds >= 1.0 && minSignalConditions >= 1
      && signalFrequencySeconds >= 0.0 && defaultQuantity.DInt? && defaultQuantity.i >= 0
      && minProcessingInterval >= 0.0
      && conditions.stackingIntensityThreshold >= 0.0 && conditions.ofiThreshold >= 0.0
      && 0.0 <= conditions.obiLongThreshold <= 1.0 && 0.0 <= conditions.obiShortThreshold <= 1.0
      && conditions.structureToleranceTicks >= 0.0 && conditions.momentumTickThreshold >= 0.0
      && (conditions.fakeBreakoutMax.Some? ==> 0.0 <= conditions.fakeBreakoutMax.value <= 1.0)
      && quantityScaleExponent >= 0.0 && cooldownScaleExponent >= 0.0
      && 0.0 <= quantityScaleBounds.0 <= quantityScaleBounds.1 && quantityScaleBounds.1 > 0.0
      && 0.0 <= cooldownScaleBounds.0 <= cooldownScaleBounds.1 && cooldownScaleBounds.1 > 0.0
      && thresholdModelRefreshSeconds >= 0.0
    }
  }

  /** Settings in the ranges `__post_init__` establishes. */
  type ValidSettings = s: DomSettings | s.Valid()
    witness NormaliseSettings(DomSettings("", None, 0.0, 0.0, 0, 0.0, DInt(0), 0.0, 0,
                                          ConditionSettings(0.0, 0.0, 0.0, 0.0, None, None, None, None, 0.0, None, None, 0.0),
                                          0.0, 0.0, (0.0, 0.0), (0.0, 0.0), false, 0.0))

  function ClampOption01(x: Option<real>): (r: Option<real>)
    ensures r.Some? <==> x.Some?
    ensures r.Some? ==> 0.0 <= r.value <= 1.0
  {
    match x
    case Some(v) => Some(Clamp01(v))
    case None => None
  }

  /** `int(float(default_quantity))` floored at 0; a value `float` rejects counts as 0. */
  function WholeDefaultQuantity(v: Dyn): (n: int)
    ensures n >= 0
    ensures ToFloat(v).Finite? && ToFloat(v).x >= 0.0 ==> n as real <= ToFloat(v).x < n as real + 1.0
  {
    match ToFloat(v)
    case Finite(x) => if Trunc(x) < 0 then 0 else Trunc(x)
    case _ => 0
  }

  /** The subscription id `__post_init__` keeps: the stripped text, or the
      symbol when that is blank or missing. */
  function SubscriptionIdFor(subscriptionId: Option<string>, symbol: string): (r: Option<string>)
    ensures r.Some? ==> r.value != []
    ensures r.None? <==> symbol == [] && (subscriptionId.None? || Strip(subscriptionId.value) == [])
  {
    var text := match subscriptionId case Some(s) => Strip(s) case None => [];
    if text != [] then Some(text) else if symbol != [] then Some(symbol) else None
  }

  /** The clamps of `__post_init__` on the fields this model keeps. */
  function NormaliseSettings(raw: DomSettings): (s: DomSettings)
    ensures s.Valid()
  {
    var symbol := Strip(Upper(raw.symbol));
    var c := raw.conditions;
    DomSettings(
      symbol,
      SubscriptionIdFor(raw.subscriptionId, symbol),
      Max(0.0, raw.cooldownSeconds),
      Max(1.0, raw.structureWindowSeconds),
      if raw.minSignalConditions < 1 then 1 else raw.minSignalConditions,
      Max(0.0, raw.signalFrequencySeconds),
      DInt(WholeDefaultQuantity(raw.defaultQuantity)),
      Max(0.0, raw.minProcessingInterval),
      raw.maxLossStreak,
      ConditionSettings(
        Max(0.0, c.stackingIntensityThreshold),
        Clamp01(c.obiLongThreshold),
        Clamp01(c.obiShortThreshold),
        Max(0.0, c.ofiThreshold),
        ClampOption01(c.targetStackingQuantile),
        ClampOption01(c.targetObiLongQuantile),
        ClampOption01(c.targetObiShortQuantile),
        ClampOption01(c.targetOfiQuantile),
        Max(0.0, c.structureToleranceTicks),
        c.trendThreshold,
        ClampOption01(c.fakeBreakoutMax),
        Max(0.0, c.momentumTickThreshold)),
      Max(0.0, raw.quantityScaleExponent),
      Max(0.0, raw.cooldownScaleExponent),
      NormaliseScaleBounds(Some(raw.quantityScaleBounds), DefaultScaleBounds),
      NormaliseScaleBounds(Some(raw.cooldownScaleBounds), DefaultScaleBounds),
      raw.thresholdModelEnabled,
      Max(0.0, raw.thresholdModelRefreshSeconds))
  }

  // ---------------------------------------------------------------------------
  // Loss-streak breaker

  /** `record_trade_result(pnl)` on (loss_streak, breaker_tripped). */
  function TradeStep(streak: int, tripped: bool, pnl: real, maxLossStreak: int): (r: (int, bool))
    ensures pnl < 0.0 ==> r.0 == streak + 1 && (tripped ==> r.1)
    ensures pnl < 0.0 ==> (r.1 <==> tripped || streak + 1 >= (if maxLossStreak < 1 then 1 else maxLossStreak))
    ensures pnl >= 0.0 ==> r == (0, false)
  {
    if pnl < 0.0 then
      var streak := streak + 1;
      (streak, tripped || streak >= (if maxLossStreak < 1 then 1 else maxLossStreak))
    else (0, false)
  }

  /** The breaker state after a run of trade results. */
  function TradesStep(streak: int, tripped: bool, pnls: seq<real>, maxLossStreak: int): (int, bool)
    decreases |pnls|
  {
    if pnls == [] then (streak, tripped)
    else
      var next := TradeStep(streak, tripped, pnls[0], maxLossStreak);
      TradesStep(next.0, next.1, pnls[1..], maxLossStreak)
  }

  /** From a reset breaker, `n` losses in a row trip it exactly when `n`
      reaches `max(1, max_loss_streak)`, and the streak counts them. */
  lemma {:induction false} LossRunTripsBreaker(streak: int, pnls: seq<real>, maxLossStreak: int)
    requires streak >= 0
    requires forall i | 0 <= i < |pnls| :: pnls[i] < 0.0
    ensures TradesStep(streak, false, pnls, maxLossStreak).0 == streak + |pnls|
    ensures TradesStep(streak, false, pnls, maxLossStreak).1
        <==> pnls != [] && streak + |pnls| >= (if maxLossStreak < 1 then 1 else maxLossStreak)
    decreases |pnls|
  {
    if pnls != [] {
      var limit := if maxLossStreak < 1 then 1 else maxLossStreak;
      var next := TradeStep(streak, false, pnls[0], maxLossStreak);
      assert forall i | 0 <= i < |pnls[1..]| :: pnls[1..][i] == pnls[i + 1];
      if next.1 {
        TrippedStaysTripped(next.0, pnls[1..], maxLossStreak);
      } else {
        LossRunTripsBreaker(next.0, pnls[1..], maxLossStreak);
      }
    }
  }

  /** Losses never clear a tripped breaker. */
  lemma {:induction false} TrippedStaysTripped(streak: int, pnls: seq<real>, maxLossStreak: int)
    requires forall i | 0 <= i < |pnls| :: pnls[i] < 0.0
    ensures TradesStep(streak, true, pnls, maxLossStreak) == (streak + |pnls|, true)
    decreases |pnls|
  {
    if pnls != [] {
      assert forall i | 0 <= i < |pnls[1..]| :: pnls[1..][i] == pnls[i + 1];
      TrippedStaysTripped(streak + 1, pnls[1..], maxLossStreak);
    }
  }

  // ---------------------------------------------------------------------------
  // Threshold-model cache

  /** The refresh rule: due when the cache is empty or the refresh interval
      has elapsed since the last refresh. */
  function RefreshDue(cache: map<string, real>, lastRefresh: real, now: real, refreshSeconds: real): (due: bool)
    ensures cache == map[] ==> due
    ensures cache != map[] ==> (due <==> now >= lastRefresh + refreshSeconds)
  {
    cache == map[] || now - lastRefresh >= refreshSeconds
  }

  // ---------------------------------------------------------------------------
  // Emission gate

  /** Why the gate stopped, in the order it checks, or the side it passes. */
  datatype Verdict =
    | BelowThreshold
    | CoolingDown(noticeSent: bool)
    | BreakerTripped
    | FrequencyGuard
    | NoSide
    | ZeroQuantity
    | RiskDenied
    | Pass(side: Side)

  /** The checks of `_on_dom_snapshot` from the hit count on, in order. */
  function GateVerdict(hits: int, required: int, now: real, cooldownUntil: real, noticeUntil: real,
                       breakerTripped: bool, frequency: real, nowWall: real, lastSignalWall: real,
                       zone: Zone, imbalance: real, quantity: int, riskPermitted: bool): (v: Verdict)
    // the hit count is checked first, then the cooldown (noticed once), then the breaker
    ensures v == BelowThreshold <==> hits < required
    ensures v.CoolingDown? <==> hits >= required && now < cooldownUntil
    ensures v.CoolingDown? ==> (v.noticeSent <==> noticeUntil != cooldownUntil)
    ensures v == BreakerTripped <==> hits >= required && now >= cooldownUntil && breakerTripped
    // nothing passes without a positive quantity and the risk engine's consent
    ensures v.Pass? ==> quantity > 0 && riskPermitted
  {
    if hits < required then BelowThreshold
    else if now < cooldownUntil then CoolingDown(noticeUntil != cooldownUntil)
    else if breakerTripped then BreakerTripped
    else if frequency > 0.0 && nowWall - lastSignalWall < frequency then FrequencyGuard
    else match ResolveSide(zone, imbalance)
      case None => NoSide
      case Some(side) =>
        if quantity <= 0 then ZeroQuantity
        else if !riskPermitted then RiskDenied
        else Pass(side)
  }

  /** The gate passes exactly when every check passes, and then with the
      side `_resolve_side` gives. */
  lemma GatePassesIff(hits: int, required: int, now: real, cooldownUntil: real, noticeUntil: real,
                      breakerTripped: bool, frequency: real, nowWall: real, lastSignalWall: real,
                      zone: Zone, imbalance: real, quantity: int, riskPermitted: bool)
    ensures var v := GateVerdict(hits, required, now, cooldownUntil, noticeUntil, breakerTripped, frequency,
                                 nowWall, lastSignalWall, zone, imbalance, quantity, riskPermitted);
      v.Pass? <==> hits >= required && now >= cooldownUntil && !breakerTripped
                   && !(frequency > 0.0 && nowWall - lastSignalWall < frequency)
                   && ResolveSide(zone, imbalance).Some? && quantity > 0 && riskPermitted
    ensures var v := GateVerdict(hits, required, now, cooldownUntil, noticeUntil, breakerTripped, frequency,
                                 nowWall, lastSignalWall, zone, imbalance, quantity, riskPermitted);
      v.Pass? ==> Some(v.side) == ResolveSide(zone, imbalance)
  {
  }

  /** The cooldown notice goes out once per cooldown: right after a notice,
      the same cooldown sends none. */
  lemma CooldownNoticeOnce(hits: int, required: int, now: real, later: real, cooldownUntil: real, noticeUntil: real,
                           breakerTripped: bool, frequency: real, nowWall: real, lastSignalWall: real,
                           zone: Zone, imbalance: real, quantity: int, riskPermitted: bool)
    requires GateVerdict(hits, required, now, cooldownUntil, noticeUntil, breakerTripped, frequency,
                         nowWall, lastSignalWall, zone, imbalance, quantity, riskPermitted).CoolingDown?
    requires hits >= required && later < cooldownUntil
    ensures GateVerdict(hits, required, later, cooldownUntil, cooldownUntil, breakerTripped, frequency,
                        nowWall, lastSignalWall, zone, imbalance, quantity, riskPermitted) == CoolingDown(false)
  {
  }

  /** The eviction loop of `_update_structure`: pop samples older than
      `cutoff` from the front. */
  method EvictStale(window: seq<Sample>, cutoff: real) returns (r: seq<Sample>)
    ensures r == DropStale(window, cutoff)
  {
    r := window;
    while r != [] && r[0].0 < cutoff
      invariant DropStale(r, cutoff) == DropStale(window, cutoff)
      decreases |r|
    {
      r := r[1..];
    }
  }

  /** The zone's name in signal metadata. */
  function ZoneName(zone: Zone): string {
    if zone == Support then "support" else "resistance"
  }

  /** `value or fallback`. */
  function Or(value: Dyn, fallback: Dyn): (r: Dyn)
    ensures Truthy(value) ==> r == value
    ensures !Truthy(value) ==> r == fallback
  {
    if Truthy(value) then value else fallback
  }

  function OptionText(s: Option<string>): Dyn {
    match s
    case Some(t) => DStr(t)
    case None => DNone
  }

  /** The signal metadata: the evaluation's own entries, updated with the
      contract metadata extracted from the snapshot, then a subscription id
      filled in when missing and a symbol when missing or falsy. Its
      properties are `SignalMetadataMerge`. */
  function DomSignalMetadata(base: map<string, Dyn>, contract: map<string, Dyn>, snapshotMetadata: Dyn,
                             subscriptionId: Option<string>, symbol: string, snapshotSymbol: string): map<string, Dyn>
  {
    var meta := if snapshotMetadata.DMap? then snapshotMetadata.m else map[];
    var merged := base + contract;
    var merged := if "subscription_id" in merged then merged
      else merged["subscription_id" := Or(Get(meta, "subscription_id"), Or(OptionText(subscriptionId), Or(DStr(symbol), DStr(snapshotSymbol))))];
    if "symbol" !in merged || !Truthy(merged["symbol"]) then merged["symbol" := Or(Get(meta, "symbol"), DStr(snapshotSymbol))]
    else merged
  }

  /** The entries the strategy itself puts in a signal's metadata (the
      observability entries are not modelled). Its properties are
      `EvaluationMetadataEntries`. */
  function EvaluationMetadata(zone: Zone, mid: real, extremes: (real, real), imbalance: real, trendScore: real,
                              momentum: real, hits: int, quantity: int, cooldown: real, regime: string): map<string, Dyn>
  {
    map[
      "zone" := DStr(ZoneName(zone)),
      "mid_price" := DFloat(mid),
      "support" := DFloat(extremes.0),
      "resistance" := DFloat(extremes.1),
      "imbalance" := DFloat(imbalance),
      "trend_score" := DFloat(trendScore),
      "momentum" := DFloat(momentum),
      "condition_hits" := DInt(hits),
      "order_quantity" := DInt(quantity),
      "scaled_cooldown" := DFloat(cooldown),
      "regime" := DStr(regime),
      "entry_price_hint" := DFloat(mid)]
  }

  /** The merge `DomSignalMetadata` performs: the keys are the evaluation's,
      the contract's and the two filled-in ones; a contract entry other
      than the symbol wins over the evaluation's own; the evaluation's other
      entries stay; and a non-empty snapshot symbol leaves a truthy symbol. */
  lemma SignalMetadataMerge(base: map<string, Dyn>, contract: map<string, Dyn>, snapshotMetadata: Dyn,
                            subscriptionId: Option<string>, symbol: string, snapshotSymbol: string)
    ensures var m := DomSignalMetadata(base, contract, snapshotMetadata, subscriptionId, symbol, snapshotSymbol);
      m.Keys == base.Keys + contract.Keys + {"subscription_id", "symbol"}
      && (snapshotSymbol != [] ==> Truthy(m["symbol"]))
      && (forall k | k in contract && k != "symbol" :: m[k] == contract[k])
      && (forall k | k in base && k !in contract && k != "subscription_id" && k != "symbol" :: m[k] == base[k])
  {
  }

  /** The strategy's own metadata entries are exactly twelve keys: the zone
      name, the mid price (which is also the entry price hint), support and
      resistance, the hit count, the order quantity, the scaled cooldown and
      the regime among them. */
  lemma EvaluationMetadataEntries(zone: Zone, mid: real, extremes: (real, real), imbalance: real, trendScore: real,
                                  momentum: real, hits: int, quantity: int, cooldown: real, regime: string)
    ensures var m := EvaluationMetadata(zone, mid, extremes, imbalance, trendScore, momentum, hits, quantity,
                                        cooldown, regime);
      m.Keys == {"zone", "mid_price", "support", "resistance", "imbalance", "trend_score", "momentum",
                 "condition_hits", "order_quantity", "scaled_cooldown", "regime", "entry_price_hint"}
      && m["zone"] == DStr(if zone == Support then "support" else "resistance")
      && m["mid_price"] == m["entry_price_hint"] == DFloat(mid)
      && m["support"] == DFloat(extremes.0) && m["resistance"] == DFloat(extremes.1)
      && m["condition_hits"] == DInt(hits) && m["order_quantity"] == DInt(quantity)
      && m["scaled_cooldown"] == DFloat(cooldown) && m["regime"] == DStr(regime)
  {
  }

  /** The volatility scale the decision uses: the adaptive state's, replaced
      by the model's `volatility_scale` clamped to the scale bounds when a
      non-empty model response carries one. */
  function EffectiveVolatilityScale(adaptiveScale: real, bounds: Bounds, model: Option<map<string, real>>): (r: real)
    ensures model.Some? && "volatility_scale" in model.value && bounds.0 <= bounds.1 ==> bounds.0 <= r <= bounds.1
    ensures !(model.Some? && "volatility_scale" in model.value) ==> r == adaptiveScale
    // the model's scale is kept inside the bounds and moved to the nearer bound outside them
    ensures model.Some? && "volatility_scale" in model.value ==>
      var m := model.value["volatility_scale"];
      && (bounds.0 <= m <= bounds.1 ==> r == m)
      && (m < bounds.0 ==> r == bounds.0)
      && (m > bounds.1 && bounds.0 <= bounds.1 ==> r == bounds.1)
  {
    if model.Some? && "volatility_scale" in model.value then Max(bounds.0, Min(bounds.1, model.value["volatility_scale"]))
    else adaptiveScale
  }

  // ---------------------------------------------------------------------------
  // Inputs

  /** The parts of a DOM snapshot the decision reads: the mid price (None
      when the book has no usable quote), the total bid and ask sizes, the
      spread, the wall-clock receive time and the metadata mapping. */
  datatype Snapshot = Snapshot(symbol: string, midPrice: Option<real>, totalBid: real, totalAsk: real,
                               spread: Option<real>, receivedAt: real, metadata: Dyn)

  /** Everything the decision takes from collaborators: the two monotonic
      clock reads, the regime and volatility scale the adaptive state reports
      (with its scale bounds and threshold functions), the analytics
      metrics, how the threshold-model call ended, `pow`, and the risk
      engine's verdict. */
  datatype Readings = Readings(
    nowMonotonic: real,
    gateMonotonic: real,
    regime: string,
    volatilityScale: real,
    scaleBounds: Bounds,
    adaptive: Adaptive,
    metrics: map<string, real>,
    modelCall: ModelCall,
    pow: (real, real) -> real,
    riskPermitted: bool)

  /** What `_on_dom_snapshot` settles once a zone is found: the condition
      hits, the hits the regime requires, the whole-contract quantity and the
      scaled cooldown. */
  datatype Assessment = Assessment(hits: int, required: int, quantity: int, cooldown: real)

  /** How many of the entry conditions hold for a snapshot in a zone. */
  function ConditionHits(settings: DomSettings, thresholdOverrides: map<string, Dyn>, tick: real, snapshot: Snapshot,
                         readings: Readings, zone: Zone, momentum: real, momentumReady: bool,
                         model: Option<map<string, real>>): (hits: int)
    ensures 1 <= hits <= 8
    ensures var imbalance := snapshot.totalBid - snapshot.totalAsk;
      hits == HitCount(EvaluateConditions(settings.conditions, zone, snapshot.spread,
                                          TrendScore(imbalance, snapshot.totalBid, snapshot.totalAsk), momentum,
                                          momentumReady, readings.metrics, model, thresholdOverrides, readings.adaptive, tick))
  {
    var imbalance := snapshot.totalBid - snapshot.totalAsk;
    var trendScore := TrendScore(imbalance, snapshot.totalBid, snapshot.totalAsk);
    HitCount(EvaluateConditions(settings.conditions, zone, snapshot.spread, trendScore, momentum,
                                momentumReady, readings.metrics, model, thresholdOverrides, readings.adaptive, tick))
  }

  /** The regime's default quantity scaled by volatility, floored, and zero
      when the scaled amount is not positive. */
  function ScaledQuantity(defaultQuantity: real, quantityScale: real): (q: int)
    ensures q >= 0
    ensures defaultQuantity * quantityScale <= 0.0 ==> q == 0
    ensures defaultQuantity * quantityScale > 0.0 ==> q as real <= defaultQuantity * quantityScale < q as real + 1.0
  {
    var scaled := Max(0.0, defaultQuantity * quantityScale);
    if scaled > 0.0 then Floor(scaled) else 0
  }

  /** The regime's cooldown scaled by volatility, never negative. */
  function ScaledCooldown(cooldownSeconds: real, cooldownScale: real): (c: real)
    ensures c >= 0.0 && c >= cooldownSeconds * cooldownScale
    ensures c == 0.0 || c == cooldownSeconds * cooldownScale
  {
    Max(0.0, cooldownSeconds * cooldownScale)
  }

  /** The regime settings an evaluation runs with. */
  function RuntimeSettings(settings: DomSettings, regimeOverrides: map<string, RegimeOverride>, regime: string): (s: RegimeSettings)
    requires settings.Valid()
    ensures s.requiredHits >= 1 && s.cooldownSeconds >= 0.0 && s.defaultQuantity >= 0.0
    ensures regimeOverrides == map[] ==>
      s == RegimeSettings(settings.minSignalConditions, settings.cooldownSeconds, settings.defaultQuantity.i as real)
  {
    ResolveRegimeSettings(regime, regimeOverrides, settings.minSignalConditions, settings.cooldownSeconds,
                          settings.defaultQuantity.i as real)
  }

  /** The whole-contract quantity of a signal: the regime's default quantity
      scaled by the quantity scale of the volatility the decision uses. */
  function OrderQuantity(settings: DomSettings, regimeOverrides: map<string, RegimeOverride>, readings: Readings,
                         model: Option<map<string, real>>): (q: int)
    requires settings.Valid()
    ensures q >= 0
    ensures var base := RuntimeSettings(settings, regimeOverrides, readings.regime).defaultQuantity;
      var scale := QuantityScale(EffectiveVolatilityScale(readings.volatilityScale, readings.scaleBounds, model),
                                 settings.quantityScaleExponent, readings.pow, settings.quantityScaleBounds);
      q as real <= base * scale && (base * scale > 0.0 ==> base * scale < q as real + 1.0)
  {
    var volatilityScale := EffectiveVolatilityScale(readings.volatilityScale, readings.scaleBounds, model);
    ScaledQuantity(RuntimeSettings(settings, regimeOverrides, readings.regime).defaultQuantity,
                   QuantityScale(volatilityScale, settings.quantityScaleExponent, readings.pow, settings.quantityScaleBounds))
  }

  /** The cooldown a signal starts: the regime's cooldown scaled by the
      cooldown scale of the volatility the decision uses, never negative. */
  function SignalCooldown(settings: DomSettings, regimeOverrides: map<string, RegimeOverride>, readings: Readings,
                          model: Option<map<string, real>>): (c: real)
    requires settings.Valid()
    ensures var base := RuntimeSettings(settings, regimeOverrides, readings.regime).cooldownSeconds;
      var scale := CooldownScale(EffectiveVolatilityScale(readings.volatilityScale, readings.scaleBounds, model),
                                 settings.cooldownScaleExponent, readings.pow, settings.cooldownScaleBounds);
      c >= 0.0 && (c == 0.0 || c == base * scale) && c >= base * scale
  {
    var volatilityScale := EffectiveVolatilityScale(readings.volatilityScale, readings.scaleBounds, model);
    ScaledCooldown(RuntimeSettings(settings, regimeOverrides, readings.regime).cooldownSeconds,
                   CooldownScale(volatilityScale, settings.cooldownScaleExponent, readings.pow, settings.cooldownScaleBounds))
  }

  /** The assessment of a snapshot whose mid lies in `zone`, for an
      instrument with tick size `tick`. */
  function Assess(settings: DomSettings, regimeOverrides: map<string, RegimeOverride>, thresholdOverrides: map<string, Dyn>,
                  tick: real, snapshot: Snapshot, readings: Readings, zone: Zone, momentum: real, momentumReady: bool,
                  model: Option<map<string, real>>): (a: Assessment)
    requires settings.Valid()
    ensures 1 <= a.hits <= 8 && a.required >= 1 && a.quantity >= 0 && a.cooldown >= 0.0
  {
    Assessment(
      ConditionHits(settings, thresholdOverrides, tick, snapshot, readings, zone, momentum, momentumReady, model),
      RuntimeSettings(settings, regimeOverrides, readings.regime).requiredHits,
      OrderQuantity(settings, regimeOverrides, readings, model),
      SignalCooldown(settings, regimeOverrides, readings, model))
  }

  /** What one snapshot led to. */
  datatype Outcome =
    | Inactive
    | OtherSymbol
    | Throttled
    | NoMidPrice
    | NoZone
    | Blocked(verdict: Verdict)
    | Emitted(signal: StrategySignal)
  {
    /** Dropped before the snapshot was looked at. */
    predicate Dropped() {
      Inactive? || OtherSymbol? || Throttled?
    }
  }

  // ---------------------------------------------------------------------------
  // The strategy

  class DomStructureStrategy {
    const settings: ValidSettings
    const regimeOverrides: map<string, RegimeOverride>
    const hasModelClient: bool
    /** `_tick_size()`, fixed by the (constant) symbol. */
    const tick: real
    /** `_adaptive_threshold_overrides`; only the runtime-settings update
        changes them, and that update is not part of this model. */
    const thresholdOverrides: map<string, Dyn>
    var active: bool

    var structureWindow: seq<Sample>
    var lossStreak: int
    var breakerTripped: bool
    var lastMidPrice: Option<real>
    var momentumReady: bool
    var lastProcessMonotonic: real
    var lastSignalMonotonic: real
    var lastSignalWall: real
    var cooldownUntil: real
    var cooldownNoticeUntil: real
    var signals: seq<StrategySignal>
    var latestModelThresholds: map<string, real>
    var thresholdModelLastRefresh: real

    ghost predicate Valid()
      reads this`signals
    {
      |signals| <= SignalsMaxLen
      && forall k | k in regimeOverrides :: IsRegime(k) && regimeOverrides[k].Valid()
    }

    /** Construction and `__post_init__`: settings clamped, regime overrides
        normalised, every piece of runtime state at its initial value. */
    constructor (raw: DomSettings, overrideEntries: seq<(string, Dyn)>, modelClient: bool)
      ensures Valid()
      ensures settings == NormaliseSettings(raw)
      ensures regimeOverrides == NormaliseRegimeOverrides(overrideEntries)
      ensures tick == TickSize(settings.symbol)
      ensures hasModelClient == modelClient && !active && thresholdOverrides == map[]
      ensures structureWindow == [] && signals == [] && latestModelThresholds == map[]
      ensures lossStreak == 0 && !breakerTripped && lastMidPrice.None? && !momentumReady
      ensures lastProcessMonotonic == 0.0 && lastSignalMonotonic == 0.0 && lastSignalWall == 0.0
      ensures cooldownUntil == 0.0 && cooldownNoticeUntil == 0.0 && thresholdModelLastRefresh == 0.0
    {
      settings := NormaliseSettings(raw);
      regimeOverrides := NormaliseRegimeOverrides(overrideEntries);
      tick := TickSize(NormaliseSettings(raw).symbol);
      hasModelClient := modelClient;
      active := false;
      thresholdOverrides := map[];
      structureWindow := [];
      lossStreak := 0;
      breakerTripped := false;
      lastMidPrice := None;
      momentumReady := false;
      lastProcessMonotonic := 0.0;
      lastSignalMonotonic := 0.0;
      lastSignalWall := 0.0;
      cooldownUntil := 0.0;
      cooldownNoticeUntil := 0.0;
      signals := [];
      latestModelThresholds := map[];
      thresholdModelLastRefresh := 0.0;
    }

    /** `record_trade_result(pnl)`. */
    method RecordTradeResult(pnl: real)
      modifies this`lossStreak, this`breakerTripped
      ensures (lossStreak, breakerTripped) == TradeStep(old(lossStreak), old(breakerTripped), pnl, settings.maxLossStreak)
    {
      if pnl < 0.0 {
        lossStreak := lossStreak + 1;
        if lossStreak >= (if settings.maxLossStreak < 1 then 1 else settings.maxLossStreak) {
          breakerTripped := true;
        }
      } else {
        lossStreak := 0;
        breakerTripped := false;
      }
    }

    /** `_update_structure(timestamp, mid_price)`: append, then evict from the
        front every sample older than the window. */
    method UpdateStructure(timestamp: real, midPrice: real)
      modifies this`structureWindow
      ensures WindowUpdated(old(structureWindow), timestamp, midPrice)
    {
      structureWindow := EvictStale(structureWindow + [(timestamp, midPrice)], timestamp - settings.structureWindowSeconds);
    }

    /** `_compute_momentum(mid_price)`: the move since the previous mid, 0.0
        (and not ready) for the first one. */
    method ComputeMomentum(midPrice: real) returns (momentum: real)
      modifies this`lastMidPrice, this`momentumReady
      ensures lastMidPrice == Some(midPrice)
      ensures momentumReady <==> old(lastMidPrice).Some?
      ensures momentum == if old(lastMidPrice).Some? then midPrice - old(lastMidPrice).value else 0.0
    {
      var previous := lastMidPrice;
      lastMidPrice := Some(midPrice);
      if previous.None? {
        momentumReady := false;
        return 0.0;
      }
      momentumReady := true;
      momentum := midPrice - previous.value;
    }

    /** `_maybe_refresh_threshold_model(features, monotonic_now=now)`. */
    method MaybeRefreshThresholdModel(call: ModelCall, now: real) returns (r: Option<map<string, real>>)
      modifies this`latestModelThresholds, this`thresholdModelLastRefresh
      ensures ModelRefreshed(old(latestModelThresholds), old(thresholdModelLastRefresh), call, now)
      ensures r == ModelInUse()
    {
      if !settings.thresholdModelEnabled || !hasModelClient {
        return None;
      }
      var due := latestModelThresholds == map[] || now - thresholdModelLastRefresh >= settings.thresholdModelRefreshSeconds;
      if due {
        var result := InvokeThresholdModel(call);
        thresholdModelLastRefresh := now;
        if result.None? {
          latestModelThresholds := map[];
        } else {
          latestModelThresholds := result.value;
        }
      }
      if latestModelThresholds == map[] {
        return None;
      }
      return Some(latestModelThresholds);
    }

    /** The threshold-model cache after `_maybe_refresh_threshold_model`,
        from the cache `cache0` last refreshed at `refresh0`: untouched when
        the model is off; otherwise refreshed iff due, a failed call
        clearing it and a mapping replacing it with its sanitised form. */
    ghost predicate ModelRefreshed(cache0: map<string, real>, refresh0: real, call: ModelCall, now: real)
      reads this`latestModelThresholds, this`thresholdModelLastRefresh
    {
      (latestModelThresholds, thresholdModelLastRefresh) == RefreshedThresholdModel(cache0, refresh0, call, now)
    }

    /** The cache and refresh time `ModelRefreshed` describes. */
    function RefreshedThresholdModel(cache0: map<string, real>, refresh0: real, call: ModelCall, now: real)
      : (map<string, real>, real)
    {
      if !(settings.thresholdModelEnabled && hasModelClient)
         || !RefreshDue(cache0, refresh0, now, settings.thresholdModelRefreshSeconds)
      then (cache0, refresh0)
      else if call.Returned? && call.payload.DMap? then (Sanitized(call.payload.m), now)
      else (map[], now)
    }

    /** The model response a decision reads after the refresh, from the
        cache before it. */
    function ModelAfterRefresh(cache0: map<string, real>, refresh0: real, call: ModelCall, now: real)
      : Option<map<string, real>>
    {
      ModelFrom(RefreshedThresholdModel(cache0, refresh0, call, now).0)
    }

    /** The gate's decision on verdict `v`, from the cooldown and notice
        before it: a pass emits the verdict's side with `quantity`, any other
        verdict blocks; the cooldown notice is kept below the hit count,
        marked while cooling down, and cleared once the cooldown is over. */
    ghost predicate Gated(v: Verdict, quantity: int, cooldownUntil0: real, noticeUntil0: real, outcome: Outcome)
      reads this`cooldownNoticeUntil
    {
      (outcome.Emitted? <==> v.Pass?)
      && (v.Pass? ==> outcome.signal.side == SideName(v.side) && outcome.signal.quantity == quantity
                      && outcome.signal.reason == SignalReason)
      && (!v.Pass? ==> outcome == Blocked(v))
      && cooldownNoticeUntil == if v.BelowThreshold? then noticeUntil0
                                else if v.CoolingDown? then cooldownUntil0
                                else 0.0
    }

    /** What the evaluation half of `_evaluate_zone` leaves, from the last
        mid and the model cache before it: the mid is remembered, momentum is
        ready once a mid was seen before, and the cache is refreshed as
        `ModelRefreshed` says. */
    ghost predicate Evaluated(lastMid0: Option<real>, cache0: map<string, real>, refresh0: real,
                              readings: Readings, mid: real)
      reads this`lastMidPrice, this`momentumReady, this`latestModelThresholds, this`thresholdModelLastRefresh
    {
      lastMidPrice == Some(mid) && (momentumReady <==> lastMid0.Some?)
      && ModelRefreshed(cache0, refresh0, readings.modelCall, readings.nowMonotonic)
    }

    /** The gate's decision on assessment `a` of a snapshot whose mid lies
        in `zone`. */
    ghost predicate ZoneGated(cooldownUntil0: real, noticeUntil0: real, lastSignalWall0: real,
                              snapshot: Snapshot, readings: Readings, zone: Zone, a: Assessment, outcome: Outcome)
      reads this`breakerTripped, this`cooldownNoticeUntil
    {
      Gated(GateVerdict(a.hits, a.required, readings.gateMonotonic, cooldownUntil0, noticeUntil0, breakerTripped,
                        settings.signalFrequencySeconds, snapshot.receivedAt, lastSignalWall0, zone,
                        snapshot.totalBid - snapshot.totalAsk, a.quantity, readings.riskPermitted),
            a.quantity, cooldownUntil0, noticeUntil0, outcome)
    }

    /** What `_evaluate_zone` decided for a mid in `zone`, from the last mid,
        model cache and gate state before it: `Evaluated`, and the gate ruled
        on `Assess` of the momentum and the model in use after the refresh,
        and recorded what it let through with the assessed cooldown. */
    ghost predicate ZoneDecided(lastMid0: Option<real>, cache0: map<string, real>, refresh0: real,
                                signals0: seq<StrategySignal>, cooldownUntil0: real, noticeUntil0: real,
                                lastSignalWall0: real, lastSignalMonotonic0: real,
                                snapshot: Snapshot, readings: Readings, mid: real, zone: Zone,
                                extremes: (real, real), outcome: Outcome)
      reads this`lastMidPrice, this`momentumReady, this`latestModelThresholds, this`thresholdModelLastRefresh,
            this`signals, this`cooldownUntil, this`lastSignalWall, this`lastSignalMonotonic,
            this`breakerTripped, this`cooldownNoticeUntil
    {
      Evaluated(lastMid0, cache0, refresh0, readings, mid)
      && var momentum := if lastMid0.Some? then mid - lastMid0.value else 0.0;
         var model := ModelAfterRefresh(cache0, refresh0, readings.modelCall, readings.nowMonotonic);
         var a := Assess(settings, regimeOverrides, thresholdOverrides, tick, snapshot, readings, zone, momentum,
                         lastMid0.Some?, model);
         ZoneGated(cooldownUntil0, noticeUntil0, lastSignalWall0, snapshot, readings, zone, a, outcome)
         && SignalGated(signals0, cooldownUntil0, lastSignalWall0, lastSignalMonotonic0, readings.gateMonotonic,
                        snapshot.receivedAt, a.cooldown, outcome)
    }

    /** A signal `_evaluate_zone` emits passed every check: the hit count of
        the conditions reached the regime's required hits, the cooldown was
        over, the breaker not tripped, the frequency guard let it through and
        the risk engine consented; it carries the side `_resolve_side` gives
        for the zone and the regime's scaled quantity, is recorded, and
        restarts the regime's scaled cooldown. */
    lemma EmittedSignalPassedGate(lastMid0: Option<real>, cache0: map<string, real>, refresh0: real,
                                  signals0: seq<StrategySignal>, cooldownUntil0: real, noticeUntil0: real,
                                  lastSignalWall0: real, lastSignalMonotonic0: real,
                                  snapshot: Snapshot, readings: Readings, mid: real, zone: Zone,
                                  extremes: (real, real), outcome: Outcome)
      requires ZoneDecided(lastMid0, cache0, refresh0, signals0, cooldownUntil0, noticeUntil0, lastSignalWall0,
                           lastSignalMonotonic0, snapshot, readings, mid, zone, extremes, outcome)
      requires outcome.Emitted?
      ensures var momentum := if lastMid0.Some? then mid - lastMid0.value else 0.0;
        ConditionHits(settings, thresholdOverrides, tick, snapshot, readings, zone, momentum, momentumReady,
                      ModelInUse())
          >= RuntimeSettings(settings, regimeOverrides, readings.regime).requiredHits
      ensures var imbalance := snapshot.totalBid - snapshot.totalAsk;
        ResolveSide(zone, imbalance).Some? && outcome.signal.side == SideName(ResolveSide(zone, imbalance).value)
      ensures outcome.signal.quantity == OrderQuantity(settings, regimeOverrides, readings, ModelInUse())
      ensures outcome.signal.quantity > 0
      ensures readings.gateMonotonic >= cooldownUntil0 && !breakerTripped && readings.riskPermitted
      ensures !(settings.signalFrequencySeconds > 0.0
                && snapshot.receivedAt - lastSignalWall0 < settings.signalFrequencySeconds)
      ensures signals == AppendBounded(signals0, outcome.signal, SignalsMaxLen)
      ensures cooldownUntil == readings.gateMonotonic + SignalCooldown(settings, regimeOverrides, readings, ModelInUse())
    {
    }

    /** The checks of `_on_dom_snapshot` from the hit count on, and the
        emission that follows when all pass. */
    method Gate(hits: int, required: int, now: real, nowWall: real, zone: Zone, imbalance: real,
                quantity: int, cooldown: real, riskPermitted: bool, metadata: map<string, Dyn>)
      returns (outcome: Outcome)
      requires Valid()
      modifies this`signals, this`lastSignalMonotonic, this`lastSignalWall, this`cooldownUntil, this`cooldownNoticeUntil
      ensures Valid()
      ensures outcome.Emitted? ==> outcome.signal.metadata == metadata
      ensures outcome.Emitted? ==>
        hits >= required && now >= old(cooldownUntil) && !breakerTripped && quantity > 0 && riskPermitted
        && !(settings.signalFrequencySeconds > 0.0 && nowWall - old(lastSignalWall) < settings.signalFrequencySeconds)
      ensures outcome.Blocked? || outcome.Emitted?
      ensures SignalGated(old(signals), old(cooldownUntil), old(lastSignalWall), old(lastSignalMonotonic),
                          now, nowWall, cooldown, outcome)
      ensures Gated(GateVerdict(hits, required, now, old(cooldownUntil), old(cooldownNoticeUntil), breakerTripped,
                                settings.signalFrequencySeconds, nowWall, old(lastSignalWall), zone, imbalance,
                                quantity, riskPermitted),
                    quantity, old(cooldownUntil), old(cooldownNoticeUntil), outcome)
    {
      if hits < required {
        return Blocked(BelowThreshold);
      }
      if now < cooldownUntil {
        var noticeSent := cooldownNoticeUntil != cooldownUntil;
        if noticeSent {
          cooldownNoticeUntil := cooldownUntil;
        }
        return Blocked(CoolingDown(noticeSent));
      } else {
        cooldownNoticeUntil := 0.0;
      }
      if breakerTripped {
        return Blocked(BreakerTripped);
      }
      if settings.signalFrequencySeconds > 0.0 && nowWall - lastSignalWall < settings.signalFrequencySeconds {
        return Blocked(FrequencyGuard);
      }
      var side := ResolveSide(zone, imbalance);
      if side.None? {
        return Blocked(NoSide);
      }
      if quantity <= 0 {
        return Blocked(ZeroQuantity);
      }
      if !riskPermitted {
        return Blocked(RiskDenied);
      }
      var signal := Emit(SideName(side.value), quantity, now, nowWall, cooldown, metadata);
      outcome := Emitted(signal);
    }

    /** The emission at the end of `_on_dom_snapshot`: the signal is built,
        recorded, and the frequency guard and cooldown restarted. */
    method Emit(side: string, quantity: int, now: real, nowWall: real, cooldown: real, metadata: map<string, Dyn>)
      returns (signal: StrategySignal)
      modifies this`signals, this`lastSignalMonotonic, this`lastSignalWall, this`cooldownUntil, this`cooldownNoticeUntil
      ensures signal == StrategySignal(side, quantity, SignalReason, metadata)
      ensures signals == AppendBounded(old(signals), signal, SignalsMaxLen)
      ensures lastSignalMonotonic == now && lastSignalWall == nowWall
      ensures cooldownUntil == now + cooldown && cooldownNoticeUntil == 0.0
    {
      // The signal's own __post_init__ keeps a whole quantity and the metadata as they are.
      WholeQuantityUnchanged(side, quantity, SignalReason, metadata);
      signal := NewSignal(side, DInt(quantity), SignalReason, DMap(metadata));
      signals := AppendBounded(signals, signal, SignalsMaxLen);
      lastSignalMonotonic := now;
      lastSignalWall := nowWall;
      cooldownUntil := now + cooldown;
      cooldownNoticeUntil := 0.0;
    }

    /** The threshold-model response a decision reads: the cached one, when
        the model is enabled and the cache is not empty. */
    function ModelInUse(): (model: Option<map<string, real>>)
      reads this`latestModelThresholds
      ensures model.Some? ==> model.value == latestModelThresholds && model.value != map[]
      ensures model.None? <==> !settings.thresholdModelEnabled || !hasModelClient || latestModelThresholds == map[]
    {
      ModelFrom(latestModelThresholds)
    }

    /** The model response a decision reads from the cache `cache`. */
    function ModelFrom(cache: map<string, real>): Option<map<string, real>>
    {
      if settings.thresholdModelEnabled && hasModelClient && cache != map[] then Some(cache) else None
    }

    /** What the gate did to the signal state at monotonic time `now` and
        wall-clock time `nowWall`: nothing unless it emitted; an emitted
        signal is recorded and restarts the frequency guard and the
        assessed `cooldown`. */
    ghost predicate SignalGated(signals0: seq<StrategySignal>, cooldownUntil0: real, lastSignalWall0: real,
                                lastSignalMonotonic0: real, now: real, nowWall: real, cooldown: real,
                                outcome: Outcome)
      reads this`signals, this`cooldownUntil, this`lastSignalWall, this`lastSignalMonotonic
    {
      (!outcome.Emitted? ==>
        signals == signals0 && cooldownUntil == cooldownUntil0
        && lastSignalWall == lastSignalWall0 && lastSignalMonotonic == lastSignalMonotonic0)
      && (outcome.Emitted? ==>
        signals == AppendBounded(signals0, outcome.signal, SignalsMaxLen)
        && lastSignalWall == nowWall && lastSignalMonotonic == now && cooldownUntil == now + cooldown)
    }

    /** The structure window is `window0` after `_update_structure(timestamp, midPrice)`. */
    ghost predicate WindowUpdated(window0: seq<Sample>, timestamp: real, midPrice: real)
      reads this`structureWindow
    {
      structureWindow == DropStale(window0 + [(timestamp, midPrice)], timestamp - settings.structureWindowSeconds)
    }

    /** Momentum, model cache and the gate's state are as they were. */
    ghost predicate ZoneStateKept(lastMid0: Option<real>, momentumReady0: bool, cache0: map<string, real>,
                                  refresh0: real, signals0: seq<StrategySignal>, cooldownUntil0: real,
                                  noticeUntil0: real, lastSignalWall0: real, lastSignalMonotonic0: real)
      reads this`lastMidPrice, this`momentumReady, this`latestModelThresholds, this`thresholdModelLastRefresh,
            this`signals, this`cooldownUntil, this`cooldownNoticeUntil, this`lastSignalWall, this`lastSignalMonotonic
    {
      (lastMidPrice, momentumReady, latestModelThresholds, thresholdModelLastRefresh)
        == (lastMid0, momentumReady0, cache0, refresh0)
      && (signals, cooldownUntil, cooldownNoticeUntil, lastSignalWall, lastSignalMonotonic)
        == (signals0, cooldownUntil0, noticeUntil0, lastSignalWall0, lastSignalMonotonic0)
    }

    /** What `_on_dom_snapshot` did with a snapshot whose mid price is
        `mid`, from the structure window, momentum, model cache and gate
        state before it: the mid is recorded in the window; a mid that lies
        in no zone of the updated window changes nothing more, while one
        that does is decided as `ZoneDecided` says. */
    ghost predicate MidDecided(window0: seq<Sample>, lastMid0: Option<real>, momentumReady0: bool,
                               cache0: map<string, real>, refresh0: real, signals0: seq<StrategySignal>,
                               cooldownUntil0: real, noticeUntil0: real, lastSignalWall0: real,
                               lastSignalMonotonic0: real, snapshot: Snapshot, mid: real, readings: Readings,
                               outcome: Outcome)
      reads this`structureWindow, this`lastMidPrice, this`momentumReady, this`latestModelThresholds,
            this`thresholdModelLastRefresh, this`signals, this`cooldownUntil, this`lastSignalWall,
            this`lastSignalMonotonic, this`breakerTripped, this`cooldownNoticeUntil
    {
      WindowUpdated(window0, snapshot.receivedAt, mid)
      && match DetectZone(mid, Extremes(structureWindow), settings.conditions.structureToleranceTicks * tick)
         case None =>
           outcome == NoZone
           && ZoneStateKept(lastMid0, momentumReady0, cache0, refresh0, signals0, cooldownUntil0, noticeUntil0,
                            lastSignalWall0, lastSignalMonotonic0)
         case Some(zone) =>
           Extremes(structureWindow).Some?
           && ZoneDecided(lastMid0, cache0, refresh0, signals0, cooldownUntil0, noticeUntil0, lastSignalWall0,
                          lastSignalMonotonic0, snapshot, readings, mid, zone, Extremes(structureWindow).value,
                          outcome)
    }

    /** What `_on_dom_snapshot` did with a snapshot it let through: one
        without a mid price changes none of the window, momentum, model
        cache and gate state; one with a mid price is decided as
        `MidDecided` says. */
    ghost predicate SnapshotDecided(window0: seq<Sample>, lastMid0: Option<real>, momentumReady0: bool,
                                    cache0: map<string, real>, refresh0: real, signals0: seq<StrategySignal>,
                                    cooldownUntil0: real, noticeUntil0: real, lastSignalWall0: real,
                                    lastSignalMonotonic0: real, snapshot: Snapshot, midPrice: Option<real>,
                                    readings: Readings, outcome: Outcome)
      reads this`structureWindow, this`lastMidPrice, this`momentumReady, this`latestModelThresholds,
            this`thresholdModelLastRefresh, this`signals, this`cooldownUntil, this`lastSignalWall,
            this`lastSignalMonotonic, this`breakerTripped, this`cooldownNoticeUntil
    {
      match midPrice
      case None =>
        outcome == NoMidPrice && structureWindow == window0
        && ZoneStateKept(lastMid0, momentumReady0, cache0, refresh0, signals0, cooldownUntil0, noticeUntil0,
                         lastSignalWall0, lastSignalMonotonic0)
      case Some(mid) =>
        MidDecided(window0, lastMid0, momentumReady0, cache0, refresh0, signals0, cooldownUntil0, noticeUntil0,
                   lastSignalWall0, lastSignalMonotonic0, snapshot, mid, readings, outcome)
    }

    /** `_on_dom_snapshot(snapshot)`. */
    method OnDomSnapshot(snapshot: Snapshot, readings: Readings) returns (outcome: Outcome)
      requires Valid()
      modifies this`lastProcessMonotonic, this`structureWindow, this`lastMidPrice, this`momentumReady,
               this`latestModelThresholds, this`thresholdModelLastRefresh, this`signals,
               this`lastSignalMonotonic, this`lastSignalWall, this`cooldownUntil, this`cooldownNoticeUntil
      ensures Valid()
      ensures outcome.Inactive? <==> !active
      ensures outcome.OtherSymbol? <==> active && Upper(snapshot.symbol) != settings.symbol
      ensures outcome.Throttled? <==>
        active && Upper(snapshot.symbol) == settings.symbol && settings.minProcessingInterval > 0.0
        && readings.nowMonotonic - old(lastProcessMonotonic) < settings.minProcessingInterval
      ensures outcome.Dropped() ==>
        lastProcessMonotonic == old(lastProcessMonotonic) && structureWindow == old(structureWindow)
        && ZoneStateKept(old(lastMidPrice), old(momentumReady), old(latestModelThresholds),
                         old(thresholdModelLastRefresh), old(signals), old(cooldownUntil), old(cooldownNoticeUntil),
                         old(lastSignalWall), old(lastSignalMonotonic))
      ensures !outcome.Dropped() ==>
        lastProcessMonotonic == readings.nowMonotonic
        && SnapshotDecided(old(structureWindow), old(lastMidPrice), old(momentumReady), old(latestModelThresholds),
                           old(thresholdModelLastRefresh), old(signals), old(cooldownUntil), old(cooldownNoticeUntil),
                           old(lastSignalWall), old(lastSignalMonotonic), snapshot, snapshot.midPrice, readings,
                           outcome)
    {
      var otherSymbol := Upper(snapshot.symbol) != settings.symbol;
      var throttled := settings.minProcessingInterval > 0.0
                       && readings.nowMonotonic - lastProcessMonotonic < settings.minProcessingInterval;
      if !active || otherSymbol || throttled {
        return if !active then Inactive else if otherSymbol then OtherSymbol else Throttled;
      }
      outcome := ProcessSnapshot(snapshot, readings);
    }

    /** `_on_dom_snapshot` once the snapshot is let through: the processing
        time is recorded, and a snapshot with a mid price is processed. */
    method ProcessSnapshot(snapshot: Snapshot, readings: Readings) returns (outcome: Outcome)
      requires Valid()
      modifies this`lastProcessMonotonic, this`structureWindow, this`lastMidPrice, this`momentumReady,
               this`latestModelThresholds, this`thresholdModelLastRefresh, this`signals,
               this`lastSignalMonotonic, this`lastSignalWall, this`cooldownUntil, this`cooldownNoticeUntil
      ensures Valid()
      ensures lastProcessMonotonic == readings.nowMonotonic
      ensures !outcome.Dropped()
      ensures SnapshotDecided(old(structureWindow), old(lastMidPrice), old(momentumReady), old(latestModelThresholds),
                              old(thresholdModelLastRefresh), old(signals), old(cooldownUntil),
                              old(cooldownNoticeUntil), old(lastSignalWall), old(lastSignalMonotonic), snapshot,
                              snapshot.midPrice, readings, outcome)
    {
      lastProcessMonotonic := readings.nowMonotonic;
      if snapshot.midPrice.None? {
        return NoMidPrice;
      }
      outcome := ProcessMidPrice(snapshot, readings, snapshot.midPrice.value);
    }

    /** `_on_dom_snapshot` once the snapshot has a mid price: it is recorded
        in the structure window, its zone is found, and a signal assessed
        and gated. */
    method ProcessMidPrice(snapshot: Snapshot, readings: Readings, mid: real) returns (outcome: Outcome)
      requires Valid()
      modifies this`structureWindow, this`lastMidPrice, this`momentumReady,
               this`latestModelThresholds, this`thresholdModelLastRefresh, this`signals,
               this`lastSignalMonotonic, this`lastSignalWall, this`cooldownUntil, this`cooldownNoticeUntil
      ensures Valid()
      ensures outcome.NoZone? || outcome.Blocked? || outcome.Emitted?
      ensures MidDecided(old(structureWindow), old(lastMidPrice), old(momentumReady), old(latestModelThresholds),
                         old(thresholdModelLastRefresh), old(signals), old(cooldownUntil),
                         old(cooldownNoticeUntil), old(lastSignalWall), old(lastSignalMonotonic), snapshot, mid,
                         readings, outcome)
    {
      UpdateStructure(snapshot.receivedAt, mid);
      var extremes := Extremes(structureWindow);
      var zone := DetectZone(mid, extremes, settings.conditions.structureToleranceTicks * tick);
      if zone.None? {
        return NoZone;
      }
      outcome := ProcessZone(snapshot, readings, mid, zone.value, extremes.value);
    }

    /** `_on_dom_snapshot` once the mid price lies in a zone: momentum, the
        threshold model, the assessment and the gate. */
    method ProcessZone(snapshot: Snapshot, readings: Readings, mid: real, zone: Zone, extremes: (real, real))
      returns (outcome: Outcome)
      requires Valid()
      modifies this`lastMidPrice, this`momentumReady,
               this`latestModelThresholds, this`thresholdModelLastRefresh, this`signals,
               this`lastSignalMonotonic, this`lastSignalWall, this`cooldownUntil, this`cooldownNoticeUntil
      ensures Valid()
      ensures lastMidPrice == Some(mid)
      ensures outcome.Blocked? || outcome.Emitted?
      ensures ZoneDecided(old(lastMidPrice), old(latestModelThresholds), old(thresholdModelLastRefresh),
                          old(signals), old(cooldownUntil), old(cooldownNoticeUntil), old(lastSignalWall),
                          old(lastSignalMonotonic), snapshot, readings, mid, zone, extremes, outcome)
    {
      var assessment, momentum := EvaluateZone(snapshot, readings, mid, zone);
      outcome := GateZone(snapshot, readings, mid, zone, extremes, momentum, assessment);
    }

    /** The gating half of `_evaluate_zone`: the signal metadata is composed
        and the gate decides on the assessment. */
    method GateZone(snapshot: Snapshot, readings: Readings, mid: real, zone: Zone, extremes: (real, real),
                    momentum: real, assessment: Assessment)
      returns (outcome: Outcome)
      requires Valid()
      modifies this`signals, this`lastSignalMonotonic, this`lastSignalWall, this`cooldownUntil, this`cooldownNoticeUntil
      ensures Valid()
      ensures outcome.Blocked? || outcome.Emitted?
      ensures SignalGated(old(signals), old(cooldownUntil), old(lastSignalWall), old(lastSignalMonotonic),
                          readings.gateMonotonic, snapshot.receivedAt, assessment.cooldown, outcome)
      ensures ZoneGated(old(cooldownUntil), old(cooldownNoticeUntil), old(lastSignalWall), snapshot, readings, zone,
                        assessment, outcome)
      ensures outcome.Emitted? ==>
        outcome.signal.metadata
          == DomSignalMetadata(EvaluationMetadata(zone, mid, extremes, snapshot.totalBid - snapshot.totalAsk,
                                                  TrendScore(snapshot.totalBid - snapshot.totalAsk, snapshot.totalBid,
                                                             snapshot.totalAsk),
                                                  momentum, assessment.hits, assessment.quantity, assessment.cooldown,
                                                  readings.regime),
                               Extracted([snapshot.metadata]), snapshot.metadata, settings.subscriptionId,
                               settings.symbol, snapshot.symbol)
    {
      var metadata := DomSignalMetadata(
                        EvaluationMetadata(zone, mid, extremes, snapshot.totalBid - snapshot.totalAsk,
                                           TrendScore(snapshot.totalBid - snapshot.totalAsk, snapshot.totalBid,
                                                      snapshot.totalAsk),
                                           momentum, assessment.hits, assessment.quantity, assessment.cooldown,
                                           readings.regime),
                        Extracted([snapshot.metadata]), snapshot.metadata, settings.subscriptionId, settings.symbol,
                        snapshot.symbol);
      outcome := Gate(assessment.hits, assessment.required, readings.gateMonotonic, snapshot.receivedAt, zone,
                      snapshot.totalBid - snapshot.totalAsk, assessment.quantity, assessment.cooldown,
                      readings.riskPermitted, metadata);
      GatedInZone(old(cooldownUntil), old(cooldownNoticeUntil), old(lastSignalWall), snapshot, readings, zone,
                  assessment, outcome);
    }

    /** `Gate`'s verdict on an assessment's hits, required hits and
        quantity, with the snapshot's imbalance, is the zone's gating. */
    lemma GatedInZone(cooldownUntil0: real, noticeUntil0: real, lastSignalWall0: real,
                      snapshot: Snapshot, readings: Readings, zone: Zone, a: Assessment, outcome: Outcome)
      requires Gated(GateVerdict(a.hits, a.required, readings.gateMonotonic, cooldownUntil0, noticeUntil0,
                                 breakerTripped, settings.signalFrequencySeconds, snapshot.receivedAt,
                                 lastSignalWall0, zone, snapshot.totalBid - snapshot.totalAsk, a.quantity,
                                 readings.riskPermitted),
                     a.quantity, cooldownUntil0, noticeUntil0, outcome)
      ensures ZoneGated(cooldownUntil0, noticeUntil0, lastSignalWall0, snapshot, readings, zone, a, outcome)
    {
    }

    /** The evaluation half of `_evaluate_zone`: the momentum, the threshold
        model's response and the assessment. The quantity and the cooldown
        are those of the regime, scaled by the volatility the cached model
        response leaves in force. */
    method EvaluateZone(snapshot: Snapshot, readings: Readings, mid: real, zone: Zone)
      returns (assessment: Assessment, momentum: real)
      requires Valid()
      modifies this`lastMidPrice, this`momentumReady, this`latestModelThresholds, this`thresholdModelLastRefresh
      ensures Evaluated(old(lastMidPrice), old(latestModelThresholds), old(thresholdModelLastRefresh), readings, mid)
      ensures momentum == if old(lastMidPrice).Some? then mid - old(lastMidPrice).value else 0.0
      ensures ModelInUse() == ModelAfterRefresh(old(latestModelThresholds), old(thresholdModelLastRefresh),
                                                readings.modelCall, readings.nowMonotonic)
      ensures assessment == Assess(settings, regimeOverrides, thresholdOverrides, tick, snapshot, readings, zone,
                                   momentum, old(lastMidPrice).Some?,
                                   ModelAfterRefresh(old(latestModelThresholds), old(thresholdModelLastRefresh),
                                                     readings.modelCall, readings.nowMonotonic))
      ensures 1 <= assessment.hits <= 8
      ensures assessment.required == RuntimeSettings(settings, regimeOverrides, readings.regime).requiredHits
      ensures assessment.quantity == OrderQuantity(settings, regimeOverrides, readings, ModelInUse())
      ensures assessment.cooldown == SignalCooldown(settings, regimeOverrides, readings, ModelInUse())
    {
      momentum := ComputeMomentum(mid);
      var model: Option<map<string, real>> := None;
      if settings.thresholdModelEnabled && hasModelClient {
        model := MaybeRefreshThresholdModel(readings.modelCall, readings.nowMonotonic);
      }
      assert model == ModelInUse();
      assessment := Assess(settings, regimeOverrides, thresholdOverrides, tick, snapshot, readings, zone,
                           momentum, momentumReady, model);
    }
  }

  /** Appending a sample no older than any stored one keeps the window
      chronological. */
  lemma AppendKeepsChronological(window: seq<Sample>, sample: Sample)
    requires Chronological(window)
    requires NotAfter(window, sample.0)
    ensures Chronological(window + [sample])
  {
    var full := window + [sample];
    forall i, j | 0 <= i < j < |full| ensures full[i].0 <= full[j].0 {
      assert full[i] == window[i];
    }
  }

  /** Every sample of a window is no later than `bound`. */
  predicate NotAfter(window: seq<Sample>, bound: real) {
    forall i | 0 <= i < |window| :: window[i].0 <= bound
  }

  /** Every sample of a window is no earlier than `bound`. */
  predicate NotBefore(window: seq<Sample>, bound: real) {
    forall i | 0 <= i < |window| :: bound <= window[i].0
  }

  /** Eviction keeps a window no later than a bound. */
  lemma DropStaleNotAfter(window: seq<Sample>, cutoff: real, bound: real)
    requires NotAfter(window, bound)
    ensures NotAfter(DropStale(window, cutoff), bound)
  {
    var w := DropStale(window, cutoff);
    var k := |window| - |w|;
    forall i | 0 <= i < |w| ensures w[i].0 <= bound {
      assert w[i] == window[k + i];
    }
  }

  /** Eviction after appending a sample no older than the window keeps it
      chronological. */
  lemma AppendEvictChronological(window: seq<Sample>, sample: Sample, cutoff: real)
    requires Chronological(window) && NotAfter(window, sample.0)
    ensures Chronological(DropStale(window + [sample], cutoff))
  {
    AppendKeepsChronological(window, sample);
    DropStaleChronological(window + [sample], cutoff);
  }

  /** Eviction after appending to a chronological window leaves no sample
      older than the cutoff. */
  lemma AppendEvictNotBefore(window: seq<Sample>, sample: Sample, cutoff: real)
    requires Chronological(window) && NotAfter(window, sample.0)
    ensures NotBefore(DropStale(window + [sample], cutoff), cutoff)
  {
    AppendKeepsChronological(window, sample);
    DropStaleChronological(window + [sample], cutoff);
  }

  /** Eviction after appending the newest sample leaves no sample later than
      it. */
  lemma AppendEvictNotAfter(window: seq<Sample>, sample: Sample, cutoff: real)
    requires NotAfter(window, sample.0)
    ensures NotAfter(DropStale(window + [sample], cutoff), sample.0)
  {
    var full := window + [sample];
    assert NotAfter(full, sample.0) by {
      forall i | 0 <= i < |full| ensures full[i].0 <= sample.0 {
        if i < |window| { assert full[i] == window[i]; }
      }
    }
    DropStaleNotAfter(full, cutoff, sample.0);
  }
}
