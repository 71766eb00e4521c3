/**
  * The pure decision rules of the DOM structure strategy
  * (strategies/dom_structure_strategy.py): tick sizes, the structure
  * window's extremes, support/resistance zones, signal side, trend score,
  * the precedence of manual overrides over threshold-model values, the
  * condition flags and the sanitising of threshold-model responses.
  *
  * `AdaptiveThresholdState` is not part of this model: its
  * `scale_threshold`, `quantile_adjust` and `smooth` are the function
  * values of an `Adaptive` record. Analytics metrics are a map of finite
  * floats; a metric whose value is None is simply absent, which the
  * `metrics.get(key, d) or d` reads treat alike.
  */
module DomStructure {
  import opened Wrappers
  import opened PyValues

  // ---------------------------------------------------------------------------
  // Tick sizes

  /** `_TICK_SIZES`, keyed by upper-case root symbol. */
  const TickSizes: map<string, real> := map[
    "ES" := 0.25, "MES" := 0.25, "NQ" := 0.25, "MNQ" := 0.25,
    "YM" := 1.0, "MYM" := 1.0, "RTY" := 0.1, "M2K" := 0.1, "VX" := 0.05
  ]

  const DefaultTickSize: real := 0.25

  /** `_tick_size()`: the table entry for the upper-cased symbol, 0.25 otherwise. */
  function TickSize(symbol: string): (tick: real)
    ensures tick > 0.0
    ensures Upper(symbol) in TickSizes ==> tick == TickSizes[Upper(symbol)]
    ensures Upper(symbol) !in TickSizes ==> tick == DefaultTickSize
  {
    var key := Upper(symbol);
    if key in TickSizes then TickSizes[key] else DefaultTickSize
  }

  /** Upper-casing twice is upper-casing once. */
  lemma UpperIdempotent(s: string)
    ensures Upper(Upper(s)) == Upper(s)
  {
    var u := Upper(s);
    forall k | 0 <= k < |s| ensures Upper(u)[k] == u[k] {
      assert u[k] == UpperChar(s[k]);
    }
  }

  /** The tick size does not depend on the symbol's letter case. */
  lemma TickSizeIgnoresCase(symbol: string)
    ensures TickSize(Upper(symbol)) == TickSize(symbol)
  {
    UpperIdempotent(symbol);
  }

  // ---------------------------------------------------------------------------
  // Structure window: extremes and zones

  /** A `(timestamp, mid_price)` pair of the structure window. */
  type Sample = (real, real)

  /** What the eviction loop of `_update_structure` leaves: the window without
      its longest prefix of samples older than `cutoff`. */
  function DropStale(window: seq<Sample>, cutoff: real): (r: seq<Sample>)
    ensures |r| <= |window| && r == window[|window| - |r|..]
    ensures r != [] ==> r[0].0 >= cutoff
    ensures forall i | 0 <= i < |window| - |r| :: window[i].0 < cutoff
  {
    if window != [] && window[0].0 < cutoff then
      var r := DropStale(window[1..], cutoff);
      assert forall i | 1 <= i < |window| - |r| :: window[i] == window[1..][i - 1];
      r
    else window
  }

  /** Samples ordered by timestamp. */
  predicate Chronological(window: seq<Sample>) {
    forall i, j | 0 <= i < j < |window| :: window[i].0 <= window[j].0
  }

  /** A freshly appended sample no older than the cutoff is kept, and last. */
  lemma {:induction false} DropStaleKeepsNewest(window: seq<Sample>, sample: Sample, cutoff: real)
    requires sample.0 >= cutoff
    ensures var r := DropStale(window + [sample], cutoff);
      r != [] && r[|r| - 1] == sample
    decreases |window|
  {
    if window != [] && window[0].0 < cutoff {
      assert (window + [sample])[1..] == window[1..] + [sample];
      DropStaleKeepsNewest(window[1..], sample, cutoff);
    }
  }

  /** On a chronological window, every sample left is at least as recent as
      the cutoff. */
  lemma DropStaleChronological(window: seq<Sample>, cutoff: real)
    requires Chronological(window)
    ensures Chronological(DropStale(window, cutoff))
    ensures forall i | 0 <= i < |DropStale(window, cutoff)| :: DropStale(window, cutoff)[i].0 >= cutoff
  {
    var r := DropStale(window, cutoff);
    var k := |window| - |r|;
    forall i | 0 <= i < |r| ensures r[i].0 >= cutoff {
      assert r[i] == window[k + i] && r[0] == window[k];
    }
  }

  /** `_structure_extremes()`: the lowest and highest stored price, or nothing
      for an empty window. */
  function Extremes(window: seq<Sample>): (r: Option<(real, real)>)
    ensures r.None? <==> window == []
  {
    if window == [] then None
    else if |window| == 1 then Some((window[0].1, window[0].1))
    else
      var rest := Extremes(window[1..]);
      Some((Min(window[0].1, rest.value.0), Max(window[0].1, rest.value.1)))
  }

  /** The extremes are a price of the window no price lies below, and one no
      price lies above. */
  lemma {:induction false} ExtremesBound(window: seq<Sample>)
    requires window != []
    ensures var r := Extremes(window).value;
      r.0 <= r.1
      && (forall i | 0 <= i < |window| :: r.0 <= window[i].1 <= r.1)
      && (exists i | 0 <= i < |window| :: window[i].1 == r.0)
      && (exists i | 0 <= i < |window| :: window[i].1 == r.1)
    decreases |window|
  {
    if |window| > 1 {
      var tail := window[1..];
      ExtremesBound(tail);
      var rest := Extremes(tail).value;
      var r := Extremes(window).value;
      assert r == (Min(window[0].1, rest.0), Max(window[0].1, rest.1));
      forall i | 0 <= i < |window| ensures r.0 <= window[i].1 <= r.1 {
        if i > 0 {
          assert window[i] == tail[i - 1];
        }
      }
      if r.0 != window[0].1 {
        var j :| 0 <= j < |tail| && tail[j].1 == rest.0;
        assert window[j + 1].1 == r.0;
      }
      if r.1 != window[0].1 {
        var j :| 0 <= j < |tail| && tail[j].1 == rest.1;
        assert window[j + 1].1 == r.1;
      }
    }
  }

  datatype Zone = Support | Resistance

  /** `_detect_zone(mid, support, resistance)`: support when the mid is within
      the tolerance above the low (tested first), resistance when it is within
      the tolerance below the high, nothing otherwise or without extremes. */
  function DetectZone(mid: real, extremes: Option<(real, real)>, tolerance: real): (z: Option<Zone>)
    ensures extremes.None? ==> z.None?
    ensures z == Some(Support) <==> extremes.Some? && mid <= extremes.value.0 + tolerance
    ensures z == Some(Resistance) <==> extremes.Some? && mid > extremes.value.0 + tolerance && mid >= extremes.value.1 - tolerance
  {
    match extremes
    case None => None
    case Some((support, resistance)) =>
      if mid <= support + tolerance then Some(Support)
      else if mid >= resistance - tolerance then Some(Resistance)
      else None
  }

  /** A mid that is itself the window's low or high (as right after it was
      appended) always lies in a zone when the tolerance is non-negative. */
  lemma {:induction false} EdgeMidHasZone(window: seq<Sample>, mid: real, tolerance: real)
    requires tolerance >= 0.0
    requires Extremes(window).Some?
    requires mid == Extremes(window).value.0 || mid == Extremes(window).value.1
    ensures DetectZone(mid, Extremes(window), tolerance).Some?
  {
  }

  /** Strictly inside the band between the two tolerances, there is no zone. */
  lemma MidBandHasNoZone(mid: real, support: real, resistance: real, tolerance: real)
    requires support + tolerance < mid < resistance - tolerance
    ensures DetectZone(mid, Some((support, resistance)), tolerance).None?
  {
  }

  // ---------------------------------------------------------------------------
  // Side and trend

  datatype Side = Buy | Sell

  /** `OrderSide.BUY.value` and `OrderSide.SELL.value`. */
  function SideName(side: Side): string {
    match side
    case Buy => "BUY"
    case Sell => "SELL"
  }

  /** `_resolve_side(zone, imbalance)`. */
  function ResolveSide(zone: Zone, imbalance: real): (side: Option<Side>)
    ensures side == Some(Buy) <==> zone == Support && imbalance >= 0.0
    ensures side == Some(Sell) <==> zone == Resistance && imbalance <= 0.0
  {
    if zone == Support && imbalance >= 0.0 then Some(Buy)
    else if zone == Resistance && imbalance <= 0.0 then Some(Sell)
    else None
  }

  /** A side always agrees with the zone it came from: buying at support,
      selling at resistance, never against the book's imbalance. */
  lemma SideFollowsZone(zone: Zone, imbalance: real)
    requires ResolveSide(zone, imbalance).Some?
    ensures ResolveSide(zone, imbalance) == Some(Buy) ==> imbalance >= 0.0
    ensures ResolveSide(zone, imbalance) == Some(Sell) ==> imbalance <= 0.0
    ensures ResolveSide(zone, imbalance) == (if zone == Support then Some(Buy) else Some(Sell))
  {
  }

  /** `_trend_score(imbalance, total_bid, total_ask)`: the imbalance as a
      share of the total depth, 0 without depth. */
  function TrendScore(imbalance: real, totalBid: real, totalAsk: real): (score: real)
    ensures totalBid + totalAsk <= 0.0 ==> score == 0.0
    ensures totalBid + totalAsk > 0.0 ==> score * (totalBid + totalAsk) == imbalance
  {
    var total := totalBid + totalAsk;
    if total <= 0.0 then 0.0 else imbalance / total
  }

  /** A share of a positive total lies within [-1, 1] when its part does
      within [-total, total]. */
  lemma ShareBounded(x: real, total: real)
    requires total > 0.0 && -total <= x <= total
    ensures -1.0 <= x / total <= 1.0
  {
    var q := x / total;
    assert q * total == x;
    assert (q - 1.0) * total <= 0.0;
    assert (-1.0 - q) * total <= 0.0;
  }

  /** A share of a positive total has its part's sign. */
  lemma ShareSign(x: real, total: real)
    requires total > 0.0
    ensures x / total >= 0.0 <==> x >= 0.0
  {
    var q := x / total;
    assert q * total == x;
    if q < 0.0 {
      assert (-q) * total > 0.0;
    }
    if q > 0.0 {
      assert q * total > 0.0;
    }
  }

  /** With the imbalance bid volume minus ask volume, the score lies in
      [-1, 1] and has the imbalance's sign. */
  lemma TrendScoreBounded(totalBid: real, totalAsk: real)
    requires totalBid >= 0.0 && totalAsk >= 0.0
    ensures -1.0 <= TrendScore(totalBid - totalAsk, totalBid, totalAsk) <= 1.0
    ensures TrendScore(totalBid - totalAsk, totalBid, totalAsk) >= 0.0 <==> totalBid >= totalAsk
  {
    var total := totalBid + totalAsk;
    if total > 0.0 {
      ShareBounded(totalBid - totalAsk, total);
      ShareSign(totalBid - totalAsk, total);
    }
  }

  // ---------------------------------------------------------------------------
  // Threshold precedence

  /** Clamp into optional bounds, the lower bound applied first. */
  function ClampOptional(x: real, minimum: Option<real>, maximum: Option<real>): (r: real)
    ensures minimum.Some? && (maximum.None? || minimum.value <= maximum.value) ==> r >= minimum.value
    ensures maximum.Some? ==> r <= maximum.value
    ensures (minimum.None? || minimum.value <= x) && (maximum.None? || x <= maximum.value) ==> r == x
  {
    var x := if minimum.Some? then Max(minimum.value, x) else x;
    if maximum.Some? then Min(maximum.value, x) else x
  }

  /** `_coerce_override(key, minimum=..., maximum=...)`: a manual override
      that converts to a float, clamped. */
  function CoerceOverride(overrides: map<string, Dyn>, key: string, minimum: Option<real>, maximum: Option<real>): (r: Option<real>)
    // a missing or non-numeric override does not apply
    ensures key !in overrides || ToFloat(overrides[key]).NotNumeric? ==> r.None?
    // a number applies, clamped into the bounds
    ensures key in overrides && ToFloat(overrides[key]).Finite? ==>
      r == Some(ClampOptional(ToFloat(overrides[key]).x, minimum, maximum))
  {
    match ToFloat(Get(overrides, key))
    case Finite(x) => Some(ClampOptional(x, minimum, maximum))
    // Python's `max` keeps its first argument unless the second is greater,
    // `min` unless the second is smaller, and every comparison with nan is
    // false: nan and -inf give way to the lower bound, +inf and nan to the
    // upper one, and a value still not a real number does not apply
    case NonFinite(kind) =>
      if minimum.Some? && kind != PosInf then Some(ClampOptional(minimum.value, minimum, maximum))
      else if maximum.Some? && kind != NegInf then maximum
      else None
    case NotNumeric => None
  }

  /** A nan or infinite override goes through the same `max`/`min` clamp:
      nan and -inf give way to the lower bound, +inf and nan to the upper
      one, and what is still infinite (+inf with no upper bound, -inf with
      no lower bound, nan with neither) does not apply. */
  lemma CoerceOverrideNonFinite(overrides: map<string, Dyn>, key: string, minimum: Option<real>, maximum: Option<real>)
    requires key in overrides && ToFloat(overrides[key]).NonFinite?
    ensures var kind := ToFloat(overrides[key]).kind;
      var r := CoerceOverride(overrides, key, minimum, maximum);
      && (kind != PosInf && minimum.Some? ==> r == Some(ClampOptional(minimum.value, minimum, maximum)))
      && (kind != NegInf && (minimum.None? || kind == PosInf) ==> r == maximum)
      && (kind == NegInf && minimum.None? ==> r.None?)
  {
  }

  /** `_apply_model_override(key, base, minimum=..., maximum=...)`: the model's
      value for the key, clamped, when the model returned one; the base
      otherwise. Model values are finite once sanitised. */
  function ApplyModelOverride(model: Option<map<string, real>>, key: string, base: real,
                              minimum: Option<real>, maximum: Option<real>): (r: real)
    ensures model.Some? && key in model.value ==> r == ClampOptional(model.value[key], minimum, maximum)
    ensures model.None? || key !in model.value ==> r == base
  {
    match model
    case Some(m) => if m == map[] || key !in m then base else ClampOptional(m[key], minimum, maximum)
    case None => base
  }

  /** The opaque parts of `AdaptiveThresholdState` one evaluation uses. */
  datatype Adaptive = Adaptive(
    scaleThreshold: (real, Option<real>, Option<real>) -> real,   // scale_threshold(base, minimum, maximum)
    quantileAdjust: (string, real) -> Option<real>,             // quantile_adjust(key, target)
    smooth: (string, real) -> Option<real>)                     // smooth(...)[key]["smoothed"], when present

  /** The raw threshold for `key` before smoothing: a manual override wins;
      without one, the threshold model's value; without that, the adaptive
      scaling of the base. */
  function RawThreshold(adaptive: Adaptive, overrides: map<string, Dyn>, model: Option<map<string, real>>,
                        key: string, base: real, minimum: Option<real>, maximum: Option<real>): (r: real)
    // a manual or model value is always held to the bounds; only the adaptive scaling is not
    ensures CoerceOverride(overrides, key, minimum, maximum).Some? || (model.Some? && key in model.value) ==>
      (maximum.Some? ==> r <= maximum.value)
      && (minimum.Some? && (maximum.None? || minimum.value <= maximum.value) ==> minimum.value <= r)
  {
    var scaled := adaptive.scaleThreshold(base, minimum, maximum);
    match CoerceOverride(overrides, key, minimum, maximum)
    case Some(v) => v
    case None => ApplyModelOverride(model, key, scaled, minimum, maximum)
  }

  /** Manual override beats model value beats adaptive value. */
  lemma ThresholdPrecedence(adaptive: Adaptive, overrides: map<string, Dyn>, model: Option<map<string, real>>,
                            key: string, base: real, minimum: Option<real>, maximum: Option<real>)
    ensures var raw := RawThreshold(adaptive, overrides, model, key, base, minimum, maximum);
      (CoerceOverride(overrides, key, minimum, maximum).Some? ==> raw == CoerceOverride(overrides, key, minimum, maximum).value)
      && (CoerceOverride(overrides, key, minimum, maximum).None? && model.Some? && key in model.value ==>
            raw == ClampOptional(model.value[key], minimum, maximum))
      && (CoerceOverride(overrides, key, minimum, maximum).None? && (model.None? || key !in model.value) ==>
            raw == adaptive.scaleThreshold(base, minimum, maximum))
  {
  }

  /** The threshold in force: the smoothed raw threshold, or the raw one when
      smoothing reports nothing for the key. */
  function SmoothedThreshold(adaptive: Adaptive, overrides: map<string, Dyn>, model: Option<map<string, real>>,
                             key: string, base: real, minimum: Option<real>, maximum: Option<real>): (r: real)
    ensures var raw := RawThreshold(adaptive, overrides, model, key, base, minimum, maximum);
      (adaptive.smooth(key, raw).Some? ==> r == adaptive.smooth(key, raw).value)
      && (adaptive.smooth(key, raw).None? ==> r == raw)
  {
    var raw := RawThreshold(adaptive, overrides, model, key, base, minimum, maximum);
    adaptive.smooth(key, raw).GetOr(raw)
  }

  // ---------------------------------------------------------------------------
  // Condition flags

  /** The strategy settings the condition flags read. */
  datatype ConditionSettings = ConditionSettings(
    stackingIntensityThreshold: real,
    obiLongThreshold: real,
    obiShortThreshold: real,
    ofiThreshold: real,
    targetStackingQuantile: Option<real>,
    targetObiLongQuantile: Option<real>,
    targetObiShortQuantile: Option<real>,
    targetOfiQuantile: Option<real>,
    structureToleranceTicks: real,
    trendThreshold: Option<real>,
    fakeBreakoutMax: Option<real>,
    momentumTickThreshold: real)

  /** `float(metrics.get(key, d) or d)`: a missing or zero metric reads as `d`. */
  function MetricOr(metrics: map<string, real>, key: string, d: real): (v: real)
    ensures key in metrics && metrics[key] != 0.0 ==> v == metrics[key]
    ensures key !in metrics || metrics[key] == 0.0 ==> v == d
  {
    if key in metrics && metrics[key] != 0.0 then metrics[key] else d
  }

  function Clamp01(x: real): (r: real)
    ensures 0.0 <= r <= 1.0
    ensures 0.0 <= x <= 1.0 ==> r == x
  {
    Max(0.0, Min(1.0, x))
  }

  function StackingKey(zone: Zone): string {
    if zone == Support then "stacking_intensity_buy" else "stacking_intensity_sell"
  }

  /** The stacking threshold: the base blended half-way with the non-negative
      quantile when a target quantile is configured and available. */
  function StackingThreshold(settings: ConditionSettings, zone: Zone, adaptive: Adaptive,
                             overrides: map<string, Dyn>, model: Option<map<string, real>>): (r: real)
    // an unsmoothed manual override is used as given, floored at 0, whatever the quantile
    ensures var manual := CoerceOverride(overrides, StackingKey(zone), Some(0.0), None);
      manual.Some? && adaptive.smooth(StackingKey(zone), manual.value).None? ==> r == manual.value && r >= 0.0
    // without a target quantile, an override or a model value, the adaptive scaling of the setting
    ensures var key := StackingKey(zone);
      var raw := adaptive.scaleThreshold(settings.stackingIntensityThreshold, Some(0.0), None);
      (settings.targetStackingQuantile.None? && CoerceOverride(overrides, key, Some(0.0), None).None?
       && (model.None? || key !in model.value) && adaptive.smooth(key, raw).None?) ==> r == raw
  {
    var key := StackingKey(zone);
    var base := settings.stackingIntensityThreshold;
    var base := match settings.targetStackingQuantile
      case Some(target) =>
        (match adaptive.quantileAdjust(key, target)
         case Some(q) => (base + Max(0.0, q)) / 2.0
         case None => base)
      case None => base;
    SmoothedThreshold(adaptive, overrides, model, key, base, Some(0.0), None)
  }

  /** The smoothed value of `raw` for `key`, or `raw` itself when the
      adaptive state reports nothing for the key. */
  function SmoothOr(adaptive: Adaptive, key: string, raw: real): real {
    if adaptive.smooth(key, raw).Some? then adaptive.smooth(key, raw).value else raw
  }

  /** Without a manual override or a model value, the stacking threshold is
      the smoothed adaptive scaling of the setting, blended half-way with the
      quantile (floored at 0) when a target is set and the quantile known. */
  lemma StackingThresholdBlend(settings: ConditionSettings, zone: Zone, adaptive: Adaptive,
                               overrides: map<string, Dyn>, model: Option<map<string, real>>)
    requires CoerceOverride(overrides, StackingKey(zone), Some(0.0), None).None?
    requires model.None? || StackingKey(zone) !in model.value
    ensures var key := StackingKey(zone);
      var t := settings.targetStackingQuantile;
      var base := settings.stackingIntensityThreshold;
      var blended := if t.Some? && adaptive.quantileAdjust(key, t.value).Some?
        then (base + Max(0.0, adaptive.quantileAdjust(key, t.value).value)) / 2.0
        else base;
      StackingThreshold(settings, zone, adaptive, overrides, model)
        == SmoothOr(adaptive, key, adaptive.scaleThreshold(blended, Some(0.0), None))
  {
  }

  /** A positive threshold must be met by the metric; a non-positive one
      always passes. */
  function AtLeastIfPositive(value: real, threshold: real): (ok: bool)
    ensures threshold <= 0.0 ==> ok
    ensures threshold > 0.0 ==> (ok <==> value >= threshold)
  {
    if threshold > 0.0 then value >= threshold else true
  }

  /** One OBI threshold ("obi_long_threshold" or "obi_short_threshold"): the
      base blended with the clamped quantile, clamped into [0, 1]. */
  function ObiThreshold(key: string, base: real, target: Option<real>, adaptive: Adaptive,
                        overrides: map<string, Dyn>, model: Option<map<string, real>>): (r: real)
    // an unsmoothed manual override is used clamped into [0, 1], whatever the quantile
    ensures var manual := CoerceOverride(overrides, key, Some(0.0), Some(1.0));
      manual.Some? && adaptive.smooth(key, manual.value).None? ==> r == manual.value && 0.0 <= r <= 1.0
    // an unsmoothed model value, without a manual override, is clamped into [0, 1] too
    ensures (CoerceOverride(overrides, key, Some(0.0), Some(1.0)).None? && model.Some? && key in model.value
             && adaptive.smooth(key, ClampOptional(model.value[key], Some(0.0), Some(1.0))).None?) ==> 0.0 <= r <= 1.0
  {
    var base := match target
      case Some(t) =>
        (match adaptive.quantileAdjust("obi", t)
         case Some(q) => (base + Clamp01(q)) / 2.0
         case None => base)
      case None => base;
    var raw := RawThreshold(adaptive, overrides, model, key, Clamp01(base), Some(0.0), Some(1.0));
    adaptive.smooth(key, raw).GetOr(raw)
  }

  /** Without a manual override or a model value, an OBI threshold is the
      smoothed adaptive scaling of the setting clamped into [0, 1], blended
      half-way with the quantile (clamped into [0, 1]) when a target is set
      and the quantile of "obi" known. */
  lemma ObiThresholdBlend(key: string, base: real, target: Option<real>, adaptive: Adaptive,
                          overrides: map<string, Dyn>, model: Option<map<string, real>>)
    requires CoerceOverride(overrides, key, Some(0.0), Some(1.0)).None?
    requires model.None? || key !in model.value
    ensures var blended := if target.Some? && adaptive.quantileAdjust("obi", target.value).Some?
        then (base + Clamp01(adaptive.quantileAdjust("obi", target.value).value)) / 2.0
        else base;
      ObiThreshold(key, base, target, adaptive, overrides, model)
        == SmoothOr(adaptive, key, adaptive.scaleThreshold(Clamp01(blended), Some(0.0), Some(1.0)))
  {
  }

  /** The order-book imbalance the OBI condition reads, as written:
      `float(metrics.get("obi", 0.5) or 0.5)`, which also turns a reading of
      exactly 0.0 (no bid volume at all) into the neutral 0.5. */
  function ObiValueAsWritten(metrics: map<string, real>): (v: real)
    ensures "obi" in metrics && metrics["obi"] != 0.0 ==> v == metrics["obi"]
    ensures "obi" !in metrics || metrics["obi"] == 0.0 ==> v == 0.5
  {
    MetricOr(metrics, "obi", 0.5)
  }

  /** The order-book imbalance the OBI condition evidently means to read: the
      metric itself, 0.5 only when it is missing. */
  function ObiValue(metrics: map<string, real>): (v: real)
    ensures "obi" in metrics ==> v == metrics["obi"]
    ensures "obi" !in metrics ==> v == 0.5
  {
    if "obi" in metrics then metrics["obi"] else 0.5
  }

  /** The OBI condition: at support the imbalance must reach the long
      threshold, elsewhere it must not exceed the short threshold. */
  function ObiCondition(zone: Zone, obi: real, longThreshold: real, shortThreshold: real): (ok: bool)
    ensures zone == Support ==> (ok <==> obi >= longThreshold)
    ensures zone == Resistance ==> (ok <==> obi <= shortThreshold)
  {
    if zone == Support then obi >= longThreshold else obi <= shortThreshold
  }

  /** The discrepancy: a book with no bid volume at all (obi 0.0) at
      resistance fails the OBI condition as written whenever the short
      threshold is below 0.5, though it is the strongest possible sell
      imbalance; the intended reading passes it for every short threshold. */
  lemma ObiZeroDiscrepancy(metrics: map<string, real>, longThreshold: real, shortThreshold: real)
    requires "obi" in metrics && metrics["obi"] == 0.0
    requires 0.0 <= shortThreshold < 0.5
    ensures !ObiCondition(Resistance, ObiValueAsWritten(metrics), longThreshold, shortThreshold)
    ensures ObiCondition(Resistance, ObiValue(metrics), longThreshold, shortThreshold)
  {
  }

  /** The intended reading agrees with the written one on every non-zero reading. */
  lemma ObiReadingsAgreeOffZero(metrics: map<string, real>)
    requires "obi" !in metrics || metrics["obi"] != 0.0
    ensures ObiValue(metrics) == ObiValueAsWritten(metrics)
  {
  }

  /** The OFI threshold: the base blended half-way with the absolute quantile
      only while the base is positive. */
  function OfiThreshold(settings: ConditionSettings, adaptive: Adaptive,
                        overrides: map<string, Dyn>, model: Option<map<string, real>>): (r: real)
    // an unsmoothed manual override is used as given, floored at 0, whatever the quantile
    ensures var manual := CoerceOverride(overrides, "ofi_threshold", Some(0.0), None);
      manual.Some? && adaptive.smooth("ofi_threshold", manual.value).None? ==> r == manual.value && r >= 0.0
    // a non-positive setting is never blended with the quantile
    ensures var raw := adaptive.scaleThreshold(settings.ofiThreshold, Some(0.0), None);
      (settings.ofiThreshold <= 0.0 && CoerceOverride(overrides, "ofi_threshold", Some(0.0), None).None?
       && (model.None? || "ofi_threshold" !in model.value) && adaptive.smooth("ofi_threshold", raw).None?) ==> r == raw
  {
    var base := settings.ofiThreshold;
    var base := if base > 0.0 && settings.targetOfiQuantile.Some? then
        (match adaptive.quantileAdjust("ofi", settings.targetOfiQuantile.value)
         case Some(q) => (base + Abs(q)) / 2.0
         case None => base)
      else base;
    SmoothedThreshold(adaptive, overrides, model, "ofi_threshold", base, Some(0.0), None)
  }

  /** Without a manual override or a model value, the OFI threshold is the
      smoothed adaptive scaling of the setting, blended half-way with the
      absolute quantile only when the setting is positive, a target is set
      and the quantile of "ofi" known. */
  lemma OfiThresholdBlend(settings: ConditionSettings, adaptive: Adaptive,
                          overrides: map<string, Dyn>, model: Option<map<string, real>>)
    requires CoerceOverride(overrides, "ofi_threshold", Some(0.0), None).None?
    requires model.None? || "ofi_threshold" !in model.value
    ensures var t := settings.targetOfiQuantile;
      var base := settings.ofiThreshold;
      var blended := if base > 0.0 && t.Some? && adaptive.quantileAdjust("ofi", t.value).Some?
        then (base + Abs(adaptive.quantileAdjust("ofi", t.value).value)) / 2.0
        else base;
      OfiThreshold(settings, adaptive, overrides, model)
        == SmoothOr(adaptive, "ofi_threshold", adaptive.scaleThreshold(blended, Some(0.0), None))
  {
  }

  /** The OFI condition: with a positive threshold, the flow must reach it at
      support and reach its negation elsewhere; otherwise it passes. */
  function OfiCondition(zone: Zone, ofi: real, threshold: real): (ok: bool)
    ensures threshold <= 0.0 ==> ok
    ensures threshold > 0.0 && zone == Support ==> (ok <==> ofi >= threshold)
    ensures threshold > 0.0 && zone == Resistance ==> (ok <==> ofi <= -threshold)
  {
    if threshold > 0.0 then (if zone == Support then ofi >= threshold else ofi <= -threshold) else true
  }

  /** The spread condition: a known spread no wider than one tick or the
      structure tolerance, whichever is larger. */
  function SpreadCondition(spread: Option<real>, tick: real, toleranceTicks: real): (ok: bool)
    ensures ok <==> spread.Some? && spread.value <= Max(tick, toleranceTicks * tick)
    ensures spread.Some? && spread.value <= tick ==> ok
    ensures spread.None? ==> !ok
  {
    match spread
    case Some(s) => s <= Max(tick, toleranceTicks * tick)
    case None => false
  }

  /** The trend condition: always true without a threshold. */
  function TrendCondition(trendScore: real, threshold: Option<real>): (ok: bool)
    ensures threshold.None? ==> ok
    ensures threshold.Some? ==> (ok <==> Abs(trendScore) >= threshold.value)
  {
    match threshold
    case Some(t) => Abs(trendScore) >= t
    case None => true
  }

  /** The fake-breakout filter: the breakout probability must not exceed the
      configured maximum, if any. */
  function FakeBreakoutFilter(metrics: map<string, real>, maximum: Option<real>): (ok: bool)
    ensures maximum.None? ==> ok
    ensures maximum.Some? ==> (ok <==> MetricOr(metrics, "fake_breakout_prob", 0.0) <= maximum.value)
  {
    match maximum
    case Some(m) => MetricOr(metrics, "fake_breakout_prob", 0.0) <= m
    case None => true
  }

  /** The momentum condition: with a positive tick threshold, the move since
      the last mid must be at least that many ticks; before the first move is
      known (not ready) it passes. */
  function MomentumCondition(momentum: real, ready: bool, tick: real, tickThreshold: real): (ok: bool)
    ensures !ready ==> ok
    ensures tickThreshold <= 0.0 || tick <= 0.0 ==> ok
    ensures ready && tickThreshold > 0.0 && tick > 0.0 ==> (ok <==> Abs(momentum) >= tick * tickThreshold)
  {
    if tickThreshold > 0.0 && tick > 0.0 then
      (ready && Abs(momentum) >= tick * tickThreshold) || !ready
    else true
  }

  /** The flags `_evaluate_conditions` returns; "zone_match" is always true. */
  datatype ConditionFlags = ConditionFlags(
    stacking: bool, obi: bool, ofi: bool, spread: bool,
    trend: bool, fakeBreakout: bool, momentum: bool)

  function B2I(b: bool): int { if b then 1 else 0 }

  /** `sum(1 for value in condition_flags.values() if value)`, counting the
      always-true zone match. */
  function HitCount(flags: ConditionFlags): (hits: int)
    ensures 1 <= hits <= 8
  {
    1 + B2I(flags.stacking) + B2I(flags.obi) + B2I(flags.ofi) + B2I(flags.spread)
      + B2I(flags.trend) + B2I(flags.fakeBreakout) + B2I(flags.momentum)
  }

  /** The seven condition flags in the order `_evaluate_conditions` sets them. */
  function FlagList(flags: ConditionFlags): (s: seq<bool>)
    ensures |s| == 7
  {
    [flags.stacking, flags.obi, flags.ofi, flags.spread, flags.trend, flags.fakeBreakout, flags.momentum]
  }

  /** How many entries of `s` are true. */
  function CountTrue(s: seq<bool>): (n: nat)
    ensures n <= |s|
  {
    if s == [] then 0 else (if s[0] then 1 else 0) + CountTrue(s[1..])
  }

  /** No true entry iff the count is 0, and every entry true iff the count
      is the length. */
  lemma {:induction false} CountTrueExtremes(s: seq<bool>)
    ensures CountTrue(s) == 0 <==> forall i | 0 <= i < |s| :: !s[i]
    ensures CountTrue(s) == |s| <==> forall i | 0 <= i < |s| :: s[i]
  {
    if s != [] {
      CountTrueExtremes(s[1..]);
      assert forall i | 1 <= i < |s| :: s[i] == s[1..][i - 1];
    }
  }

  lemma CountTrueFrom(s: seq<bool>, k: int)
    requires 0 <= k < |s|
    ensures CountTrue(s[k..]) == (if s[k] then 1 else 0) + CountTrue(s[k + 1..])
  {
    assert s[k..][1..] == s[k + 1..];
  }

  /** Turning one false entry true, and nothing else, adds exactly one. */
  lemma {:induction false} CountTrueFlip(s: seq<bool>, t: seq<bool>, j: int)
    requires |s| == |t| && 0 <= j < |s|
    requires !s[j] && t[j]
    requires forall i | 0 <= i < |s| && i != j :: s[i] == t[i]
    ensures CountTrue(t) == CountTrue(s) + 1
  {
    if j == 0 {
      assert s[1..] == t[1..];
    } else {
      CountTrueFlip(s[1..], t[1..], j - 1);
    }
  }

  /** The hit count is the zone match plus the number of true flags. */
  lemma HitCountCounts(flags: ConditionFlags)
    ensures HitCount(flags) == 1 + CountTrue(FlagList(flags))
  {
    var s := FlagList(flags);
    assert s[0..] == s;
    CountTrueFrom(s, 0);
    CountTrueFrom(s, 1);
    CountTrueFrom(s, 2);
    CountTrueFrom(s, 3);
    CountTrueFrom(s, 4);
    CountTrueFrom(s, 5);
    CountTrueFrom(s, 6);
  }

  /** The hit count is 1 exactly when no condition flag holds, and 8 exactly
      when all of them hold. */
  lemma HitCountExtremes(flags: ConditionFlags)
    ensures HitCount(flags) == 1 <==> forall i | 0 <= i < 7 :: !FlagList(flags)[i]
    ensures HitCount(flags) == 8 <==> forall i | 0 <= i < 7 :: FlagList(flags)[i]
  {
    HitCountCounts(flags);
    CountTrueExtremes(FlagList(flags));
  }

  /** Turning on any one flag, and nothing else, adds exactly one hit. */
  lemma HitCountFlip(a: ConditionFlags, b: ConditionFlags, j: int)
    requires 0 <= j < 7
    requires !FlagList(a)[j] && FlagList(b)[j]
    requires forall i | 0 <= i < 7 && i != j :: FlagList(a)[i] == FlagList(b)[i]
    ensures HitCount(b) == HitCount(a) + 1
  {
    HitCountCounts(a);
    HitCountCounts(b);
    CountTrueFlip(FlagList(a), FlagList(b), j);
  }

  /** Turning a flag on never lowers the hit count. */
  lemma HitCountMonotone(a: ConditionFlags, b: ConditionFlags)
    requires a.stacking ==> b.stacking
    requires a.obi ==> b.obi
    requires a.ofi ==> b.ofi
    requires a.spread ==> b.spread
    requires a.trend ==> b.trend
    requires a.fakeBreakout ==> b.fakeBreakout
    requires a.momentum ==> b.momentum
    ensures HitCount(a) <= HitCount(b)
  {
  }

  /** `_evaluate_conditions(zone=..., spread=..., trend_score=..., momentum=...,
      metrics=..., model_thresholds=...)`, with the OBI reading as written. */
  function EvaluateConditions(settings: ConditionSettings, zone: Zone, spread: Option<real>, trendScore: real,
                              momentum: real, momentumReady: bool, metrics: map<string, real>,
                              model: Option<map<string, real>>, overrides: map<string, Dyn>,
                              adaptive: Adaptive, tick: real): (flags: ConditionFlags)
    ensures flags.stacking == AtLeastIfPositive(MetricOr(metrics, StackingKey(zone), 0.0),
                                                StackingThreshold(settings, zone, adaptive, overrides, model))
    ensures flags.obi == ObiCondition(zone, ObiValueAsWritten(metrics),
      ObiThreshold("obi_long_threshold", settings.obiLongThreshold, settings.targetObiLongQuantile, adaptive, overrides, model),
      ObiThreshold("obi_short_threshold", settings.obiShortThreshold, settings.targetObiShortQuantile, adaptive, overrides, model))
    ensures flags.ofi == OfiCondition(zone, MetricOr(metrics, "ofi", 0.0), OfiThreshold(settings, adaptive, overrides, model))
    // a known spread no wider than max(tick, tolerance * tick), as SpreadCondition states
    ensures flags.spread == SpreadCondition(spread, tick, settings.structureToleranceTicks)
    ensures flags.trend <==> settings.trendThreshold.None? || Abs(trendScore) >= settings.trendThreshold.value
    ensures flags.fakeBreakout <==>
      settings.fakeBreakoutMax.None? || MetricOr(metrics, "fake_breakout_prob", 0.0) <= settings.fakeBreakoutMax.value
    ensures flags.momentum <==>
      !momentumReady || settings.momentumTickThreshold <= 0.0 || tick <= 0.0
      || Abs(momentum) >= tick * settings.momentumTickThreshold
  {
    ConditionFlags(
      AtLeastIfPositive(MetricOr(metrics, StackingKey(zone), 0.0), StackingThreshold(settings, zone, adaptive, overrides, model)),
      ObiCondition(zone, ObiValueAsWritten(metrics),
        ObiThreshold("obi_long_threshold", settings.obiLongThreshold, settings.targetObiLongQuantile, adaptive, overrides, model),
        ObiThreshold("obi_short_threshold", settings.obiShortThreshold, settings.targetObiShortQuantile, adaptive, overrides, model)),
      OfiCondition(zone, MetricOr(metrics, "ofi", 0.0), OfiThreshold(settings, adaptive, overrides, model)),
      SpreadCondition(spread, tick, settings.structureToleranceTicks),
      TrendCondition(trendScore, settings.trendThreshold),
      FakeBreakoutFilter(metrics, settings.fakeBreakoutMax),
      MomentumCondition(momentum, momentumReady, tick, settings.momentumTickThreshold))
  }

  // ---------------------------------------------------------------------------
  // Threshold-model responses

  /** How a call to the threshold model ended. */
  datatype ModelCall = TimedOut | Failed | Returned(payload: Dyn)

  /** The sanitised response: the entries whose values convert to finite floats. */
  function Sanitized(result: map<string, Dyn>): (r: map<string, real>)
    ensures r.Keys <= result.Keys
    ensures forall k | k in result :: k in r <==> CoerceNumeric(result[k]).Some?
    ensures forall k | k in r :: r[k] == CoerceNumeric(result[k]).value
  {
    map k | k in result && CoerceNumeric(result[k]).Some? :: CoerceNumeric(result[k]).value
  }

  /** Sanitising keeps every finite float exactly, so a sanitised response
      sanitises to itself. */
  lemma SanitizedIdempotent(result: map<string, Dyn>)
    ensures var once := Sanitized(result);
      Sanitized(map k | k in once :: DFloat(once[k])) == once
  {
  }

  /** The sanitising loop of `_invoke_threshold_model`. */
  method SanitizeResponse(result: map<string, Dyn>) returns (sanitized: map<string, real>)
    ensures sanitized == Sanitized(result)
  {
    sanitized := map[];
    var remaining := result.Keys;
    while remaining != {}
      invariant remaining <= result.Keys
      invariant sanitized == Sanitized(map k | k in result && k !in remaining :: result[k])
      decreases remaining
    {
      var key :| key in remaining;
      var numeric := CoerceNumeric(result[key]);
      if numeric.Some? {
        sanitized := sanitized[key := numeric.value];
      }
      remaining := remaining - {key};
    }
    assert (map k | k in result && k !in remaining :: result[k]) == result;
  }

  /** `_invoke_threshold_model(features)`: nothing after a timeout, an error or
      a non-mapping payload; the sanitised mapping otherwise. */
  method InvokeThresholdModel(call: ModelCall) returns (r: Option<map<string, real>>)
    ensures call.Returned? && call.payload.DMap? ==> r == Some(Sanitized(call.payload.m))
    ensures !(call.Returned? && call.payload.DMap?) ==> r.None?
  {
    match call
    case TimedOut => r := None;
    case Failed => r := None;
    case Returned(payload) =>
      if payload.DMap? {
        var sanitized := SanitizeResponse(payload.m);
        r := Some(sanitized);
      } else {
        r := None;
      }
  }
}
