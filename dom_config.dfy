/**
  * Configuration normalisers of the DOM structure strategy
  * (strategies/dom_structure_strategy.py): regime breakpoints, volatility and
  * scale bounds, clamping, the volatility-driven quantity and cooldown scales,
  * per-regime override settings and their resolution.
  *
  * A Python pair that cannot be unpacked into two values is `None` here and
  * takes the fallback the source uses.
  */
module DomConfig {
  import opened Wrappers
  import opened PyValues

  type Bounds = (real, real)

  // ---------------------------------------------------------------------------
  // _normalise_regime_breakpoints

  /** The step `_normalise_regime_breakpoints` adds to a degenerate pair. */
  function BreakpointIncrement(low: real): real {
    if low == 0.0 then 1.0 else Max(low * 0.1, 0.01)
  }

  /** `_normalise_regime_breakpoints(values, fallback=..., absolute=...)`. */
  function NormaliseRegimeBreakpoints(values: Option<Bounds>, fallback: Bounds, absolute: bool): (r: Bounds)
    ensures 0.0 <= r.0 < r.1
  {
    var (low, high) := values.GetOr(fallback);
    var low := if absolute then Abs(low) else low;
    var high := if absolute then Abs(high) else high;
    var low := Max(0.0, low);
    var high := Max(0.0, high);
    var (low, high) := if high < low then (high, low) else (low, high);
    var high := if high == low then low + BreakpointIncrement(low) else high;
    (low, high)
  }

  /** Breakpoints that are already ordered and non-negative are kept as given. */
  lemma BreakpointsKeepValid(low: real, high: real, fallback: Bounds, absolute: bool)
    requires 0.0 <= low < high
    ensures NormaliseRegimeBreakpoints(Some((low, high)), fallback, absolute) == (low, high)
  {
  }

  /** Normalising breakpoints twice gives what normalising once gives. */
  lemma BreakpointsIdempotent(values: Option<Bounds>, fallback: Bounds, absolute: bool)
    ensures var once := NormaliseRegimeBreakpoints(values, fallback, absolute);
      NormaliseRegimeBreakpoints(Some(once), fallback, absolute) == once
  {
    var once := NormaliseRegimeBreakpoints(values, fallback, absolute);
    BreakpointsKeepValid(once.0, once.1, fallback, absolute);
  }

  /** The order in which the two breakpoints are supplied does not matter. */
  lemma BreakpointsSymmetric(a: real, b: real, fallback: Bounds, absolute: bool)
    ensures NormaliseRegimeBreakpoints(Some((a, b)), fallback, absolute)
         == NormaliseRegimeBreakpoints(Some((b, a)), fallback, absolute)
  {
  }

  // ---------------------------------------------------------------------------
  // _normalise_volatility_bounds

  const DefaultVolatilityBounds: Bounds := (0.75, 1.5)

  /** `_normalise_volatility_bounds(bounds)`. The lower bound is clamped at 0
      before the swap, so a negative upper bound ends up as the lower one. */
  function NormaliseVolatilityBounds(bounds: Option<Bounds>): (r: Bounds)
    ensures r.0 <= r.1 && r.1 > 0.0
    ensures r.0 < 0.0 <==> bounds.GetOr(DefaultVolatilityBounds).1 < 0.0
    ensures r.0 < 0.0 ==> r.0 == bounds.GetOr(DefaultVolatilityBounds).1
  {
    var (low, high) := bounds.GetOr(DefaultVolatilityBounds);
    var low := Max(0.0, low);
    var (low, high) := if high < low then (high, low) else (low, high);
    var high := if high <= 0.0 then 1.0 else high;
    var high := if low == high then (if low > 0.0 then low else 1.0) else high;
    (low, Max(high, low))
  }

  /** The quirk made concrete: (0.5, -1.0) normalises to (-1.0, 0.5). */
  lemma VolatilityBoundsNegativeUpper()
    ensures NormaliseVolatilityBounds(Some((0.5, -1.0))) == (-1.0, 0.5)
  {
  }

  /** Bounds with 0 <= low <= high and high > 0 are kept as given. */
  lemma VolatilityBoundsKeepValid(low: real, high: real)
    requires 0.0 <= low <= high && high > 0.0
    ensures NormaliseVolatilityBounds(Some((low, high))) == (low, high)
  {
  }

  // ---------------------------------------------------------------------------
  // _normalise_scale_bounds and _clamp_scale

  const DefaultScaleBounds: Bounds := (0.5, 2.0)

  /** `_normalise_scale_bounds(bounds, default=...)`. */
  function NormaliseScaleBounds(bounds: Option<Bounds>, default: Bounds): (r: Bounds)
    ensures 0.0 <= r.0 <= r.1 && r.1 > 0.0
  {
    var (low, high) := bounds.GetOr(default);
    var low := Max(0.0, low);
    var high := Max(0.0, high);
    var (low, high) := if high < low then (high, low) else (low, high);
    var high := if low == 0.0 && high == 0.0 then 1.0 else high;
    var high := if low == high then (if low > 0.0 then low else default.1) else high;
    (low, Max(high, low))
  }

  /** Bounds with 0 <= low <= high and high > 0 are kept as given. */
  lemma ScaleBoundsKeepValid(low: real, high: real, default: Bounds)
    requires 0.0 <= low <= high && high > 0.0
    ensures NormaliseScaleBounds(Some((low, high)), default) == (low, high)
  {
  }

  lemma ScaleBoundsIdempotent(bounds: Option<Bounds>, default: Bounds)
    ensures var once := NormaliseScaleBounds(bounds, default);
      NormaliseScaleBounds(Some(once), default) == once
  {
    var once := NormaliseScaleBounds(bounds, default);
    ScaleBoundsKeepValid(once.0, once.1, default);
  }

  /** `_clamp_scale(value, bounds)`: the value clamped into the bounds, taken
      in either order. */
  function ClampScale(value: real, bounds: Bounds): (r: real)
    ensures Min(bounds.0, bounds.1) <= r <= Max(bounds.0, bounds.1)
    ensures Min(bounds.0, bounds.1) <= value <= Max(bounds.0, bounds.1) ==> r == value
    ensures value < Min(bounds.0, bounds.1) ==> r == Min(bounds.0, bounds.1)
    ensures value > Max(bounds.0, bounds.1) ==> r == Max(bounds.0, bounds.1)
  {
    var (low, high) := if bounds.1 < bounds.0 then (bounds.1, bounds.0) else bounds;
    Min(Max(value, low), high)
  }

  lemma {:induction false} ClampMonotone(a: real, b: real, bounds: Bounds)
    requires a <= b
    ensures ClampScale(a, bounds) <= ClampScale(b, bounds)
  {
    var lo := Min(bounds.0, bounds.1);
    var hi := Max(bounds.0, bounds.1);
    if a < lo {
      assert ClampScale(a, bounds) == lo;
    } else if a > hi {
      assert ClampScale(b, bounds) == hi;
    } else if b > hi {
      assert ClampScale(b, bounds) == hi;
    }
  }

  // ---------------------------------------------------------------------------
  // _compute_quantity_scale and _compute_cooldown_scale

  const ScaleFloor: real := 0.000000001

  /** The raw volatility factor: 1 when the exponent is 0, else
      `max(volatility_scale, 1e-9) ** exponent`, where `pow` stands for
      Python's float power. */
  function RawScale(volatilityScale: real, exponent: real, pow: (real, real) -> real): real {
    if Max(0.0, exponent) == 0.0 then 1.0 else pow(Max(volatilityScale, ScaleFloor), Max(0.0, exponent))
  }

  /** `_compute_quantity_scale`: the inverse of the raw factor, clamped. */
  function QuantityScale(volatilityScale: real, exponent: real, pow: (real, real) -> real, bounds: Bounds): (r: real)
    ensures Min(bounds.0, bounds.1) <= r <= Max(bounds.0, bounds.1)
    ensures exponent <= 0.0 ==> r == ClampScale(1.0, bounds)
  {
    ClampScale(1.0 / Max(RawScale(volatilityScale, exponent, pow), ScaleFloor), bounds)
  }

  /** `_compute_cooldown_scale`: the raw factor, clamped. */
  function CooldownScale(volatilityScale: real, exponent: real, pow: (real, real) -> real, bounds: Bounds): (r: real)
    ensures Min(bounds.0, bounds.1) <= r <= Max(bounds.0, bounds.1)
    ensures exponent <= 0.0 ==> r == ClampScale(1.0, bounds)
  {
    ClampScale(RawScale(volatilityScale, exponent, pow), bounds)
  }

  /** Volatility above baseline (a raw factor of at least 1) never enlarges the
      order and never shortens the cooldown relative to a neutral factor;
      volatility below baseline does the opposite. */
  lemma {:induction false} ScalesMoveOppositeWays(volatilityScale: real, exponent: real, pow: (real, real) -> real,
                                                  quantityBounds: Bounds, cooldownBounds: Bounds)
    ensures RawScale(volatilityScale, exponent, pow) >= 1.0 ==>
      QuantityScale(volatilityScale, exponent, pow, quantityBounds) <= ClampScale(1.0, quantityBounds)
      && CooldownScale(volatilityScale, exponent, pow, cooldownBounds) >= ClampScale(1.0, cooldownBounds)
    ensures 0.0 < RawScale(volatilityScale, exponent, pow) <= 1.0 ==>
      QuantityScale(volatilityScale, exponent, pow, quantityBounds) >= ClampScale(1.0, quantityBounds)
      && CooldownScale(volatilityScale, exponent, pow, cooldownBounds) <= ClampScale(1.0, cooldownBounds)
  {
    var raw := RawScale(volatilityScale, exponent, pow);
    var inverted := 1.0 / Max(raw, ScaleFloor);
    if raw >= 1.0 {
      assert inverted <= 1.0;
      ClampMonotone(inverted, 1.0, quantityBounds);
      ClampMonotone(1.0, raw, cooldownBounds);
    }
    if 0.0 < raw <= 1.0 {
      if raw >= ScaleFloor {
        assert inverted == 1.0 / raw;
        assert raw * inverted == 1.0;
        assert inverted >= 1.0;
      } else {
        assert inverted == 1.0 / ScaleFloor;
      }
      ClampMonotone(1.0, inverted, quantityBounds);
      ClampMonotone(raw, 1.0, cooldownBounds);
    }
  }

  // ---------------------------------------------------------------------------
  // _normalise_regime_overrides

  /** The regimes an override may name. */
  predicate IsRegime(key: string) {
    key == "calm" || key == "normal" || key == "volatile"
  }

  /** The settings one regime overrides; a missing setting is `None`. */
  datatype RegimeOverride = RegimeOverride(requiredHits: Option<int>, cooldownSeconds: Option<real>, defaultQuantity: Option<real>)
  {
    predicate IsEmpty() {
      requiredHits.None? && cooldownSeconds.None? && defaultQuantity.None?
    }

    predicate Valid() {
      !IsEmpty()
      && (requiredHits.Some? ==> requiredHits.value > 0)
      && (cooldownSeconds.Some? ==> cooldownSeconds.value >= 0.0)
      && (defaultQuantity.Some? ==> defaultQuantity.value >= 0.0)
    }
  }

  /** `int(round(float(v)))` when it is positive, else nothing. */
  function ParseRequiredHits(v: Dyn): (r: Option<int>)
    ensures r.Some? ==> r.value > 0
    ensures r.Some? <==> ToFloat(v).Finite? && Round(ToFloat(v).x) > 0
  {
    match ToFloat(v)
    case Finite(x) => var n := Round(x); if n > 0 then Some(n) else None
    case _ => None
  }

  /** `float(v)` when it is non-negative, else nothing. */
  function ParseNonNegative(v: Dyn): (r: Option<real>)
    ensures r.Some? <==> ToFloat(v).Finite? && ToFloat(v).x >= 0.0
    ensures r.Some? ==> r.value == ToFloat(v).x
  {
    match ToFloat(v)
    case Finite(x) => if x >= 0.0 then Some(x) else None
    case _ => None
  }

  /** The settings kept from one regime's mapping; a setting absent from the
      mapping or unusable is dropped. */
  function ParseOverride(settings: map<string, Dyn>): (o: RegimeOverride)
    ensures !o.IsEmpty() ==> o.Valid()
    ensures o.requiredHits.Some? ==> "required_hits" in settings
    ensures o.cooldownSeconds.Some? ==> "cooldown_seconds" in settings
    ensures o.defaultQuantity.Some? ==> "default_quantity" in settings
  {
    RegimeOverride(
      if "required_hits" in settings then ParseRequiredHits(settings["required_hits"]) else None,
      if "cooldown_seconds" in settings then ParseNonNegative(settings["cooldown_seconds"]) else None,
      if "default_quantity" in settings then ParseNonNegative(settings["default_quantity"]) else None)
  }

  /** The regime an entry names, `str(regime).strip().lower()`. */
  function RegimeKey(regime: string): (key: string)
    ensures |key| <= |regime|
    ensures key == [] <==> AllSpace(regime)
  {
    StripSpec(regime);
    Lower(Strip(regime))
  }

  /** What one entry contributes, as its regime key and override: its
      settings must be a mapping, its regime one of the three and at least one
      setting usable. */
  function EntryContribution(entry: (string, Dyn)): (r: Option<(string, RegimeOverride)>)
    ensures r.Some? ==> r.value.0 == RegimeKey(entry.0) && IsRegime(r.value.0) && r.value.1.Valid()
  {
    if entry.1.DMap? && IsRegime(RegimeKey(entry.0)) then
      var o := ParseOverride(entry.1.m);
      if o.IsEmpty() then None else Some((RegimeKey(entry.0), o))
    else None
  }

  function Contributions(entries: seq<(string, Dyn)>): (cs: seq<Option<(string, RegimeOverride)>>)
    ensures |cs| == |entries|
    ensures forall i | 0 <= i < |entries| :: cs[i] == EntryContribution(entries[i])
  {
    seq(|entries|, i requires 0 <= i < |entries| => EntryContribution(entries[i]))
  }

  /** The `normalised[key] = regime_settings` assignments of the loop, in order. */
  function MergeContributions(cs: seq<Option<(string, RegimeOverride)>>): (r: map<string, RegimeOverride>)
    ensures forall k | k in r :: exists i | 0 <= i < |cs| :: cs[i] == Some((k, r[k]))
    decreases |cs|
  {
    if cs == [] then map[]
    else
      var before := MergeContributions(cs[..|cs| - 1]);
      assert forall i | 0 <= i < |cs| - 1 :: cs[..|cs| - 1][i] == cs[i];
      match cs[|cs| - 1]
      case Some((key, o)) => before[key := o]
      case None => before
  }

  /** `_normalise_regime_overrides` on an already-parsed mapping, given as its
      items in insertion order. */
  function NormaliseRegimeOverrides(entries: seq<(string, Dyn)>): (r: map<string, RegimeOverride>)
    ensures forall k | k in r :: IsRegime(k) && r[k].Valid()
  {
    MergeContributions(Contributions(entries))
  }

  /** Contribution `i` is the last one made for `key`. */
  ghost predicate LastFor(cs: seq<Option<(string, RegimeOverride)>>, key: string, i: int) {
    0 <= i < |cs| && cs[i].Some? && cs[i].value.0 == key
    && forall j | i < j < |cs| :: !(cs[j].Some? && cs[j].value.0 == key)
  }

  lemma LastForSkip(cs: seq<Option<(string, RegimeOverride)>>, key: string, i: int)
    requires cs != [] && !(cs[|cs| - 1].Some? && cs[|cs| - 1].value.0 == key)
    ensures LastFor(cs, key, i) <==> LastFor(cs[..|cs| - 1], key, i)
  {
    var front := cs[..|cs| - 1];
    if LastFor(front, key, i) {
      forall j | i < j < |cs| ensures !(cs[j].Some? && cs[j].value.0 == key) {
        if j < |front| {
          assert cs[j] == front[j];
        }
      }
    }
  }

  lemma {:induction false} MergeLastWins(cs: seq<Option<(string, RegimeOverride)>>, key: string)
    ensures key in MergeContributions(cs) <==> exists i :: LastFor(cs, key, i)
    ensures forall i | LastFor(cs, key, i) :: MergeContributions(cs)[key] == cs[i].value.1
    decreases |cs|
  {
    if cs != [] {
      var n := |cs| - 1;
      var front := cs[..n];
      MergeLastWins(front, key);
      if cs[n].Some? && cs[n].value.0 == key {
        assert LastFor(cs, key, n);
        forall i | LastFor(cs, key, i) ensures i == n { }
      } else {
        forall i ensures LastFor(cs, key, i) <==> LastFor(front, key, i) {
          LastForSkip(cs, key, i);
        }
      }
    }
  }

  /** A regime is overridden iff some entry contributes an override for it;
      it then holds what the last such entry contributes, so a later entry
      for the same regime replaces an earlier one. */
  lemma OverridesLastWins(entries: seq<(string, Dyn)>, key: string)
    ensures key in NormaliseRegimeOverrides(entries) <==> exists i :: LastFor(Contributions(entries), key, i)
    ensures forall i | LastFor(Contributions(entries), key, i) ::
      NormaliseRegimeOverrides(entries)[key] == EntryContribution(entries[i]).value.1
  {
    MergeLastWins(Contributions(entries), key);
  }

  // ---------------------------------------------------------------------------
  // _resolve_regime_settings

  /** The settings one evaluation runs with. */
  datatype RegimeSettings = RegimeSettings(requiredHits: int, cooldownSeconds: real, defaultQuantity: real)

  /** `str(regime or "normal").strip().lower() or "normal"`. */
  function ResolvedRegimeKey(regime: string): (key: string)
    ensures key != []
  {
    if regime == [] then "normal"
    else
      var key := RegimeKey(regime);
      if key == [] then "normal" else key
  }

  /** The engine's own settings, clamped. */
  function BaseSettings(minSignalConditions: int, cooldownSeconds: real, defaultQuantity: real): (s: RegimeSettings)
    ensures s.requiredHits >= 1 && s.cooldownSeconds >= 0.0 && s.defaultQuantity >= 0.0
    ensures minSignalConditions >= 1 ==> s.requiredHits == minSignalConditions
    ensures cooldownSeconds >= 0.0 ==> s.cooldownSeconds == cooldownSeconds
    ensures defaultQuantity >= 0.0 ==> s.defaultQuantity == defaultQuantity
  {
    RegimeSettings(if minSignalConditions < 1 then 1 else minSignalConditions, Max(0.0, cooldownSeconds), Max(0.0, defaultQuantity))
  }

  /** The override that applies to a regime key: its own, else (for a key
      other than "normal") the one for "normal". */
  function ApplicableOverride(overrides: map<string, RegimeOverride>, key: string): (o: Option<RegimeOverride>)
    ensures key in overrides ==> o == Some(overrides[key])
    ensures key !in overrides && key != "normal" ==> o == (if "normal" in overrides then Some(overrides["normal"]) else None)
    ensures key !in overrides && key == "normal" ==> o == None
  {
    if key in overrides then Some(overrides[key])
    else if key != "normal" && "normal" in overrides then Some(overrides["normal"])
    else None
  }

  /** The settings for an already-normalised regime key: the engine's own,
      with the applicable override's settings taking their place and the
      result clamped again. */
  function SettingsForKey(key: string, overrides: map<string, RegimeOverride>,
                          minSignalConditions: int, cooldownSeconds: real, defaultQuantity: real): (s: RegimeSettings)
    ensures s.requiredHits >= 1 && s.cooldownSeconds >= 0.0 && s.defaultQuantity >= 0.0
  {
    var base := BaseSettings(minSignalConditions, cooldownSeconds, defaultQuantity);
    match ApplicableOverride(overrides, key)
    case Some(o) =>
      if o.IsEmpty() then base
      else
        var hits := o.requiredHits.GetOr(base.requiredHits);
        RegimeSettings(
          if hits < 1 then 1 else hits,
          Max(0.0, o.cooldownSeconds.GetOr(base.cooldownSeconds)),
          Max(0.0, o.defaultQuantity.GetOr(base.defaultQuantity)))
    case None => base
  }

  /** `_resolve_regime_settings(regime)`. */
  function ResolveRegimeSettings(regime: string, overrides: map<string, RegimeOverride>,
                                 minSignalConditions: int, cooldownSeconds: real, defaultQuantity: real): (s: RegimeSettings)
    ensures s.requiredHits >= 1 && s.cooldownSeconds >= 0.0 && s.defaultQuantity >= 0.0
  {
    SettingsForKey(ResolvedRegimeKey(regime), overrides, minSignalConditions, cooldownSeconds, defaultQuantity)
  }

  /** Without overrides, every regime runs with the engine's own settings. */
  lemma ResolveWithoutOverrides(regime: string, minSignalConditions: int, cooldownSeconds: real, defaultQuantity: real)
    ensures ResolveRegimeSettings(regime, map[], minSignalConditions, cooldownSeconds, defaultQuantity)
         == BaseSettings(minSignalConditions, cooldownSeconds, defaultQuantity)
  {
  }

  /** A regime without an override of its own runs with the settings of the
      "normal" regime. */
  lemma ResolveFallsBackToNormal(regime: string, overrides: map<string, RegimeOverride>,
                                 minSignalConditions: int, cooldownSeconds: real, defaultQuantity: real)
    requires ResolvedRegimeKey(regime) !in overrides
    ensures ResolveRegimeSettings(regime, overrides, minSignalConditions, cooldownSeconds, defaultQuantity)
         == SettingsForKey("normal", overrides, minSignalConditions, cooldownSeconds, defaultQuantity)
  {
  }

  /** A valid override's own settings are used exactly; the others come from
      the engine. */
  lemma ResolveUsesOwnOverride(regime: string, overrides: map<string, RegimeOverride>,
                               minSignalConditions: int, cooldownSeconds: real, defaultQuantity: real)
    requires ResolvedRegimeKey(regime) in overrides
    requires overrides[ResolvedRegimeKey(regime)].Valid()
    ensures var o := overrides[ResolvedRegimeKey(regime)];
      var s := ResolveRegimeSettings(regime, overrides, minSignalConditions, cooldownSeconds, defaultQuantity);
      var base := BaseSettings(minSignalConditions, cooldownSeconds, defaultQuantity);
      s == RegimeSettings(o.requiredHits.GetOr(base.requiredHits), o.cooldownSeconds.GetOr(base.cooldownSeconds),
                          o.defaultQuantity.GetOr(base.defaultQuantity))
  {
  }
}
