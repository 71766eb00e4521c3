/**
  * Signal value objects and the shared helpers of the strategy templates
  * (strategies/templates.py): the first-wins merge of contract metadata,
  * `StrategySignal` with its integer quantity, order-quantity coercion and
  * the default-parameter fill of `StrategyTemplate`.
  */
module Templates {
  import opened Wrappers
  import opened PyValues

  /** `_CONTRACT_METADATA_KEYS`, in scanning order. */
  const ContractMetadataKeys: seq<string> := [
    "subscription_id", "symbol", "sec_type", "exchange",
    "currency", "local_symbol", "trading_class", "primary_exchange"
  ]

  /** Fractions of a contract below this are treated as rounding noise (1e-9). */
  const FractionEpsilon: real := 0.000000001

  const FractionalKey: string := "quantity_fractional_discarded"

  // ---------------------------------------------------------------------------
  // _extract_contract_metadata

  /** What one candidate mapping offers for a key: nothing for None or blank
      text, stripped text for text, the value itself otherwise. */
  function Usable(v: Dyn): (r: Option<Dyn>)
    ensures r.Some? ==> r.value != DNone
    ensures v != DNone && !v.DStr? ==> r == Some(v)
  {
    match v
    case DNone => None
    case DStr(s) => var t := Strip(s); if t == [] then None else Some(DStr(t))
    case _ => Some(v)
  }

  /** Text without leading or trailing whitespace, and not empty. */
  predicate IsStrippedText(t: string) {
    t != [] && !IsSpace(t[0]) && !IsSpace(t[|t| - 1])
  }

  /** Text is usable exactly when it is not blank, and then stripped. */
  lemma UsableText(s: string)
    ensures Usable(DStr(s)).Some? <==> !AllSpace(s)
    ensures Usable(DStr(s)).Some? ==> Usable(DStr(s)).value.DStr? && IsStrippedText(Usable(DStr(s)).value.s)
  {
    StripSpec(s);
  }

  /** The mappings scanned for one source: the source, then its nested
      "contract" mapping; nothing for a source that is not a mapping. */
  function Candidates(source: Dyn): seq<map<string, Dyn>> {
    if source.DMap? then
      var contract := Get(source.m, "contract");
      if contract.DMap? then [source.m, contract.m] else [source.m]
    else []
  }

  function AllCandidates(sources: seq<Dyn>): seq<map<string, Dyn>> {
    if sources == [] then [] else Candidates(sources[0]) + AllCandidates(sources[1..])
  }

  /** The first usable value for `key` among `cands`, in order. */
  function FirstUsable(cands: seq<map<string, Dyn>>, key: string): (r: Option<Dyn>)
    ensures r.Some? ==> r.value != DNone
    ensures r.None? <==> forall i | 0 <= i < |cands| :: Usable(Get(cands[i], key)).None?
  {
    if cands == [] then None
    else
      var u := Usable(Get(cands[0], key));
      if u.Some? then u
      else
        var rest := FirstUsable(cands[1..], key);
        assert forall i | 1 <= i < |cands| :: cands[i] == cands[1..][i - 1];
        rest
  }

  function Lookup(m: map<string, Dyn>, key: string): Option<Dyn> {
    if key in m then Some(m[key]) else None
  }

  /** `merged` holds, for each contract key, exactly the first usable value
      among `cands`, and holds no other key. */
  ghost predicate AgreesWith(merged: map<string, Dyn>, cands: seq<map<string, Dyn>>) {
    forall k :: Lookup(merged, k) == (if k in ContractMetadataKeys then FirstUsable(cands, k) else None)
  }

  /** Reference definition of the merge: each contract key maps to the first
      usable value over all sources, each source scanned before its contract. */
  function Extracted(sources: seq<Dyn>): (r: map<string, Dyn>)
    ensures forall k | k in r :: k in ContractMetadataKeys
    ensures forall k | k in r :: r[k] != DNone
  {
    var cands := AllCandidates(sources);
    map k | k in ContractMetadataKeys && FirstUsable(cands, k).Some? :: FirstUsable(cands, k).value
  }

  /** The first usable text value is stripped and not blank. */
  lemma {:induction false} FirstUsableText(cands: seq<map<string, Dyn>>, key: string)
    requires FirstUsable(cands, key).Some? && FirstUsable(cands, key).value.DStr?
    ensures IsStrippedText(FirstUsable(cands, key).value.s)
    decreases |cands|
  {
    var v := Get(cands[0], key);
    if Usable(v).Some? {
      if v.DStr? {
        UsableText(v.s);
      }
    } else {
      FirstUsableText(cands[1..], key);
    }
  }

  /** Text values in the merge are stored stripped and never blank. */
  lemma ExtractedTextStripped(sources: seq<Dyn>, key: string)
    requires key in Extracted(sources) && Extracted(sources)[key].DStr?
    ensures IsStrippedText(Extracted(sources)[key].s)
  {
    FirstUsableText(AllCandidates(sources), key);
  }

  lemma {:induction false} FirstUsableAppend(a: seq<map<string, Dyn>>, b: seq<map<string, Dyn>>, key: string)
    ensures FirstUsable(a + b, key) == if FirstUsable(a, key).Some? then FirstUsable(a, key) else FirstUsable(b, key)
    decreases |a|
  {
    if a != [] {
      assert (a + b)[0] == a[0];
      assert (a + b)[1..] == a[1..] + b;
      FirstUsableAppend(a[1..], b, key);
    } else {
      assert a + b == b;
    }
  }

  lemma {:induction false} AllCandidatesAppend(s: seq<Dyn>, t: seq<Dyn>)
    ensures AllCandidates(s + t) == AllCandidates(s) + AllCandidates(t)
    decreases |s|
  {
    if s == [] {
      assert s + t == t;
    } else {
      assert (s + t)[0] == s[0];
      assert (s + t)[1..] == s[1..] + t;
      AllCandidatesAppend(s[1..], t);
    }
  }

  lemma AllCandidatesSnoc(s: seq<Dyn>, x: Dyn)
    ensures AllCandidates(s + [x]) == AllCandidates(s) + Candidates(x)
  {
    AllCandidatesAppend(s, [x]);
    assert AllCandidates([x]) == Candidates(x) + AllCandidates([]);
  }

  /** Sources scanned later never overwrite a key an earlier source supplied. */
  lemma {:induction false} ExtractedFirstWins(sources: seq<Dyn>, later: seq<Dyn>, key: string)
    requires key in Extracted(sources)
    ensures key in Extracted(sources + later)
    ensures Extracted(sources + later)[key] == Extracted(sources)[key]
  {
    AllCandidatesAppend(sources, later);
    FirstUsableAppend(AllCandidates(sources), AllCandidates(later), key);
  }

  /** A source's own usable value beats the one in its nested "contract". */
  lemma SourceBeatsItsContract(m: map<string, Dyn>, key: string)
    requires key in ContractMetadataKeys
    requires Usable(Get(m, key)).Some?
    ensures key in Extracted([DMap(m)])
    ensures Extracted([DMap(m)])[key] == Usable(Get(m, key)).value
  {
    assert AllCandidates([DMap(m)]) == Candidates(DMap(m)) + AllCandidates([]);
  }

  lemma AgreesIsExtracted(merged: map<string, Dyn>, sources: seq<Dyn>)
    requires AgreesWith(merged, AllCandidates(sources))
    ensures merged == Extracted(sources)
  {
    var e := Extracted(sources);
    forall k ensures Lookup(merged, k) == Lookup(e, k) {
    }
    forall k | k in merged ensures k in e && merged[k] == e[k] {
      assert Lookup(merged, k) == Lookup(e, k);
    }
    forall k | k in e ensures k in merged {
      assert Lookup(merged, k) == Lookup(e, k);
    }
  }

  /** One step of the inner loop of `_extract_contract_metadata`: the key, if
      not merged yet, takes the candidate's usable value. */
  function TakeKey(merged: map<string, Dyn>, candidate: map<string, Dyn>, key: string): map<string, Dyn> {
    if key in merged then merged
    else
      match Usable(Get(candidate, key))
      case Some(v) => merged[key := v]
      case None => merged
  }

  /** What the inner loop over `keys` has merged after its first `j` keys. */
  ghost predicate ScannedUpTo(r: map<string, Dyn>, candidate: map<string, Dyn>, prev: seq<map<string, Dyn>>, keys: seq<string>, j: nat)
    requires j <= |keys|
  {
    forall k :: Lookup(r, k) ==
      (if k in keys[..j] then FirstUsable(prev + [candidate], k)
       else if k in keys then FirstUsable(prev, k) else None)
  }

  lemma TakeKeyStep(merged: map<string, Dyn>, candidate: map<string, Dyn>, prev: seq<map<string, Dyn>>, keys: seq<string>, j: nat)
    requires j < |keys|
    requires ScannedUpTo(merged, candidate, prev, keys, j)
    ensures ScannedUpTo(TakeKey(merged, candidate, keys[j]), candidate, prev, keys, j + 1)
  {
    var key := keys[j];
    FirstUsableAppend(prev, [candidate], key);
    assert FirstUsable([candidate], key) == Usable(Get(candidate, key)) by {
      assert [candidate][1..] == [];
    }
    assert keys[..j + 1] == keys[..j] + [key];
  }

  lemma ScanStarts(merged: map<string, Dyn>, candidate: map<string, Dyn>, prev: seq<map<string, Dyn>>)
    requires AgreesWith(merged, prev)
    ensures ScannedUpTo(merged, candidate, prev, ContractMetadataKeys, 0)
  {
  }

  lemma ScanEnds(merged: map<string, Dyn>, candidate: map<string, Dyn>, prev: seq<map<string, Dyn>>)
    requires ScannedUpTo(merged, candidate, prev, ContractMetadataKeys, |ContractMetadataKeys|)
    ensures AgreesWith(merged, prev + [candidate])
  {
    assert ContractMetadataKeys[..|ContractMetadataKeys|] == ContractMetadataKeys;
  }

  /** The body of the inner loop: a key not merged yet takes the candidate's
      value, stripped when it is text, unless it is None or blank. */
  method MergeKey(merged: map<string, Dyn>, candidate: map<string, Dyn>, key: string) returns (r: map<string, Dyn>)
    ensures r == TakeKey(merged, candidate, key)
  {
    r := merged;
    if key !in merged {
      var value := Get(candidate, key);
      if value != DNone {
        var keep := true;
        if value.DStr? {
          value := DStr(Strip(value.s));
          keep := value.s != [];
        }
        if keep {
          r := merged[key := value];
        }
      }
    }
  }

  /** One pass of the inner loop of `_extract_contract_metadata` over the
      contract keys, for one candidate mapping. */
  method ScanCandidate(merged: map<string, Dyn>, candidate: map<string, Dyn>, ghost prev: seq<map<string, Dyn>>)
    returns (r: map<string, Dyn>)
    requires AgreesWith(merged, prev)
    ensures AgreesWith(r, prev + [candidate])
  {
    r := merged;
    var j := 0;
    ScanStarts(r, candidate, prev);
    while j < |ContractMetadataKeys|
      invariant 0 <= j <= |ContractMetadataKeys|
      invariant ScannedUpTo(r, candidate, prev, ContractMetadataKeys, j)
    {
      TakeKeyStep(r, candidate, prev, ContractMetadataKeys, j);
      r := MergeKey(r, candidate, ContractMetadataKeys[j]);
      j := j + 1;
    }
    ScanEnds(r, candidate, prev);
  }

  /** The body of the outer loop of `_extract_contract_metadata`: scan the
      source, then its nested "contract" mapping. */
  method ScanSource(merged: map<string, Dyn>, source: Dyn, ghost before: seq<map<string, Dyn>>)
    returns (r: map<string, Dyn>)
    requires AgreesWith(merged, before)
    ensures AgreesWith(r, before + Candidates(source))
  {
    r := merged;
    var stack: seq<map<string, Dyn>> := [];
    if source.DMap? {
      stack := [source.m];
      var contract := Get(source.m, "contract");
      if contract.DMap? {
        stack := stack + [contract.m];
      }
    }
    assert stack == Candidates(source);
    var c := 0;
    assert before + stack[..c] == before;
    while c < |stack|
      invariant 0 <= c <= |stack|
      invariant AgreesWith(r, before + stack[..c])
    {
      var candidate := stack[c];
      assert before + stack[..c + 1] == (before + stack[..c]) + [candidate];
      r := ScanCandidate(r, candidate, before + stack[..c]);
      c := c + 1;
    }
    assert stack[..c] == stack;
  }

  /** `_extract_contract_metadata(*sources)`: the nested scan over sources,
      their contracts and the contract keys. */
  method ExtractContractMetadata(sources: seq<Dyn>) returns (merged: map<string, Dyn>)
    ensures merged == Extracted(sources)
  {
    merged := map[];
    var i := 0;
    while i < |sources|
      invariant 0 <= i <= |sources|
      invariant AgreesWith(merged, AllCandidates(sources[..i]))
    {
      merged := ScanSource(merged, sources[i], AllCandidates(sources[..i]));
      AllCandidatesSnoc(sources[..i], sources[i]);
      assert sources[..i + 1] == sources[..i] + [sources[i]];
      i := i + 1;
    }
    assert sources[..i] == sources;
    AgreesIsExtracted(merged, sources);
  }

  // ---------------------------------------------------------------------------
  // StrategySignal

  /** A trade signal: side, whole-contract quantity, reason tag and metadata. */
  datatype StrategySignal = StrategySignal(side: string, quantity: int, reason: string, metadata: map<string, Dyn>)

  /** The integer part `__post_init__` keeps: floor for non-negative, ceil for
      negative quantities, 0 for anything non-numeric or non-finite. */
  function WholeQuantity(raw: Dyn): (q: int)
    ensures !ToFloat(raw).Finite? ==> q == 0
    ensures ToFloat(raw).Finite? && ToFloat(raw).x >= 0.0 ==> 0 <= q && q as real <= ToFloat(raw).x < q as real + 1.0
    ensures ToFloat(raw).Finite? && ToFloat(raw).x < 0.0 ==> q <= 0 && q as real - 1.0 < ToFloat(raw).x <= q as real
  {
    match ToFloat(raw)
    case Finite(x) => if x >= 0.0 then Floor(x) else Ceil(x)
    case _ => 0
  }

  /** The fraction `__post_init__` discards, with rounding noise below 1e-9 zeroed. */
  function DiscardedFraction(raw: Dyn): (f: real)
    ensures 0.0 <= f < 1.0
    ensures f == 0.0 || f >= FractionEpsilon
    ensures ToFloat(raw).Finite? && f != 0.0 ==> f == Abs(ToFloat(raw).x - WholeQuantity(raw) as real)
    ensures ToFloat(raw).Finite? && Abs(ToFloat(raw).x - WholeQuantity(raw) as real) >= FractionEpsilon ==> f != 0.0
    ensures !ToFloat(raw).Finite? ==> f == 0.0
  {
    var numeric := match ToFloat(raw) case Finite(x) => x case _ => 0.0;
    var whole := if numeric >= 0.0 then Floor(numeric) else Ceil(numeric);
    var fractional := if numeric >= 0.0 then numeric - whole as real else whole as real - numeric;
    var fractional := if fractional < 0.0 then 0.0 else fractional;
    if 0.0 < fractional < FractionEpsilon then 0.0 else fractional
  }

  /** The metadata `__post_init__` stores: a copy of the given mapping (empty
      for None or a non-mapping) plus the discarded fraction when positive,
      never overwriting an existing entry for it. */
  function SignalMetadata(raw: Dyn, metadata: Dyn): (m: map<string, Dyn>)
    ensures metadata.DMap? ==> forall k | k in metadata.m :: k in m && m[k] == metadata.m[k]
    ensures metadata.DMap? ==> m.Keys <= metadata.m.Keys + {FractionalKey}
    ensures !metadata.DMap? ==> m.Keys <= {FractionalKey}
    ensures FractionalKey in m && (!metadata.DMap? || FractionalKey !in metadata.m) ==> m[FractionalKey] == DFloat(DiscardedFraction(raw))
    ensures FractionalKey in m <==> DiscardedFraction(raw) > 0.0 || (metadata.DMap? && FractionalKey in metadata.m)
  {
    var copy := if metadata.DMap? then metadata.m else map[];
    var f := DiscardedFraction(raw);
    if f > 0.0 && FractionalKey !in copy then copy[FractionalKey := DFloat(f)] else copy
  }

  /** `StrategySignal(side, quantity, reason, metadata)` after `__post_init__`. */
  function NewSignal(side: string, rawQuantity: Dyn, reason: string, metadata: Dyn): (s: StrategySignal)
    ensures s.side == side && s.reason == reason
    ensures s.quantity == WholeQuantity(rawQuantity)
    ensures s.metadata == SignalMetadata(rawQuantity, metadata)
  {
    StrategySignal(side, WholeQuantity(rawQuantity), reason, SignalMetadata(rawQuantity, metadata))
  }

  /** A whole quantity passes through construction untouched. */
  lemma WholeQuantityUnchanged(side: string, q: int, reason: string, metadata: map<string, Dyn>)
    ensures NewSignal(side, DInt(q), reason, DMap(metadata)) == StrategySignal(side, q, reason, metadata)
  {
    assert Floor(q as real) == q;
    assert q < 0 ==> Ceil(q as real) == q;
  }

  /** `StrategySignal.as_dict`: the metadata, overridden by side, quantity and
      reason, with a copy of the metadata under "metadata". */
  function AsDict(s: StrategySignal): (payload: map<string, Dyn>)
    ensures payload.Keys == s.metadata.Keys + {"side", "quantity", "reason", "metadata"}
    ensures payload["side"] == DStr(s.side)
    ensures payload["quantity"] == DInt(s.quantity)
    ensures payload["reason"] == DStr(s.reason)
    ensures payload["metadata"] == DMap(s.metadata)
    ensures forall k | k in s.metadata && k !in {"side", "quantity", "reason", "metadata"} :: payload[k] == s.metadata[k]
  {
    var payload := s.metadata + map["side" := DStr(s.side), "quantity" := DInt(s.quantity), "reason" := DStr(s.reason)];
    payload["metadata" := DMap(s.metadata)]
  }

  // ---------------------------------------------------------------------------
  // Order quantity

  /** `_coerce_order_quantity_components`: whole contracts and the discarded
      fraction; negative, non-numeric and non-finite values give (0, 0.0). */
  function CoerceOrderQuantityComponents(v: Dyn): (r: (int, real))
    ensures r.0 >= 0 && 0.0 <= r.1 < 1.0
    ensures r.1 == 0.0 || r.1 >= FractionEpsilon
    ensures !ToFloat(v).Finite? || ToFloat(v).x < 0.0 ==> r == (0, 0.0)
    ensures ToFloat(v).Finite? && ToFloat(v).x >= 0.0 ==>
      r.0 as real <= ToFloat(v).x < r.0 as real + 1.0
      && (r.1 == 0.0 <==> ToFloat(v).x - r.0 as real < FractionEpsilon)
      && (r.1 != 0.0 ==> r.1 == ToFloat(v).x - r.0 as real)
  {
    match ToFloat(v)
    case Finite(numeric) =>
      var quantity := Trunc(numeric);
      if quantity < 0 then (0, 0.0)
      else
        var discarded := numeric - quantity as real;
        var discarded := if discarded < 0.0 then 0.0 else discarded;
        var discarded := if 0.0 < discarded < FractionEpsilon then 0.0 else discarded;
        (quantity, discarded)
    case _ => (0, 0.0)
  }

  // ---------------------------------------------------------------------------
  // StrategyTemplate

  /** Whether `str(current or "").strip()` is empty. */
  predicate BlankAsText(current: Dyn) {
    !Truthy(current) || (current.DStr? && IsBlankText(current.s))
  }

  /** Whether the default-fill loop replaces the current value of an attribute. */
  predicate TakesDefault(attributes: map<string, Dyn>, name: string, default: Dyn) {
    name !in attributes
    || (default.DStr? && BlankAsText(attributes[name]))
    || attributes[name] == DNone
  }

  /** Reference definition of the default fill: every defaulted attribute that
      is missing, None, or blank where its default is text takes the default;
      every other attribute keeps its value. */
  function FilledDefaults(attributes: map<string, Dyn>, defaults: map<string, Dyn>): (r: map<string, Dyn>)
    ensures r.Keys == attributes.Keys + defaults.Keys
  {
    map k | k in attributes.Keys + defaults.Keys ::
      if k in defaults && TakesDefault(attributes, k, defaults[k]) then defaults[k] else attributes[k]
  }

  /** Instance attributes of a strategy template, by name. */
  class StrategyTemplate {
    var attributes: map<string, Dyn>

    constructor (attributes: map<string, Dyn>)
      ensures this.attributes == attributes
    {
      this.attributes := attributes;
    }

    /** `StrategyTemplate.__post_init__`'s loop over `default_parameters`
        followed by the normalisation of "order_quantity" to whole contracts. */
    method PostInit(defaults: map<string, Dyn>)
      modifies this
      ensures var filled := FilledDefaults(old(attributes), defaults);
        attributes == if "order_quantity" in filled
                      then filled["order_quantity" := DInt(CoerceOrderQuantityComponents(filled["order_quantity"]).0)]
                      else filled
    {
      ghost var original := attributes;
      var remaining := defaults.Keys;
      while remaining != {}
        invariant remaining <= defaults.Keys
        invariant attributes.Keys == original.Keys + (defaults.Keys - remaining)
        invariant forall k | k in attributes :: attributes[k] == (if k in defaults && k !in remaining && TakesDefault(original, k, defaults[k]) then defaults[k] else original[k])
        invariant forall k | k in remaining && k in original :: attributes[k] == original[k]
        decreases remaining
      {
        var name :| name in remaining;
        var default := defaults[name];
        if name !in attributes {
          attributes := attributes[name := default];
        } else {
          var current := attributes[name];
          if default.DStr? && BlankAsText(current) {
            attributes := attributes[name := default];
          } else if current == DNone {
            attributes := attributes[name := default];
          }
        }
        remaining := remaining - {name};
      }
      assert attributes == FilledDefaults(original, defaults);
      if "order_quantity" in attributes {
        var quantity := CoerceOrderQuantityComponents(attributes["order_quantity"]).0;
        attributes := attributes["order_quantity" := DInt(quantity)];
      }
    }

    /** `_resolve_order_quantity(value)`: the given value, or the
        "order_quantity" attribute (0 when missing) when the value is None. */
    function ResolveOrderQuantity(value: Dyn): (r: (int, real))
      reads this
      ensures value != DNone ==> r == CoerceOrderQuantityComponents(value)
      ensures value == DNone && "order_quantity" !in attributes ==> r == (0, 0.0)
      ensures value == DNone && "order_quantity" in attributes ==> r == CoerceOrderQuantityComponents(attributes["order_quantity"])
    {
      var source := if value != DNone then value
                    else if "order_quantity" in attributes then attributes["order_quantity"] else DInt(0);
      CoerceOrderQuantityComponents(source)
    }
  }

  /** After the fill, every defaulted attribute is present and not None. */
  lemma FilledDefaultsNeverNone(attributes: map<string, Dyn>, defaults: map<string, Dyn>, name: string)
    requires name in defaults && defaults[name] != DNone
    ensures name in FilledDefaults(attributes, defaults)
    ensures FilledDefaults(attributes, defaults)[name] != DNone
  {
  }

  /** Filling twice changes nothing more than filling once. */
  lemma FilledDefaultsIdempotent(attributes: map<string, Dyn>, defaults: map<string, Dyn>)
    ensures FilledDefaults(FilledDefaults(attributes, defaults), defaults) == FilledDefaults(attributes, defaults)
  {
    var once := FilledDefaults(attributes, defaults);
    var twice := FilledDefaults(once, defaults);
    forall k | k in twice ensures twice[k] == once[k] {
      if k in defaults && TakesDefault(once, k, defaults[k]) {
        // the default is blank text or None itself: taking it again is a no-op
        assert once[k] == defaults[k];
      }
    }
  }
}
