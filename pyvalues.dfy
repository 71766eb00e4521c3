/**
  * The handful of Python value semantics the strategies rely on: untyped
  * mapping values, `float(...)`, truthiness, `str.strip()`, ASCII case
  * mapping and the integer conversions `math.floor`, `math.ceil`, `int(...)`
  * and `round(...)`. Prices and sizes are exact `real`s.
  */
module PyValues {
  import opened Wrappers

  /** A value found in one of the strategies' untyped mappings. */
  datatype Dyn =
    | DNone
    | DBool(b: bool)
    | DInt(i: int)
    | DFloat(x: real)
    | DNonFinite(kind: NonFiniteKind) // float nan, inf or -inf
    | DStr(s: string)
    | DMap(m: map<string, Dyn>)
    | DOther                          // any other object (list, datetime, ...)

  /** The three floats that are not real numbers. */
  datatype NonFiniteKind = NaN | PosInf | NegInf

  /** The outcome of Python's `float(v)`. */
  datatype FloatConv = Finite(x: real) | NonFinite(kind: NonFiniteKind) | NotNumeric

  /** `float(v)`: bools and numbers convert; text parsing is not modelled. */
  function ToFloat(v: Dyn): FloatConv {
    match v
    case DBool(b) => Finite(if b then 1.0 else 0.0)
    case DInt(i) => Finite(i as real)
    case DFloat(x) => Finite(x)
    case DNonFinite(kind) => NonFinite(kind)
    case _ => NotNumeric
  }

  /** Python truthiness, `bool(v)`. */
  predicate Truthy(v: Dyn) {
    match v
    case DNone => false
    case DBool(b) => b
    case DInt(i) => i != 0
    case DFloat(x) => x != 0.0
    case DNonFinite(_) => true
    case DStr(s) => s != ""
    case DMap(m) => m != map[]
    case DOther => true
  }

  /** `mapping.get(key)`. */
  function Get(m: map<string, Dyn>, key: string): Dyn {
    if key in m then m[key] else DNone
  }

  /** `_coerce_numeric`: a finite float, or None for None, non-numbers and non-finite numbers. */
  function CoerceNumeric(v: Dyn): (r: Option<real>)
    ensures r.Some? <==> v.DBool? || v.DInt? || v.DFloat?
    ensures v.DFloat? ==> r == Some(v.x)
    ensures v.DInt? ==> r == Some(v.i as real)
    ensures v.DBool? ==> r == Some(if v.b then 1.0 else 0.0)
  {
    match ToFloat(v)
    case Finite(x) => Some(x)
    case _ => None
  }

  // ---------------------------------------------------------------------------
  // Text

  /** The characters `str.isspace()` accepts, which `str.strip()` removes. */
  predicate IsSpace(c: char) {
    c == ' ' || ('\t' <= c <= '\r') || ('\U{1c}' <= c <= '\U{1f}')
    || c == '\U{85}' || c == '\U{a0}' || c == '\U{1680}'
    || ('\U{2000}' <= c <= '\U{200a}') || c == '\U{2028}' || c == '\U{2029}'
    || c == '\U{202f}' || c == '\U{205f}' || c == '\U{3000}'
  }

  predicate AllSpace(s: string) {
    forall k | 0 <= k < |s| :: IsSpace(s[k])
  }

  /** `str.lstrip()`. */
  function TrimLeft(s: string): (r: string)
    ensures |r| <= |s|
  {
    if s != [] && IsSpace(s[0]) then TrimLeft(s[1..]) else s
  }

  /** `str.rstrip()`. */
  function TrimRight(s: string): (r: string)
    ensures |r| <= |s|
  {
    if s != [] && IsSpace(s[|s| - 1]) then TrimRight(s[..|s| - 1]) else s
  }

  /** `str.strip()`. */
  function Strip(s: string): (r: string)
    ensures |r| <= |s|
  {
    TrimRight(TrimLeft(s))
  }

  /** `lstrip` removes exactly the leading whitespace. */
  lemma {:induction false} TrimLeftSpec(s: string)
    ensures var r := TrimLeft(s);
      r == s[|s| - |r|..] && AllSpace(s[..|s| - |r|]) && (r != [] ==> !IsSpace(r[0]))
    decreases |s|
  {
    if s != [] && IsSpace(s[0]) {
      TrimLeftSpec(s[1..]);
      var r := TrimLeft(s[1..]);
      assert s[..|s| - |r|] == [s[0]] + s[1..][..|s[1..]| - |r|];
    }
  }

  /** `rstrip` removes exactly the trailing whitespace. */
  lemma {:induction false} TrimRightSpec(s: string)
    ensures var r := TrimRight(s);
      r == s[..|r|] && AllSpace(s[|r|..]) && (r != [] ==> !IsSpace(r[|r| - 1]))
    decreases |s|
  {
    if s != [] && IsSpace(s[|s| - 1]) {
      TrimRightSpec(s[..|s| - 1]);
      var r := TrimRight(s[..|s| - 1]);
      assert s[|r|..] == s[..|s| - 1][|r|..] + [s[|s| - 1]];
    }
  }

  /** `strip` leaves the longest slice without leading or trailing
      whitespace, and nothing exactly for all-whitespace text. */
  lemma StripSpec(s: string)
    ensures var r := Strip(s);
      exists i | 0 <= i <= |s| - |r| :: r == s[i..i + |r|] && AllSpace(s[..i]) && AllSpace(s[i + |r|..])
    ensures Strip(s) != [] ==> !IsSpace(Strip(s)[0]) && !IsSpace(Strip(s)[|Strip(s)| - 1])
    ensures Strip(s) == [] <==> AllSpace(s)
  {
    var left := TrimLeft(s);
    var r := TrimRight(left);
    TrimLeftSpec(s);
    TrimRightSpec(left);
    var i := |s| - |left|;
    assert r == s[i..i + |r|];
    assert s[i + |r|..] == left[|r|..];
    assert AllSpace(s[..i]) && AllSpace(s[i + |r|..]);
    assert r == [] ==> s == s[..i] + left && AllSpace(s);
    assert AllSpace(s) ==> left == [];
  }

  /** Whether `str(v).strip()` is empty for text, the test used on text settings. */
  predicate IsBlankText(s: string) {
    Strip(s) == []
  }

  function LowerChar(c: char): char {
    if 'A' <= c <= 'Z' then (c as int + 32) as char else c
  }

  function UpperChar(c: char): char {
    if 'a' <= c <= 'z' then (c as int - 32) as char else c
  }

  /** `str.lower()` on ASCII letters. */
  function Lower(s: string): (r: string)
    ensures |r| == |s|
  {
    seq(|s|, i requires 0 <= i < |s| => LowerChar(s[i]))
  }

  /** `str.upper()` on ASCII letters. */
  function Upper(s: string): (r: string)
    ensures |r| == |s|
  {
    seq(|s|, i requires 0 <= i < |s| => UpperChar(s[i]))
  }

  // ---------------------------------------------------------------------------
  // Numbers

  function Max(a: real, b: real): real { if a >= b then a else b }
  function Min(a: real, b: real): real { if a <= b then a else b }
  function Abs(x: real): real { if x < 0.0 then -x else x }

  /** `math.floor(x)`. */
  function Floor(x: real): (r: int)
    ensures r as real <= x < r as real + 1.0
  {
    x.Floor
  }

  /** `math.ceil(x)`. */
  function Ceil(x: real): (r: int)
    ensures r as real - 1.0 < x <= r as real
  {
    -((-x).Floor)
  }

  /** `int(x)` on a float: truncation toward zero. */
  function Trunc(x: real): (r: int)
    ensures x >= 0.0 ==> 0 <= r && r as real <= x < r as real + 1.0
    ensures x < 0.0 ==> r <= 0 && r as real - 1.0 < x <= r as real
  {
    if x >= 0.0 then Floor(x) else Ceil(x)
  }

  /** `round(x)`: to the nearest integer, ties to the even one. */
  function Round(x: real): (r: int)
    ensures x - 0.5 <= r as real <= x + 0.5
    ensures (r as real - x == 0.5 || x - r as real == 0.5) ==> r % 2 == 0
  {
    var f := Floor(x);
    var frac := x - f as real;
    if frac < 0.5 then f
    else if frac > 0.5 then f + 1
    else if f % 2 == 0 then f else f + 1
  }

  // ---------------------------------------------------------------------------
  // collections.deque(maxlen=...)

  /** `d.append(x)` on a deque bounded by `maxlen`: once full, the oldest
      element is dropped from the front. */
  function AppendBounded<T>(q: seq<T>, x: T, maxlen: nat): (r: seq<T>)
    requires maxlen > 0
    ensures |r| == if |q| + 1 <= maxlen then |q| + 1 else maxlen
    ensures r[|r| - 1] == x
    ensures r == (q + [x])[|q| + 1 - |r|..]
  {
    var full := q + [x];
    if |full| <= maxlen then full else full[|full| - maxlen..]
  }
}
