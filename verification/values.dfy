/** Python values as the quote pipeline handles them: JSON-like data held in
    insertion-ordered dictionaries, Python's cross-type numeric equality, and
    the rounding that the codec applies to floats. */
module Values {

  datatype Option<+T> = None | Some(value: T)

  /** A dynamically typed Python value. `VFloat` carries the exact real a
      double stands for; `VDict` is a (nested) dictionary. */
  datatype Value =
    | VNone
    | VBool(b: bool)
    | VInt(i: int)
    | VFloat(r: real)
    | VStr(s: string)
    | VList(items: seq<Value>)
    | VDict(d: Dict)

  /** A Python dict: its keys in insertion order and its entries. */
  datatype Dict = Dict(keys: seq<string>, vals: map<string, Value>)

  /** The keys are distinct and are exactly the keys of the entries. */
  ghost predicate WellFormed(d: Dict)
  {
    && (forall i, j :: 0 <= i < j < |d.keys| ==> d.keys[i] != d.keys[j])
    && (forall k :: k in d.vals <==> k in d.keys)
  }

  const Empty: Dict := Dict([], map[])

  /** No element occurs twice. */
  predicate Distinct<T(==)>(s: seq<T>)
  {
    forall i, j :: 0 <= i < j < |s| ==> s[i] != s[j]
  }

  /** `d.get(k)`: a missing key reads as None. */
  function Get(d: Dict, k: string): (v: Value)
    ensures k !in d.vals ==> v == VNone
    ensures k in d.vals ==> v == d.vals[k]
  {
    if k in d.vals then d.vals[k] else VNone
  }

  /** `d[k] = v`: an existing key keeps its position, a new key goes last. */
  function Put(d: Dict, k: string, v: Value): (r: Dict)
    requires WellFormed(d)
    ensures WellFormed(r)
    ensures r.vals == d.vals[k := v]
    ensures k in d.vals ==> r.keys == d.keys
    ensures k !in d.vals ==> r.keys == d.keys + [k]
  {
    if k in d.vals then Dict(d.keys, d.vals[k := v]) else Dict(d.keys + [k], d.vals[k := v])
  }

  /** The numeric value of a bool, int or float (Python's bool is an int). */
  function Numeric(v: Value): Option<real>
  {
    match v
    case VBool(b) => Some(if b then 1.0 else 0.0)
    case VInt(i) => Some(i as real)
    case VFloat(r) => Some(r)
    case _ => None
  }

  /** Python's `==`: numbers compare by value across bool/int/float, lists
      element-wise, dicts by their entries regardless of key order. */
  predicate PyEq(a: Value, b: Value)
  {
    if Numeric(a).Some? || Numeric(b).Some? then Numeric(a) == Numeric(b)
    else match (a, b)
      case (VNone, VNone) => true
      case (VStr(x), VStr(y)) => x == y
      case (VList(xs), VList(ys)) =>
        |xs| == |ys| && forall i :: 0 <= i < |xs| ==> PyEq(xs[i], ys[i])
      case (VDict(d), VDict(e)) =>
        d.vals.Keys == e.vals.Keys && forall k :: k in d.vals ==> PyEq(d.vals[k], e.vals[k])
      case _ => false
  }

  /** Python truthiness: None, False, zero, and empty strings, lists and
      dicts are false. */
  predicate Truthy(v: Value)
  {
    match v
    case VNone => false
    case VBool(b) => b
    case VInt(i) => i != 0
    case VFloat(r) => r != 0.0
    case VStr(s) => |s| > 0
    case VList(items) => |items| > 0
    case VDict(d) => |d.vals| > 0
  }

  /** `d.get(k, default)`. */
  function GetOr(d: Dict, k: string, default: Value): (v: Value)
    ensures k in d.vals ==> v == d.vals[k]
    ensures k !in d.vals ==> v == default
  {
    if k in d.vals then d.vals[k] else default
  }

  /** Every value equals itself (there is no NaN among exact reals). */
  lemma {:induction false} PyEqReflexive(v: Value)
    ensures PyEq(v, v)
  {
    match v
    case VList(xs) =>
      forall i | 0 <= i < |xs| ensures PyEq(xs[i], xs[i]) {
        PyEqReflexive(xs[i]);
      }
    case VDict(d) =>
      forall k | k in d.vals ensures PyEq(d.vals[k], d.vals[k]) {
        PyEqReflexive(d.vals[k]);
      }
    case _ =>
  }

  function Pow10(n: nat): (p: nat)
    ensures p >= 1
  {
    if n == 0 then 1 else 10 * Pow10(n - 1)
  }

  /** Python's `round(x, places)`: nearest multiple of 10^-places, ties to
      the even neighbour. */
  function Round(x: real, places: nat): real
  {
    RoundScaled(x * Pow10(places) as real) as real / Pow10(places) as real
  }

  /** The integer nearest to `y`, ties to even. */
  function RoundScaled(y: real): (n: int)
    ensures y - 0.5 <= n as real <= y + 0.5
  {
    var f := y.Floor;
    var frac := y - f as real;
    if frac < 0.5 then f
    else if frac > 0.5 then f + 1
    else if f % 2 == 0 then f else f + 1
  }

  /** `str(n)` for an integer: decimal digits, a leading '-' when negative. */
  function IntText(i: int): (s: string)
    ensures |s| >= 1
    ensures i >= 0 ==> forall c :: c in s ==> '0' <= c <= '9'
    decreases if i < 0 then -i + 1 else i
  {
    if i < 0 then "-" + IntText(-i)
    else if i < 10 then [(('0' as int) + i) as char]
    else IntText(i / 10) + [(('0' as int) + i % 10) as char]
  }

  /** Python's `int(x)` on a float: truncation toward zero. */
  function Trunc(x: real): (n: int)
    ensures x >= 0.0 ==> n as real <= x < n as real + 1.0
    ensures x < 0.0 ==> n as real - 1.0 < x <= n as real
  {
    if x >= 0.0 then x.Floor else -((-x).Floor)
  }
}
