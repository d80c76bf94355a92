/** Numeric values as the analysis scripts see them: Python floats read from
    CSV text, which may be NaN, and the integer operations applied to them
    (`math.ceil`, `int()` truncation, `float.is_integer`). Reals are exact;
    floating-point rounding is not modelled. */
module Numbers {

  import opened Wrappers

  /** A parsed CSV number: a real value or NaN. */
  datatype Num = Val(v: real) | NaN

  /** Python's `float(s)`: None when the text is not a number (ValueError). */
  type FloatParser = string -> Option<Num>

  /** Python's `int(s)`: None when the text is not an integer (ValueError). */
  type IntParser = string -> Option<int>

  function Abs(x: real): (a: real)
    ensures a >= 0.0 && (a == x || a == -x)
  {
    if x < 0.0 then -x else x
  }

  /** Python's `x.is_integer()` on a float. */
  predicate IsInteger(x: real)
  {
    x == x.Floor as real
  }

  /** Python's `math.ceil(x)`. */
  function Ceil(x: real): (c: int)
    ensures x <= c as real < x + 1.0
    ensures IsInteger(x) <==> c as real == x
  {
    if IsInteger(x) then x.Floor else x.Floor + 1
  }

  /** Python's `int(x)` on a float: truncation toward zero. */
  function Trunc(x: real): (t: int)
    ensures 0.0 <= x ==> t >= 0 && t as real <= x < t as real + 1.0
    ensures x < 0.0 ==> t <= 0 && t as real - 1.0 < x <= t as real
  {
    if x >= 0.0 then x.Floor else -((-x).Floor)
  }

  /** `a - b` with NaN propagating. */
  function Minus(a: Num, b: real): (r: Num)
    ensures r.NaN? <==> a.NaN?
    ensures r.Val? ==> r.v + b == a.v
  {
    match a
    case NaN => NaN
    case Val(x) => Val(x - b)
  }

  /** `a * k` with NaN propagating. */
  function Times(a: Num, k: real): (r: Num)
    ensures r.NaN? <==> a.NaN?
    ensures r.Val? && k != 0.0 ==> r.v / k == a.v
  {
    match a
    case NaN => NaN
    case Val(x) => Val(x * k)
  }

  /** `a + b` with NaN propagating. */
  function Plus(a: Num, b: Num): (r: Num)
    ensures r.NaN? <==> a.NaN? || b.NaN?
    ensures r.Val? ==> r.v - b.v == a.v
  {
    if a.NaN? || b.NaN? then NaN else Val(a.v + b.v)
  }

  /** numpy's `all(np.isnan(xs))`; true of the empty array. */
  predicate AllNaN(xs: seq<Num>)
  {
    forall i | 0 <= i < |xs| :: xs[i].NaN?
  }

  /** `math.pi` as a double. */
  const Pi: real := 3.141592653589793

  /** `config.mm_to_m`, fixed at 1/1000 (config.py, not configurable). */
  const MmToM: real := 1.0 / 1000.0

  /** A location (x, y, z) read from data; any coordinate may be NaN. */
  datatype Vec3 = Vec3(x: Num, y: Num, z: Num)

  /** `p * k` on a numpy vector: each coordinate scaled, NaN staying NaN. */
  function Scale(p: Vec3, k: real): (q: Vec3)
    ensures (q.x.NaN? <==> p.x.NaN?) && (q.y.NaN? <==> p.y.NaN?) && (q.z.NaN? <==> p.z.NaN?)
    ensures k != 0.0 && q.x.Val? ==> q.x.v / k == p.x.v
    ensures k != 0.0 && q.y.Val? ==> q.y.v / k == p.y.v
    ensures k != 0.0 && q.z.Val? ==> q.z.v / k == p.z.v
  {
    Vec3(Times(p.x, k), Times(p.y, k), Times(p.z, k))
  }
}
