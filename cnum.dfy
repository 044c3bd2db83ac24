/** C numeric semantics the compositor relies on: 32-bit wrap-around of
  * `unsigned int`, two's-complement stores into `int`, truncating
  * conversions from floating point and the non-finite doubles that a
  * division by zero produces. Floating point values are modelled as exact
  * rationals. */
module CNum {
  const TWO_32: int := 0x1_0000_0000
  const TWO_31: int := 0x8000_0000

  predicate InI32(v: int) { -TWO_31 <= v < TWO_31 }

  /** The value of an `unsigned int` that receives `v` (C's conversion is
    * reduction modulo 2^32). */
  function U32(v: int): (r: int)
    ensures 0 <= r < TWO_32
    ensures 0 <= v < TWO_32 ==> r == v
    ensures (v - r) % TWO_32 == 0
  {
    v % TWO_32
  }

  /** The value of an `int` that receives `v`: two's-complement wrap. */
  function I32(v: int): (r: int)
    ensures InI32(r)
    ensures InI32(v) ==> r == v
    ensures (v - r) % TWO_32 == 0
  {
    var u := v % TWO_32;
    if u >= TWO_31 then u - TWO_32 else u
  }

  /** An `int` value that passes through `unsigned int` comes back
    * unchanged. */
  lemma I32OfU32(t: int)
    requires InI32(t)
    ensures I32(U32(t)) == t
  {
    assert U32(t) % TWO_32 == U32(t);
  }

  /** Conversion of a floating point value to an integer type: the
    * fractional part is discarded (rounding toward zero). */
  function Trunc(r: real): (t: int)
    ensures r >= 0.0 ==> t as real <= r < t as real + 1.0
    ensures r < 0.0 ==> t as real - 1.0 < r <= t as real
    ensures t >= 0 <==> r > -1.0
  {
    if r >= 0.0 then r.Floor else -((-r).Floor)
  }

  /** A floating point value stored into an `unsigned int`.  C leaves a
    * negative or too large value undefined; the model takes the result
    * x86-64 code produces, the truncated value modulo 2^32. */
  function RealToU32(r: real): (u: int)
    ensures 0 <= u < TWO_32
    ensures 0 <= Trunc(r) < TWO_32 ==> u == Trunc(r)
  {
    U32(Trunc(r))
  }

  /** `round()` of the C library: halfway cases go away from zero. */
  function Round(r: real): (t: int)
    ensures r >= 0.0 ==> r - 0.5 < t as real <= r + 0.5
    ensures r < 0.0 ==> r - 0.5 <= t as real < r + 0.5
  {
    if r >= 0.0 then (r + 0.5).Floor else -((-r + 0.5).Floor)
  }

  /** Signed integer division as C performs it: the quotient is truncated
    * toward zero, unlike Dafny's Euclidean `/`. */
  function CDiv(a: int, b: int): (q: int)
    requires b > 0
    ensures a >= 0 ==> q * b <= a < q * b + b
    ensures a < 0 ==> q * b - b < a <= q * b
    ensures a >= 0 ==> q == a / b
  {
    if a >= 0 then a / b else -((-a) / b)
  }

  function Max(a: int, b: int): (r: int)
    ensures r >= a && r >= b && (r == a || r == b)
  {
    if a > b then a else b
  }

  function Min(a: int, b: int): (r: int)
    ensures r <= a && r <= b && (r == a || r == b)
  {
    if a < b then a else b
  }

  /** The GEZERO macro: negative values become zero. */
  function GeZero(a: int): (r: int)
    ensures r >= 0 && (a >= 0 ==> r == a) && (a < 0 ==> r == 0)
  {
    if a >= 0 then a else 0
  }

  /** An IEEE double as far as the compositor can produce one: a finite
    * value, or the result of dividing by zero. */
  datatype Double = Finite(v: real) | PosInf | NaN

  /** `(double)a / b` for unsigned `a` and `b`. */
  function Ratio(a: nat, b: nat): (d: Double)
    ensures b != 0 ==> d == Finite(a as real / b as real)
    ensures b == 0 && a == 0 ==> d.NaN?
    ensures b == 0 && a != 0 ==> d.PosInf?
  {
    if b == 0 then (if a == 0 then NaN else PosInf)
    else Finite(a as real / b as real)
  }

  /** `x <= t` with a finite `x`: false against NaN, true against +inf. */
  predicate LeD(x: real, t: Double) {
    match t
    case Finite(v) => x <= v
    case PosInf => true
    case NaN => false
  }

  /** `t == 1.0`: never true for NaN or +inf. */
  predicate IsOne(t: Double) {
    t == Finite(1.0)
  }

  lemma RatioIsOneIff(a: nat, b: nat)
    ensures IsOne(Ratio(a, b)) <==> (b != 0 && a == b)
  {
    if b != 0 {
      var q := a as real / b as real;
      assert q * b as real == a as real;
      if q == 1.0 {
        assert a as real == b as real;
      }
    }
  }
}
