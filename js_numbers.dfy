/** The few pieces of JavaScript number semantics the model needs. Values are
    exact rationals (`real`); only the special results of a division by zero
    (Infinity, -Infinity, NaN) and the rounding/remainder rules are kept. */
module JsNumbers {

  /** The result of a JavaScript division, before any rounding of the double. */
  datatype Extended = Finite(value: real) | PosInf | NegInf | NaN

  /** `a / b` in JavaScript: a finite quotient, or the infinity or NaN that a
      division by zero yields. */
  function Div(a: real, b: real): (r: Extended)
    ensures b != 0.0 ==> r == Finite(a / b)
    ensures b == 0.0 ==> (r == PosInf <==> a > 0.0)
    ensures b == 0.0 ==> (r == NegInf <==> a < 0.0)
    ensures b == 0.0 ==> (r == NaN <==> a == 0.0)
  {
    if b != 0.0 then Finite(a / b)
    else if a > 0.0 then PosInf
    else if a < 0.0 then NegInf
    else NaN
  }

  /** `x * k` for a positive constant `k`: infinities and NaN are preserved. */
  function Scale(x: Extended, k: real): (r: Extended)
    requires k > 0.0
    ensures x.Finite? <==> r.Finite?
    ensures x.Finite? ==> r.value == x.value * k
    ensures !x.Finite? ==> r == x
  {
    match x
    case Finite(v) => Finite(v * k)
    case _ => x
  }

  /** `Math.min(x, c)` for a finite `c`: NaN stays NaN, +Infinity gives `c`. */
  function MinWith(x: Extended, c: real): (r: Extended)
    ensures x.NaN? <==> r.NaN?
    ensures x.PosInf? ==> r == Finite(c)
    ensures x.NegInf? ==> r == NegInf
    ensures x.Finite? ==> r.Finite? && r.value <= c && r.value <= x.value
                          && (r.value == c || r.value == x.value)
  {
    match x
    case Finite(v) => Finite(if v <= c then v else c)
    case PosInf => Finite(c)
    case NegInf => NegInf
    case NaN => NaN
  }

  /** `Math.min(part / whole * 100, 100)`: a percentage capped at 100. It is
      never +Infinity; with a positive whole it is finite, it is exactly 100
      once the part reaches the whole, it is negative for a negative part, and
      otherwise it is the exact ratio. */
  function CappedPercent(part: real, whole: real): (r: Extended)
    ensures r.Finite? ==> r.value <= 100.0
    ensures !r.PosInf?
    ensures whole > 0.0 ==> r.Finite? && (r.value == 100.0 || r.value * whole == part * 100.0)
    ensures whole > 0.0 && part < 0.0 ==> r.Finite? && r.value < 0.0
    ensures whole > 0.0 ==> (r == Finite(100.0) <==> part >= whole)
  {
    assert whole > 0.0 ==> (part / whole >= 1.0 <==> part >= whole) by {
      if whole > 0.0 {
        MultiplyCancel(part / whole, 1.0, whole);
        assert part / whole * whole == part;
      }
    }
    MinWith(Scale(Div(part, whole), 100.0), 100.0)
  }

  /** `x >= c` in JavaScript: false whenever `x` is NaN. */
  predicate AtLeast(x: Extended, c: real)
  {
    match x
    case Finite(v) => v >= c
    case PosInf => true
    case NegInf => false
    case NaN => false
  }

  /** `x > c` in JavaScript: false whenever `x` is NaN. */
  predicate Above(x: Extended, c: real)
  {
    match x
    case Finite(v) => v > c
    case PosInf => true
    case NegInf => false
    case NaN => false
  }

  /** `Math.round(x)`: the nearest integer, halves rounded up (towards +Infinity). */
  function MathRound(x: real): (r: int)
    ensures r as real - 0.5 <= x < r as real + 0.5
  {
    (x + 0.5).Floor
  }

  /** `Math.round` is monotone. */
  lemma MathRoundMonotone(x: real, y: real)
    requires x <= y
    ensures MathRound(x) <= MathRound(y)
  {
  }

  /** For an integer `p` and a positive integer `q`, `Math.round(p / q * 100)`
      is the integer quotient `(200 * p + q) / (2 * q)`. */
  lemma {:induction false} RoundedPercent(p: int, q: int)
    requires q > 0
    ensures MathRound(p as real / q as real * 100.0) == (200 * p + q) / (2 * q)
  {
    var n := (200 * p + q) / (2 * q);
    var y := p as real / q as real * 100.0 + 0.5;
    var k := (2 * q) as real;
    QuotientBounds(200 * p + q, 2 * q);
    ScaledHalf(p, q);
    assert n as real * k <= y * k by {
      assert (2 * q * n) as real == n as real * k;
    }
    assert y * k < (n + 1) as real * k by {
      assert (2 * q * (n + 1)) as real == (n + 1) as real * k;
    }
    MultiplyCancel(n as real, y, k);
    MultiplyCancel(y, (n + 1) as real, k);
  }

  /** The integer quotient of `a` by a positive `m` is bracketed by `a / m`. */
  lemma QuotientBounds(a: int, m: int)
    requires m > 0
    ensures m * (a / m) <= a < m * (a / m + 1)
  {
  }

  /** `(p / q * 100 + 1/2) * 2q` is the integer `200p + q`. */
  lemma ScaledHalf(p: int, q: int)
    requires q > 0
    ensures (p as real / q as real * 100.0 + 0.5) * (2 * q) as real == (200 * p + q) as real
  {
    var t := p as real / q as real;
    assert t * q as real == p as real;
    calc {
      (t * 100.0 + 0.5) * (2 * q) as real;
      == 200.0 * (t * q as real) + q as real;
      == (200 * p + q) as real;
    }
  }

  /** Cancelling a positive factor in a non-strict and a strict comparison. */
  lemma MultiplyCancel(a: real, b: real, k: real)
    requires k > 0.0
    ensures a * k <= b * k ==> a <= b
    ensures a * k < b * k ==> a < b
  {
    if a > b {
      assert a * k - b * k == (a - b) * k;
    }
  }

  /** JavaScript's `a % b` on integers: the remainder takes the sign of `a`
      (it truncates towards zero), unlike Dafny's Euclidean `%`. */
  function JsRem(a: int, b: int): (r: int)
    requires b > 0
    ensures a >= 0 ==> 0 <= r < b
    ensures a < 0 ==> -b < r <= 0
    ensures r == a % b || r == a % b - b
  {
    var e := a % b;
    if a >= 0 || e == 0 then e else e - b
  }
}
