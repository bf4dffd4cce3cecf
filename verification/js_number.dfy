/**
 * JavaScript numbers as the price service uses them. A finite number is an
 * exact real: the rounding of IEEE doubles is abstracted away, but NaN, the
 * two infinities, truthiness, NaN-propagating arithmetic, the comparison
 * operators and `Number(x.toFixed(k))` keep their JavaScript meaning.
 */
module JsNumber {

  datatype Num = Finite(v: real) | Infinity(negative: bool) | NaN
  {
    /** JavaScript truthiness: 0 and NaN are falsy, every other number is truthy. */
    predicate Truthy() {
      match this
      case Finite(x) => x != 0.0
      case Infinity(_) => true
      case NaN => false
    }
  }

  function Abs(x: real): real {
    if x < 0.0 then -x else x
  }

  /** Unary minus. */
  function Neg(a: Num): Num {
    match a
    case Finite(x) => Finite(-x)
    case Infinity(n) => Infinity(!n)
    case NaN => NaN
  }

  /** `a * b`: NaN propagates, zero times an infinity is NaN, signs multiply. */
  function Mul(a: Num, b: Num): Num {
    match (a, b)
    case (NaN, _) => NaN
    case (_, NaN) => NaN
    case (Finite(x), Finite(y)) => Finite(x * y)
    case (Finite(x), Infinity(n)) => if x == 0.0 then NaN else Infinity(n != (x < 0.0))
    case (Infinity(n), Finite(y)) => if y == 0.0 then NaN else Infinity(n != (y < 0.0))
    case (Infinity(n), Infinity(m)) => Infinity(n != m)
  }

  /** `a / c` for a positive finite constant `c`: only finite values change. */
  function DivBy(a: Num, c: real): (r: Num)
    requires c > 0.0
    ensures r.Truthy() == a.Truthy()
    ensures a.Finite? ==> r.Finite? && r.v * c == a.v
  {
    match a
    case Finite(x) => Finite(x / c)
    case _ => a
  }

  /** `a <= b` on the extended reals, with NaN on either side giving false. */
  predicate AtMost(a: Num, b: Num)
    ensures AtMost(a, b) ==> a != NaN && b != NaN
    ensures a.Finite? && b.Finite? ==> (AtMost(a, b) <==> a.v <= b.v)
  {
    match (a, b)
    case (NaN, _) => false
    case (_, NaN) => false
    case (Infinity(true), _) => true
    case (_, Infinity(false)) => true
    case (Finite(x), Finite(y)) => x <= y
    case (_, _) => false
  }

  /** `a < b`, with NaN on either side giving false. */
  predicate Below(a: Num, b: Num) {
    AtMost(a, b) && a != b
  }

  lemma AtMostNaN(a: Num)
    ensures !AtMost(a, NaN) && !AtMost(NaN, a)
  {
  }

  /** `<=` is a partial order on the numbers other than NaN. */
  lemma AtMostOrder(a: Num, b: Num, c: Num)
    ensures a != NaN ==> AtMost(a, a)
    ensures AtMost(a, b) && AtMost(b, a) ==> a == b
    ensures AtMost(a, b) && AtMost(b, c) ==> AtMost(a, c)
  {
  }

  function Pow10(k: nat): (r: nat)
    ensures r >= 1
  {
    if k == 0 then 1 else 10 * Pow10(k - 1)
  }

  /** The bound from which `toFixed` stops rounding and prints the number as it is. */
  const FixedLimit: real := 1000000000000000000000.0

  /** Rounds a non-negative real to the nearest integer, a tie going to the larger one. */
  function RoundHalfUp(y: real): (n: int)
    requires y >= 0.0
    ensures n >= 0
    ensures y - 0.5 < n as real <= y + 0.5
  {
    (y + 0.5).Floor
  }

  /** `a` rounded to a whole number of steps of size `1 / p`, a tie going up. */
  function RoundToStep(a: real, p: real): (m: real)
    requires a >= 0.0 && p > 0.0
    ensures m >= 0.0
  {
    RoundHalfUp(a * p) as real / p
  }

  /**
   * `Number(x.toFixed(k))`: NaN and the infinities come back unchanged, a
   * magnitude of 10^21 or more is printed unrounded, and otherwise the
   * magnitude is rounded to `k` decimals with ties going up (away from zero
   * once the sign is put back).
   */
  function ToFixed(x: Num, k: nat): (r: Num)
    ensures !x.Finite? ==> r == x
    ensures x.Finite? ==> r.Finite? && (x.v >= 0.0 ==> r.v >= 0.0) && (x.v <= 0.0 ==> r.v <= 0.0)
    ensures x.Finite? && Abs(x.v) >= FixedLimit ==> r == x
  {
    match x
    case Finite(v) =>
      if Abs(v) >= FixedLimit then x else Finite(SignedRound(v, Pow10(k) as real))
    case _ => x
  }

  /** The magnitude of `v` rounded to steps of `1 / p`, with the sign put back. */
  function SignedRound(v: real, p: real): real
    requires p > 0.0
  {
    if v < 0.0 then -RoundToStep(-v, p) else RoundToStep(v, p)
  }

  /** A real that is a whole number of steps of size `1 / p`. */
  predicate OnGrid(r: real, p: real) {
    (r * p).Floor as real == r * p
  }

  /** `r` is at most half a step of size `1 / p` away from `v`. */
  predicate WithinHalfStep(r: real, v: real, p: real) {
    2.0 * p * Abs(r - v) <= 1.0
  }

  lemma MulLe(a: real, b: real, c: real)
    requires a <= b && c >= 0.0
    ensures a * c <= b * c
  {
  }

  lemma MulLt(a: real, b: real, c: real)
    requires a < b && c > 0.0
    ensures a * c < b * c
  {
  }

  /** The rounded value is `n / p` for the integer `n` nearest to `a * p`. */
  lemma RoundToStepScaled(a: real, p: real)
    requires a >= 0.0 && p > 0.0
    ensures RoundToStep(a, p) * p == RoundHalfUp(a * p) as real
  {
    var n := RoundHalfUp(a * p) as real;
    assert n / p * p == n;
  }

  /** Plain real arithmetic: `r * p` within half of `v * p` puts `r` within half a step of `v`. */
  lemma HalfStepApart(r: real, v: real, p: real, n: real)
    requires p > 0.0
    requires r * p == n && v * p - 0.5 < n <= v * p + 0.5
    ensures WithinHalfStep(r, v, p)
  {
    assert p * (r - v) == n - v * p;
    if r >= v {
      assert 2.0 * p * Abs(r - v) == 2.0 * (p * (r - v));
    } else {
      assert 2.0 * p * Abs(r - v) == -2.0 * (p * (r - v));
    }
  }

  lemma RoundToStepIsNearest(a: real, p: real)
    requires a >= 0.0 && p > 0.0
    ensures OnGrid(RoundToStep(a, p), p)
    ensures OnGrid(-RoundToStep(a, p), p)
    ensures WithinHalfStep(RoundToStep(a, p), a, p)
  {
    var m := RoundToStep(a, p);
    var n := RoundHalfUp(a * p);
    RoundToStepScaled(a, p);
    assert (-m) * p == -(n as real);
    assert (-(n as real)).Floor == -n;
    HalfStepApart(m, a, p, n as real);
  }

  lemma RoundToStepOnGrid(a: real, p: real)
    requires a >= 0.0 && p > 0.0
    requires OnGrid(a, p)
    ensures RoundToStep(a, p) == a
  {
    var n := (a * p).Floor;
    assert RoundHalfUp(a * p) == n;
    assert n as real / p == a;
  }

  lemma DivLe(x: real, y: real, p: real)
    requires x <= y && p > 0.0
    ensures x / p <= y / p
  {
  }

  lemma RoundHalfUpMonotone(x: real, y: real)
    requires 0.0 <= x <= y
    ensures RoundHalfUp(x) <= RoundHalfUp(y)
  {
  }

  /** Rounding to steps is monotone. */
  lemma RoundToStepMonotone(a: real, b: real, p: real)
    requires 0.0 <= a <= b && p > 0.0
    ensures RoundToStep(a, p) <= RoundToStep(b, p)
  {
    MulLe(0.0, a, p);
    MulLe(a, b, p);
    RoundHalfUpMonotone(a * p, b * p);
    DivLe(RoundHalfUp(a * p) as real, RoundHalfUp(b * p) as real, p);
  }

  lemma RoundToStepWithin(a: real, p: real, lo: nat, hi: nat)
    requires p > 0.0
    requires lo as real <= a <= hi as real
    requires OnGrid(lo as real, p) && OnGrid(hi as real, p)
    ensures lo as real <= RoundToStep(a, p) <= hi as real
  {
    RoundToStepMonotone(lo as real, a, p);
    RoundToStepMonotone(a, hi as real, p);
    RoundToStepOnGrid(lo as real, p);
    RoundToStepOnGrid(hi as real, p);
  }

  lemma WholeOnGrid(i: int, k: nat)
    ensures OnGrid(i as real, Pow10(k) as real)
  {
    assert i as real * Pow10(k) as real == (i * Pow10(k)) as real;
  }

  lemma SignedRoundIsNearest(v: real, p: real)
    requires p > 0.0
    ensures OnGrid(SignedRound(v, p), p)
    ensures WithinHalfStep(SignedRound(v, p), v, p)
  {
    if v < 0.0 {
      var m := RoundToStep(-v, p);
      RoundToStepIsNearest(-v, p);
      assert Abs(-m - v) == Abs(m - (-v));
      assert WithinHalfStep(-m, v, p);
    } else {
      RoundToStepIsNearest(v, p);
    }
  }

  /**
   * Below 10^21, `ToFixed(x, k)` is a multiple of `10^-k` no farther than half
   * a step from `x`.
   */
  lemma ToFixedIsNearest(v: real, k: nat)
    requires Abs(v) < FixedLimit
    ensures ToFixed(Finite(v), k).Finite?
    ensures OnGrid(ToFixed(Finite(v), k).v, Pow10(k) as real)
    ensures WithinHalfStep(ToFixed(Finite(v), k).v, v, Pow10(k) as real)
  {
    var p := Pow10(k) as real;
    assert ToFixed(Finite(v), k) == Finite(SignedRound(v, p));
    SignedRoundIsNearest(v, p);
  }

  lemma SignedRoundIdempotent(v: real, p: real)
    requires p > 0.0
    ensures SignedRound(SignedRound(v, p), p) == SignedRound(v, p)
  {
    var a := Abs(v);
    var m := RoundToStep(a, p);
    RoundToStepIsNearest(a, p);
    RoundToStepOnGrid(m, p);
    if v < 0.0 && m != 0.0 {
      assert SignedRound(v, p) == -m;
      assert SignedRound(-m, p) == -RoundToStep(m, p);
    }
  }

  /** Rounding an already rounded number changes nothing. */
  lemma ToFixedIdempotent(x: Num, k: nat)
    ensures ToFixed(ToFixed(x, k), k) == ToFixed(x, k)
  {
    if x.Finite? && Abs(x.v) < FixedLimit {
      var p := Pow10(k) as real;
      var r := SignedRound(x.v, p);
      assert ToFixed(x, k) == Finite(r);
      SignedRoundIdempotent(x.v, p);
      if Abs(r) < FixedLimit {
        assert ToFixed(Finite(r), k) == Finite(SignedRound(r, p));
      }
    }
  }

  /** Rounding keeps a value inside an interval whose ends are whole numbers. */
  lemma ToFixedWithin(v: real, k: nat, lo: nat, hi: nat)
    requires lo as real <= v <= hi as real
    requires hi as real < FixedLimit
    ensures ToFixed(Finite(v), k).Finite?
    ensures lo as real <= ToFixed(Finite(v), k).v <= hi as real
  {
    var p := Pow10(k) as real;
    assert ToFixed(Finite(v), k) == Finite(RoundToStep(v, p));
    WholeOnGrid(lo, k);
    WholeOnGrid(hi, k);
    RoundToStepWithin(v, p, lo, hi);
  }
}
