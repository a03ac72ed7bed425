/**
 * Numbers as the modelled code sees them. Floating-point values are modelled as
 * `real`; where the code asks whether a value is finite, its input is a `Float`,
 * which adds NaN and the two infinities. Rounding rules are defined exactly over the
 * reals. Parsing text into numbers and rendering numbers as fixed-decimal text belong
 * to the language runtime and are supplied as a `Runtime` value.
 */
module Numbers {
  import opened Wrappers

  /** An IEEE double as far as the modelled code distinguishes it. */
  datatype Float = Finite(value: real) | NaN | PosInf | NegInf

  /**
   * The Python runtime services the modelled code relies on:
   * `int(text)` and `float(text)` (None where Python raises ValueError),
   * `f"{v:.2f}"`, `f"{v:.3f}"`, and `str(v)` of a float.
   */
  datatype Runtime = Runtime(
    parseInt: string -> Option<int>,
    parseFloat: string -> Option<Float>,
    fixed2: real -> string,
    fixed3: real -> string,
    repr: real -> string)

  /** IEEE `a <= b` on doubles: false whenever either side is NaN. */
  predicate FloatAtMost(a: Float, b: Float)
  {
    !a.NaN? && !b.NaN? && (a.NegInf? || b.PosInf? || (a.Finite? && b.Finite? && a.value <= b.value))
  }

  /**
   * How Python writes a float, with `str()` as with a fixed-decimal format: a finite
   * value as `finite` renders it, otherwise "nan", "inf" or "-inf".
   */
  function FloatText(f: Float, finite: real -> string): string
  {
    match f
    case Finite(v) => finite(v)
    case NaN => "nan"
    case PosInf => "inf"
    case NegInf => "-inf"
  }

  function Abs(r: real): (a: real)
    ensures a >= 0.0 && (a == r || a == -r)
  {
    if r < 0.0 then -r else r
  }

  function Max(a: real, b: real): (m: real)
    ensures m >= a && m >= b && (m == a || m == b)
  {
    if a < b then b else a
  }

  function Min(a: real, b: real): (m: real)
    ensures m <= a && m <= b && (m == a || m == b)
  {
    if a < b then a else b
  }

  /** Python's `min(xs)` of a non-empty series: its least element. */
  function SeqMin(xs: seq<real>): (m: real)
    requires |xs| > 0
    ensures m in xs
    ensures forall x | x in xs :: m <= x
  {
    if |xs| == 1 then xs[0]
    else
      assert forall x | x in xs :: x == xs[0] || x in xs[1..];
      Min(xs[0], SeqMin(xs[1..]))
  }

  /** Python's `max(xs)` of a non-empty series: its greatest element. */
  function SeqMax(xs: seq<real>): (m: real)
    requires |xs| > 0
    ensures m in xs
    ensures forall x | x in xs :: x <= m
  {
    if |xs| == 1 then xs[0]
    else
      assert forall x | x in xs :: x == xs[0] || x in xs[1..];
      Max(xs[0], SeqMax(xs[1..]))
  }

  /** Python's `round(r)`: the nearest integer, ties to the even one. */
  function RoundHalfEven(r: real): (n: int)
    ensures -0.5 <= r - n as real <= 0.5
    ensures r - n as real == 0.5 || n as real - r == 0.5 ==> n % 2 == 0
  {
    var f := r.Floor;
    var d := r - f as real;
    if d < 0.5 then f
    else if d > 0.5 then f + 1
    else if f % 2 == 0 then f
    else f + 1
  }

  /** The two properties of RoundHalfEven determine its value. */
  lemma RoundHalfEvenUnique(r: real, n: int)
    requires -0.5 <= r - n as real <= 0.5
    requires r - n as real == 0.5 || n as real - r == 0.5 ==> n % 2 == 0
    ensures n == RoundHalfEven(r)
  {
    var m := RoundHalfEven(r);
    assert -1.0 <= n as real - m as real <= 1.0;
  }

  /** JavaScript's `Math.round(r)`: the nearest integer, ties towards +infinity. */
  function RoundHalfUp(r: real): (n: int)
    ensures n as real - 0.5 <= r < n as real + 0.5
  {
    (r + 0.5).Floor
  }

  /** Python's `math.isclose(a, b)` with its defaults (rel_tol=1e-9, abs_tol=0). */
  predicate IsClose(a: real, b: real)
  {
    Abs(a - b) <= 0.000000001 * Max(Abs(a), Abs(b))
  }

  /** With no absolute tolerance, being close to zero means being zero. */
  lemma IsCloseToZero(a: real)
    ensures IsClose(a, 0.0) <==> a == 0.0
  {
  }

  /** Close values have the same sign: closeness never spans zero. */
  lemma IsCloseSameSign(a: real, b: real)
    requires IsClose(a, b)
    ensures a > 0.0 ==> b > 0.0
    ensures a < 0.0 ==> b < 0.0
  {
  }
}
