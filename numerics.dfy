/** Numeric helpers shared by the synthesizer model: Rust's rounding and
    truncating conversions on reals, clamping, and the record of
    transcendental functions that the model treats as uninterpreted. */
module Numerics {

  datatype Option<T> = None | Some(value: T)

  /** The transcendental and foreign numeric functions the engine calls.
      They are uninterpreted: a member that relies on one of their laws
      says so with one of the predicates below as a precondition. */
  datatype Math = Math(
    exp: real -> real,
    ln: real -> real,
    exp2: real -> real,
    log2: real -> real,
    sqrt: real -> real,
    sin: real -> real,
    freqToPitch: real -> real)

  /** 2^0 = 1. */
  ghost predicate Exp2Zero(m: Math) {
    m.exp2(0.0) == 1.0
  }

  /** 2^y is positive. */
  ghost predicate Exp2Positive(m: Math) {
    forall y :: 0.0 < m.exp2(y)
  }

  /** sqrt(y) is the non-negative square root of every y >= 0. */
  ghost predicate SqrtLaw(m: Math) {
    forall y :: 0.0 <= y ==> 0.0 <= m.sqrt(y) && m.sqrt(y) * m.sqrt(y) == y
  }

  /** exp maps negative arguments into (0, 1) and ln is positive above 1. */
  ghost predicate ExpLnLaw(m: Math) {
    && (forall x :: x < 0.0 ==> 0.0 < m.exp(x) < 1.0)
    && (forall y :: 1.0 < y ==> 0.0 < m.ln(y))
  }

  /** exp2 is positive, log2 is strictly increasing on the positive reals, and
      the two are inverse to each other. */
  ghost predicate Log2Law(m: Math) {
    && (forall y :: 0.0 < m.exp2(y))
    && (forall x, y :: 0.0 < x < y ==> m.log2(x) < m.log2(y))
    && (forall y :: m.log2(m.exp2(y)) == y)
    && (forall x :: 0.0 < x ==> m.exp2(m.log2(x)) == x)
  }

  /** f64::MAX, the initial value of the running minima in note_on. */
  const F64Max: real := 179769313486231570814527423731704356798070567525844996598917476803157260780028538760589558632766878171540458953514382464234321326889464182768467546703537516986049910576551282076245490090389328944075868508455133942304583236903222948165808559332123348274797826204144723168738177180919299881250404026184124858368.0

  const I32Min: int := -0x8000_0000
  const I32Max: int := 0x7FFF_FFFF

  /** f32::round: the nearest integer, halves rounded away from zero. */
  function Round(x: real): (r: int)
    ensures -0.5 <= x - r as real <= 0.5
    ensures x == r as real + 0.5 ==> x < 0.0
    ensures x == r as real - 0.5 ==> 0.0 < x
  {
    if x >= 0.0 then (x + 0.5).Floor else -((-x + 0.5).Floor)
  }

  lemma RoundInteger(k: int)
    ensures Round(k as real) == k
  {
  }

  /** `x as i32` on a float: truncation toward zero, saturating at the i32 bounds. */
  function SaturateI32(k: int): (r: int)
    ensures I32Min <= r <= I32Max
    ensures I32Min <= k <= I32Max ==> r == k
  {
    if k < I32Min then I32Min else if k > I32Max then I32Max else k
  }

  /** Truncation toward zero (`as` on a float, before any saturation). */
  function Trunc(x: real): (r: int)
    ensures 0.0 <= x ==> 0 <= r && r as real <= x < r as real + 1.0
    ensures x < 0.0 ==> r <= 0 && r as real - 1.0 < x <= r as real
  {
    if x >= 0.0 then x.Floor else -((-x).Floor)
  }

  /** `x as usize` on a float: truncation, negative values saturate to 0. */
  function TruncToUsize(x: real): (r: nat)
    ensures x <= 0.0 ==> r == 0
    ensures 0.0 <= x ==> r as real <= x < r as real + 1.0
  {
    if x <= 0.0 then 0 else x.Floor
  }

  /** `k as usize` on an i32: two's-complement reinterpretation on 64 bits. */
  function I32AsUsize(k: int): (r: nat)
    requires I32Min <= k <= I32Max
    ensures 0 <= k ==> r == k
    ensures k < 0 ==> r >= 0x1_0000_0000_0000_0000 - 0x8000_0000
  {
    if k >= 0 then k else 0x1_0000_0000_0000_0000 + k
  }

  /** `clamp(x, lo, hi)` as Rust's f32::clamp and num::clamp compute it. */
  function Clamp(x: real, lo: real, hi: real): (r: real)
    requires lo <= hi
    ensures lo <= r <= hi
    ensures lo <= x <= hi ==> r == x
    ensures x < lo ==> r == lo
    ensures hi < x ==> r == hi
  {
    if x < lo then lo else if x > hi then hi else x
  }

  /** The product of two non-negative reals is non-negative. */
  lemma MulNonNeg(x: real, y: real)
    requires 0.0 <= x && 0.0 <= y
    ensures 0.0 <= x * y
  {
  }

  /** The product of two positive reals is positive. */
  lemma MulPositive(x: real, y: real)
    requires 0.0 < x && 0.0 < y
    ensures 0.0 < x * y
  {
  }

  /** A product with a positive factor has the sign of the other factor. */
  lemma PositiveFactor(x: real, y: real)
    requires 0.0 < y
    ensures 0.0 < x * y ==> 0.0 < x
    ensures 0.0 <= x * y ==> 0.0 <= x
  {
  }

  /** A quotient n / w with 0 <= n <= w lies in [0, 1]. */
  lemma UnitQuotient(n: real, w: real)
    requires 0.0 < w && 0.0 <= n <= w
    ensures 0.0 <= n / w <= 1.0
  {
    var q := n / w;
    assert q * w == n;
    assert (1.0 - q) * w == w - n;
    PositiveFactor(q, w);
    PositiveFactor(1.0 - q, w);
  }

  /** A square is non-negative. */
  lemma SquareNonNeg(x: real)
    ensures 0.0 <= x * x
  {
  }

  function Min(a: real, b: real): (r: real)
    ensures r <= a && r <= b && (r == a || r == b)
  {
    if a <= b then a else b
  }

  function Max(a: real, b: real): (r: real)
    ensures a <= r && b <= r && (r == a || r == b)
  {
    if a <= b then b else a
  }

  function Abs(x: real): (r: real)
    ensures 0.0 <= r && (r == x || r == -x)
  {
    if x < 0.0 then -x else x
  }
}
