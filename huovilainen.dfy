/** The Huovilainen Moog ladder filter of the nih-plug engine (src/huovilainen.rs):
    coefficients cached on (cutoff, resonance), a rational tanh, and a
    four-stage update run twice per sample. The audio behaviour itself is not
    modelled; the arithmetic is exact and exp and sqrt are uninterpreted. */
module Huovilainen {
  import opened Numerics

  const Thermal: real := 0.000025

  /** f64::consts::PI. */
  const Pi: real := 3.141592653589793

  /** The odd polynomial tanh works on: x + 0.16489087 x^3 + 0.00985468 x^5. */
  function TanhPoly(x: real): real
  {
    var x2 := x * x;
    var x3 := x2 * x;
    var x5 := x3 * x2;
    x + 0.16489087 * x3 + 0.00985468 * x5
  }

  /** The rational tanh approximation: the quotient of the polynomial. */
  function Tanh(m: Math, x: real): (r: real)
    requires SqrtLaw(m)
    ensures -1.0 < r < 1.0
  {
    Quotient(m, TanhPoly(x))
  }

  /** a / sqrt(1 + a^2), which stays strictly inside (-1, 1). */
  function Quotient(m: Math, a: real): (r: real)
    requires SqrtLaw(m)
    ensures -1.0 < r < 1.0
  {
    SqrtOfOnePlusSquare(m, a);
    QuotientBelowOne(a, m.sqrt(1.0 + a * a));
    a / m.sqrt(1.0 + a * a)
  }

  /** sqrt(1 + a^2) is at least... positive, and its square exceeds a^2. */
  lemma SqrtOfOnePlusSquare(m: Math, a: real)
    requires SqrtLaw(m)
    ensures 0.0 < m.sqrt(1.0 + a * a)
    ensures a * a < m.sqrt(1.0 + a * a) * m.sqrt(1.0 + a * a)
  {
    var y := 1.0 + a * a;
    assert 0.0 <= a * a;
    assert 0.0 <= m.sqrt(y) && m.sqrt(y) * m.sqrt(y) == y;
  }

  /** The polynomial is odd. */
  lemma TanhPolyOdd(x: real)
    ensures TanhPoly(-x) == -TanhPoly(x)
  {
    var y := -x;
    assert y * y == x * x;
    assert (y * y) * y == -((x * x) * x);
    assert ((y * y) * y) * (y * y) == -(((x * x) * x) * (x * x));
  }

  /** The quotient is odd. */
  lemma QuotientOdd(m: Math, a: real)
    requires SqrtLaw(m)
    ensures Quotient(m, -a) == -Quotient(m, a)
  {
    assert (-a) * (-a) == a * a;
    SqrtOfOnePlusSquare(m, a);
  }

  /** tanh is odd and maps 0 to 0. */
  lemma TanhOdd(m: Math, x: real)
    requires SqrtLaw(m)
    ensures Tanh(m, -x) == -Tanh(m, x)
    ensures Tanh(m, 0.0) == 0.0
  {
    TanhPolyOdd(x);
    QuotientOdd(m, TanhPoly(x));
    assert TanhPoly(0.0) == 0.0;
  }

  /** If a^2 < d^2 with d > 0 then |a / d| < 1. */
  lemma QuotientBelowOne(a: real, d: real)
    requires 0.0 < d && a * a < d * d
    ensures -1.0 < a / d < 1.0
  {
    var b := Abs(a);
    assert b * b == a * a;
    assert (d - b) * (d + b) == d * d - b * b;
    PositiveFactor(d - b, d + b);
    var q := a / d;
    assert q * d == a;
    assert (1.0 - q) * d == d - a;
    assert (1.0 + q) * d == d + a;
    PositiveFactor(1.0 - q, d);
    PositiveFactor(1.0 + q, d);
  }

  /** The clamped cutoff as a fraction of the sample rate. */
  function CutoffFraction(cutoff: real, sampleRate: real): (fc: real)
    requires 0.0 < sampleRate
    ensures 0.0 <= fc <= 0.5
  {
    var total := Clamp(cutoff, 0.0, sampleRate / 2.0);
    var fc := total / sampleRate;
    assert fc * sampleRate == total;
    assert (0.5 - fc) * sampleRate == sampleRate / 2.0 - total;
    PositiveFactor(fc, sampleRate);
    PositiveFactor(0.5 - fc, sampleRate);
    fc
  }

  /** acr = -3.9364 fc^2 + 1.8409 fc + 0.9968. Over the clamped range of fc
      the resonance compensation stays in (0.93, 1.22). */
  function Acr(fc: real): (r: real)
    ensures 0.0 <= fc <= 0.5 ==> 0.93 < r < 1.22
  {
    assert 0.0 <= fc <= 0.5 ==> 0.93 < -3.9364 * (fc * fc) + 1.8409 * fc + 0.9968 < 1.22 by {
      if 0.0 <= fc <= 0.5 {
        MulNonNeg(fc, 0.5 - fc);
        assert fc * (0.5 - fc) == 0.5 * fc - fc * fc;
        var e := fc - 0.2338;
        SquareNonNeg(e);
        assert e * e == fc * fc - 0.4676 * fc + 0.2338 * 0.2338;
      }
    }
    -3.9364 * (fc * fc) + 1.8409 * fc + 0.9968
  }

  /** fcr = 1.8730 fc^3 + 0.4955 fc^2 - 0.6490 fc + 0.9988. Over the clamped
      range of fc the cutoff correction is above 0.6. */
  function Fcr(fc: real): (r: real)
    ensures 0.0 <= fc <= 0.5 ==> 0.6 < r
  {
    assert 0.0 <= fc <= 0.5 ==> 0.6 < 1.8730 * (fc * fc * fc) + 0.4955 * (fc * fc) - 0.6490 * fc + 0.9988 by {
      if 0.0 <= fc <= 0.5 {
        MulNonNeg(fc, fc);
        MulNonNeg(fc * fc, fc);
      }
    }
    1.8730 * (fc * fc * fc) + 0.4955 * (fc * fc) - 0.6490 * fc + 0.9988
  }

  /** tune = (1 - exp(-2 pi f fcr)) / THERMAL. A positive cutoff gives a tuning
      coefficient in (0, 1 / THERMAL). */
  function Tune(m: Math, fc: real): (r: real)
    ensures ExpLnLaw(m) && 0.0 < fc <= 0.5 ==> 0.0 < r < 1.0 / Thermal
  {
    assert ExpLnLaw(m) && 0.0 < fc <= 0.5 ==> 0.0 < m.exp(-Omega(fc)) < 1.0 by {
      if ExpLnLaw(m) && 0.0 < fc <= 0.5 {
        var f := fc * 0.5;
        var w := 2.0 * Pi * f;
        var c := Fcr(fc);
        assert 0.0 < w;
        MulNonNeg(w, c);
        assert w * c != 0.0;
        assert Omega(fc) == w * c;
      }
    }
    (1.0 - m.exp(-Omega(fc))) / Thermal
  }

  /** The exponent 2 pi f fcr with the oversampled f = fc / 2. */
  function Omega(fc: real): real
  {
    var f := fc * 0.5;
    2.0 * Pi * f * Fcr(fc)
  }

  /** res_quad = 4 resonance acr. */
  function ResQuad(resonance: real, acr: real): real
  {
    4.0 * resonance * acr
  }

  /** The cached coefficients and the (cutoff, resonance) pair they were computed for. */
  datatype Coeffs = Coeffs(tune: real, acr: real, resQuad: real, cutoff: real, resonance: real)

  /** compute_coeffs on a snapshot: nothing changes for the cached pair; any other
      pair recomputes the coefficients for the given sample rate and is cached. */
  function CacheStep(c: Coeffs, m: Math, cutoff: real, resonance: real, sampleRate: real): (r: Coeffs)
    requires 0.0 < sampleRate
    ensures r.cutoff == cutoff && r.resonance == resonance
  {
    if c.cutoff == cutoff && c.resonance == resonance then c
    else
      var fc := CutoffFraction(cutoff, sampleRate);
      var acr := Acr(fc);
      Coeffs(Tune(m, fc), acr, ResQuad(resonance, acr), cutoff, resonance)
  }

  /** The sample rate is not part of the cache key: once a pair is cached, a call
      with the same pair and any other rate keeps the stale coefficients. */
  lemma {:induction false} RateIsNotPartOfTheKey(c: Coeffs, m: Math, cutoff: real, resonance: real, sr1: real, sr2: real)
    requires 0.0 < sr1 && 0.0 < sr2
    ensures var c1 := CacheStep(c, m, cutoff, resonance, sr1);
      CacheStep(c1, m, cutoff, resonance, sr2) == c1
  {
  }

  /** A recomputation yields acr in range, res_quad = 4 resonance acr, and a tune in
      (0, 1 / THERMAL) whenever the clamped cutoff is positive. */
  lemma RecomputedCoeffsInRange(c: Coeffs, m: Math, cutoff: real, resonance: real, sr: real)
    requires 0.0 < sr && (c.cutoff != cutoff || c.resonance != resonance)
    ensures var r := CacheStep(c, m, cutoff, resonance, sr);
      && 0.93 < r.acr < 1.22
      && r.resQuad == 4.0 * resonance * r.acr
      && (0.0 < cutoff && ExpLnLaw(m) ==> 0.0 < r.tune < 1.0 / Thermal)
  {
    var fc := CutoffFraction(cutoff, sr);
    if 0.0 < cutoff && ExpLnLaw(m) {
      assert 0.0 < Clamp(cutoff, 0.0, sr / 2.0);
      assert fc * sr == Clamp(cutoff, 0.0, sr / 2.0);
      PositiveFactor(fc, sr);
    }
  }

  /** A new filter caches the pair (0, 0) with all coefficients 0, so a first call
      with cutoff 0 and resonance 0 leaves every coefficient at 0. */
  lemma FreshCacheSkipsZeroPair(m: Math, sr: real)
    requires 0.0 < sr
    ensures CacheStep(Coeffs(0.0, 0.0, 0.0, 0.0, 0.0), m, 0.0, 0.0, sr) == Coeffs(0.0, 0.0, 0.0, 0.0, 0.0)
  {
  }

  /** The stage, tanh and delay vectors of the ladder. */
  datatype Ladder = Ladder(stage: seq<real>, stageTanh: seq<real>, delay: seq<real>)

  predicate LadderShape(s: Ladder)
  {
    |s.stage| == 4 && |s.stageTanh| == 3 && |s.delay| == 6
  }

  /** delay + tune (a - b), the update of one stage. */
  function StageValue(delay: real, tune: real, a: real, b: real): real
  {
    delay + tune * (a - b)
  }

  /** The input of the first stage: the sample minus the resonance feedback. */
  function LadderInput(x: real, resQuad: real, d5: real): real
  {
    x - resQuad * d5
  }

  /** The compensating half-sample delay, (stage[3] + delay[4]) * 0.5. */
  function HalfDelay(s3: real, d4: real): real
  {
    (s3 + d4) * 0.5
  }

  /** Iteration k (1..3) of the inner loop. */
  function StageUpdate(m: Math, s: Ladder, tune: real, k: nat): (r: Ladder)
    requires SqrtLaw(m) && LadderShape(s) && 1 <= k <= 3
    ensures LadderShape(r)
  {
    var th := Tanh(m, s.stage[k - 1] * Thermal);
    var other := if k != 3 then s.stageTanh[k] else Tanh(m, s.delay[k] * Thermal);
    var v := StageValue(s.delay[k], tune, th, other);
    Ladder(s.stage[k := v], s.stageTanh[k - 1 := th], s.delay[k := v])
  }

  /** The ladder after iterations 1 .. k-1 of the inner loop. */
  function InnerUpTo(m: Math, s: Ladder, tune: real, k: nat): (r: Ladder)
    requires SqrtLaw(m) && LadderShape(s) && 1 <= k <= 4
    ensures LadderShape(r)
    decreases k
  {
    if k == 1 then s else StageUpdate(m, InnerUpTo(m, s, tune, k - 1), tune, k - 1)
  }

  /** The inner loop leaves delay[0], delay[4] and delay[5] alone. */
  lemma {:induction false} InnerKeepsOuterDelays(m: Math, s: Ladder, tune: real, k: nat)
    requires SqrtLaw(m) && LadderShape(s) && 1 <= k <= 4
    ensures var r := InnerUpTo(m, s, tune, k);
      r.delay[0] == s.delay[0] && r.delay[4] == s.delay[4] && r.delay[5] == s.delay[5]
    decreases k
  {
    if k > 1 {
      InnerKeepsOuterDelays(m, s, tune, k - 1);
    }
  }

  /** The first stage of a pass. */
  function FirstStage(m: Math, s: Ladder, tune: real, resQuad: real, x: real): (r: Ladder)
    requires SqrtLaw(m) && LadderShape(s)
    ensures LadderShape(r)
  {
    var input := LadderInput(x, resQuad, s.delay[5]);
    var v := StageValue(s.delay[0], tune, Tanh(m, input * Thermal), s.stageTanh[0]);
    s.(stage := s.stage[0 := v], delay := s.delay[0 := v])
  }

  /** The end of a pass: delay[5] := (stage[3] + delay[4]) / 2, delay[4] := stage[3]. */
  function Compensate(s: Ladder): (r: Ladder)
    requires LadderShape(s)
    ensures LadderShape(r)
  {
    var d := s.delay[5 := HalfDelay(s.stage[3], s.delay[4])];
    s.(delay := d[4 := s.stage[3]])
  }

  /** One oversampling pass. */
  function Pass(m: Math, s: Ladder, tune: real, resQuad: real, x: real): (r: Ladder)
    requires SqrtLaw(m) && LadderShape(s)
    ensures LadderShape(r)
  {
    Compensate(InnerUpTo(m, FirstStage(m, s, tune, resQuad, x), tune, 4))
  }

  /** The ladder after j passes. */
  function PassesUpTo(m: Math, s: Ladder, tune: real, resQuad: real, x: real, j: nat): (r: Ladder)
    requires SqrtLaw(m) && LadderShape(s)
    ensures LadderShape(r)
    decreases j
  {
    if j == 0 then s else Pass(m, PassesUpTo(m, s, tune, resQuad, x, j - 1), tune, resQuad, x)
  }

  /** Each pass sets delay[5] to the average of the new stage[3] and the delay[4]
      the pass started with, and then delay[4] to the new stage[3]. */
  lemma PassCompensates(m: Math, s: Ladder, tune: real, resQuad: real, x: real)
    requires SqrtLaw(m) && LadderShape(s)
    ensures var r := Pass(m, s, tune, resQuad, x);
      r.delay[5] == (r.stage[3] + s.delay[4]) * 0.5 && r.delay[4] == r.stage[3]
  {
    var s1 := FirstStage(m, s, tune, resQuad, x);
    InnerKeepsOuterDelays(m, s1, tune, 4);
  }

  function ZeroLadder(): Ladder
  {
    Ladder([0.0, 0.0, 0.0, 0.0], [0.0, 0.0, 0.0], [0.0, 0.0, 0.0, 0.0, 0.0, 0.0])
  }

  lemma ZeroStageUpdate(m: Math, tune: real, k: nat)
    requires SqrtLaw(m) && 1 <= k <= 3
    ensures StageUpdate(m, ZeroLadder(), tune, k) == ZeroLadder()
  {
    TanhOdd(m, 0.0);
    var z := ZeroLadder();
    assert StageValue(0.0, tune, 0.0, 0.0) == 0.0;
    assert z.stage[k := 0.0] == z.stage;
    assert z.stageTanh[k - 1 := 0.0] == z.stageTanh;
    assert z.delay[k := 0.0] == z.delay;
  }

  lemma {:induction false} ZeroInner(m: Math, tune: real, k: nat)
    requires SqrtLaw(m) && 1 <= k <= 4
    ensures InnerUpTo(m, ZeroLadder(), tune, k) == ZeroLadder()
    decreases k
  {
    if k > 1 {
      ZeroInner(m, tune, k - 1);
      ZeroStageUpdate(m, tune, k - 1);
    }
  }

  lemma ZeroPass(m: Math, tune: real, resQuad: real)
    requires SqrtLaw(m)
    ensures Pass(m, ZeroLadder(), tune, resQuad, 0.0) == ZeroLadder()
  {
    TanhOdd(m, 0.0);
    var z := ZeroLadder();
    assert LadderInput(0.0, resQuad, 0.0) == 0.0;
    assert StageValue(0.0, tune, 0.0, 0.0) == 0.0;
    assert z.stage[0 := 0.0] == z.stage;
    assert z.delay[0 := 0.0] == z.delay;
    assert FirstStage(m, z, tune, resQuad, 0.0) == z;
    ZeroInner(m, tune, 4);
    assert z.delay[5 := 0.0][4 := 0.0] == z.delay;
    assert Compensate(z) == z;
  }

  /** A ladder state that one pass leaves unchanged stays unchanged by any number of passes. */
  lemma {:induction false} FixedPointStays(m: Math, s: Ladder, tune: real, resQuad: real, x: real, j: nat)
    requires SqrtLaw(m) && LadderShape(s) && Pass(m, s, tune, resQuad, x) == s
    ensures PassesUpTo(m, s, tune, resQuad, x, j) == s
    decreases j
  {
    if j > 0 {
      FixedPointStays(m, s, tune, resQuad, x, j - 1);
    }
  }

  /** From the all-zero ladder a zero input leaves every value at 0. */
  lemma ZeroIsFixed(m: Math, tune: real, resQuad: real, j: nat)
    requires SqrtLaw(m)
    ensures PassesUpTo(m, ZeroLadder(), tune, resQuad, 0.0, j) == ZeroLadder()
  {
    ZeroPass(m, tune, resQuad);
    FixedPointStays(m, ZeroLadder(), tune, resQuad, 0.0, j);
  }

  /** HuovilainenMoog: the ladder arrays and the cached coefficients. */
  class HuovilainenMoog {
    const stage: array<real>
    const stageTanh: array<real>
    const delay: array<real>
    var tune: real
    var acr: real
    var resQuad: real
    var coeffCutoff: real
    var coeffResonance: real

    predicate Valid()
      reads this
    {
      stage.Length == 4 && stageTanh.Length == 3 && delay.Length == 6
      && stage != delay && stage != stageTanh && stageTanh != delay
    }

    ghost function Cache(): Coeffs
      reads this
    {
      Coeffs(tune, acr, resQuad, coeffCutoff, coeffResonance)
    }

    ghost function State(): Ladder
      reads this, stage, stageTanh, delay
    {
      Ladder(stage[..], stageTanh[..], delay[..])
    }

    /** new: every array and every cached value 0. */
    constructor ()
      ensures Valid() && fresh(stage) && fresh(stageTanh) && fresh(delay)
      ensures State() == ZeroLadder() && Cache() == Coeffs(0.0, 0.0, 0.0, 0.0, 0.0)
    {
      stage := new real[4](_ => 0.0);
      stageTanh := new real[3](_ => 0.0);
      delay := new real[6](_ => 0.0);
      tune, acr, resQuad := 0.0, 0.0, 0.0;
      coeffCutoff, coeffResonance := 0.0, 0.0;
      new;
      assert stage[..] == [0.0, 0.0, 0.0, 0.0];
      assert stageTanh[..] == [0.0, 0.0, 0.0];
      assert delay[..] == [0.0, 0.0, 0.0, 0.0, 0.0, 0.0];
    }

    /** compute_coeffs: recompute unless the (cutoff, resonance) pair is cached. */
    method ComputeCoeffs(m: Math, cutoff: real, resonance: real, sampleRate: real)
      requires 0.0 < sampleRate
      modifies this`tune, this`acr, this`resQuad, this`coeffCutoff, this`coeffResonance
      ensures Cache() == CacheStep(old(Cache()), m, cutoff, resonance, sampleRate)
    {
      if coeffCutoff == cutoff && coeffResonance == resonance {
        return;
      }
      var totalCutoff := Clamp(cutoff, 0.0, sampleRate / 2.0);
      var fc := totalCutoff / sampleRate;
      assert fc == CutoffFraction(cutoff, sampleRate);
      acr := Acr(fc);
      tune := Tune(m, fc);
      resQuad := ResQuad(resonance, acr);
      coeffCutoff := cutoff;
      coeffResonance := resonance;
    }

    /** One oversampling pass of process on the arrays. */
    method RunPass(m: Math, t: real, rq: real, inSample: real)
      requires Valid() && SqrtLaw(m)
      modifies stage, stageTanh, delay
      ensures State() == Pass(m, old(State()), t, rq, inSample)
    {
      ghost var s0 := State();
      var input := LadderInput(inSample, rq, delay[5]);
      stage[0] := StageValue(delay[0], t, Tanh(m, input * Thermal), stageTanh[0]);
      delay[0] := stage[0];
      assert State() == FirstStage(m, s0, t, rq, inSample);
      ghost var s1 := State();
      for k := 1 to 4
        invariant State() == InnerUpTo(m, s1, t, k)
      {
        RunStage(m, t, k);
      }
      ghost var s2 := State();
      delay[5] := HalfDelay(stage[3], delay[4]);
      delay[4] := stage[3];
      assert State() == Compensate(s2);
    }

    /** Iteration k of the inner stage loop. */
    method RunStage(m: Math, t: real, k: nat)
      requires Valid() && SqrtLaw(m) && 1 <= k <= 3
      modifies stage, stageTanh, delay
      ensures State() == StageUpdate(m, old(State()), t, k)
    {
      var input := stage[k - 1];
      stageTanh[k - 1] := Tanh(m, input * Thermal);
      stage[k] := StageValue(delay[k], t, stageTanh[k - 1],
                             if k != 3 then stageTanh[k] else Tanh(m, delay[k] * Thermal));
      delay[k] := stage[k];
    }

    /** process: update the coefficients, then run the ladder twice and return
        the half-sample-compensated output delay[5]. */
    method Process(m: Math, inSample: real, sampleRate: real, cutoff: real, resonance: real) returns (out: real)
      requires Valid() && SqrtLaw(m) && 0.0 < sampleRate
      modifies this`tune, this`acr, this`resQuad, this`coeffCutoff, this`coeffResonance
      modifies stage, stageTanh, delay
      ensures Cache() == CacheStep(old(Cache()), m, cutoff, resonance, sampleRate)
      ensures State() == PassesUpTo(m, old(State()), tune, resQuad, inSample, 2)
      ensures out == State().delay[5]
    {
      ComputeCoeffs(m, cutoff, resonance, sampleRate);
      var t, rq := tune, resQuad;
      ghost var s0 := State();
      for j := 0 to 2
        invariant State() == PassesUpTo(m, s0, t, rq, inSample, j)
        invariant Cache() == CacheStep(old(Cache()), m, cutoff, resonance, sampleRate)
        invariant t == tune && rq == resQuad
      {
        RunPass(m, t, rq, inSample);
      }
      out := delay[5];
    }
  }
}
