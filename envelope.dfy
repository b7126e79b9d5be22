/** The exponential ADSR envelope of the nih-plug engine (src/envelope.rs):
    a five-stage state machine whose level follows level := base + level * coeff
    in each moving stage, snapped exactly at the stage boundaries. */
module Envelope {
  import opened Numerics

  datatype State = Idle | Attacking | Decaying | Sustaining | Releasing

  /** The envelope's rate parameters, in seconds, and its sustain level. */
  datatype Adsr = Adsr(attackRate: real, decayRate: real, sustainLevel: real, releaseRate: real)

  /** The (base, coefficient) pair of each moving stage, with the sustain level
      that ends the decay stage: everything process reads besides state and level. */
  datatype Segments = Segments(
    attackBase: real, attackCoeff: real,
    decayBase: real, decayCoeff: real, sustain: real,
    releaseBase: real, releaseCoeff: real)

  const AttackTargetRatio: real := 0.1
  const DecayReleaseTargetRatio: real := 0.001

  /** calc_coeff: the per-sample coefficient of a stage lasting `rate` samples;
      0 for a non-positive rate, otherwise strictly inside (0, 1). */
  function CalcCoeff(m: Math, rate: real, targetRatio: real): (r: real)
    requires 0.0 < targetRatio
    ensures rate <= 0.0 ==> r == 0.0
    ensures ExpLnLaw(m) && 0.0 < rate ==> 0.0 < r < 1.0
  {
    if rate <= 0.0 then 0.0
    else
      var k := m.ln((1.0 + targetRatio) / targetRatio);
      assert ExpLnLaw(m) ==> 0.0 < k;
      m.exp(-k / rate)
  }

  /** A stage time in seconds as a number of samples. */
  function Samples(seconds: real, sampleRate: real): real
  {
    seconds * sampleRate
  }

  /** The level after one sample of a moving stage. */
  function Step(base: real, level: real, coeff: real): real
  {
    base + level * coeff
  }

  /** The segments set_envelope_parameters derives from the parameters. */
  function ComputedSegments(m: Math, sampleRate: real, p: Adsr, ratioA: real, ratioDr: real): Segments
    requires 0.0 < ratioA && 0.0 < ratioDr
  {
    var ac := CalcCoeff(m, Samples(p.attackRate, sampleRate), ratioA);
    var dc := CalcCoeff(m, Samples(p.decayRate, sampleRate), ratioDr);
    var rc := CalcCoeff(m, Samples(p.releaseRate, sampleRate), ratioDr);
    Segments((1.0 + ratioA) * (1.0 - ac), ac,
             (p.sustainLevel - ratioDr) * (1.0 - dc), dc, p.sustainLevel,
             -ratioDr * (1.0 - rc), rc)
  }

  /** The stage gate_off leaves: the three sounding stages release, Idle and
      Releasing stay as they are. */
  function GateOffState(s: State): State
  {
    match s
    case Attacking | Sustaining | Decaying => Releasing
    case _ => s
  }

  /** The only transition process may make from each stage. */
  function Following(s: State): State
  {
    match s
    case Attacking => Decaying
    case Decaying => Sustaining
    case Releasing => Idle
    case _ => s
  }

  /** One call of process: the new stage and level. Each call makes at most
      one transition, and Idle and Sustaining do not move. */
  function Advance(state: State, level: real, g: Segments): (r: (State, real))
    ensures r.0 == state || r.0 == Following(state)
    ensures (state == Idle || state == Sustaining) ==> r == (state, level)
  {
    match state
    case Attacking =>
      var v := Step(g.attackBase, level, g.attackCoeff);
      if v >= 1.0 then (Decaying, 1.0) else (Attacking, v)
    case Decaying =>
      var v := Step(g.decayBase, level, g.decayCoeff);
      if v <= g.sustain then (Sustaining, g.sustain) else (Decaying, v)
    case Releasing =>
      var v := Step(g.releaseBase, level, g.releaseCoeff);
      if v <= 0.0 then (Idle, 0.0) else (Releasing, v)
    case _ => (state, level)
  }

  /** n calls of process in a row. */
  function Run(state: State, level: real, g: Segments, n: nat): (State, real)
    decreases n
  {
    if n == 0 then (state, level)
    else
      var s := Advance(state, level, g);
      Run(s.0, s.1, g, n - 1)
  }

  /** The attack stage ends exactly when the new level reaches 1, snapped to 1. */
  lemma AttackBoundary(level: real, g: Segments)
    ensures var r := Advance(Attacking, level, g);
      && (r.0 == Decaying <==> Step(g.attackBase, level, g.attackCoeff) >= 1.0)
      && (r.0 == Decaying ==> r.1 == 1.0)
      && (r.0 == Attacking ==> r.1 == Step(g.attackBase, level, g.attackCoeff) < 1.0)
  {
  }

  /** The decay stage ends exactly when the level falls to the sustain level, snapped to it. */
  lemma DecayBoundary(level: real, g: Segments)
    ensures var r := Advance(Decaying, level, g);
      && (r.0 == Sustaining <==> Step(g.decayBase, level, g.decayCoeff) <= g.sustain)
      && (r.0 == Sustaining ==> r.1 == g.sustain)
      && (r.0 == Decaying ==> r.1 == Step(g.decayBase, level, g.decayCoeff) > g.sustain)
  {
  }

  /** The release stage ends exactly when the level falls to 0, snapped to 0. */
  lemma ReleaseBoundary(level: real, g: Segments)
    ensures var r := Advance(Releasing, level, g);
      && (r.0 == Idle <==> Step(g.releaseBase, level, g.releaseCoeff) <= 0.0)
      && (r.0 == Idle ==> r.1 == 0.0)
      && (r.0 == Releasing ==> r.1 == Step(g.releaseBase, level, g.releaseCoeff) > 0.0)
  {
  }

  /** Segments under which every stage maps a level in [0, 1] back into [0, 1]. */
  ghost predicate SegmentsSafe(g: Segments)
  {
    && 0.0 <= g.sustain <= 1.0
    && 0.0 <= g.attackCoeff <= 1.0 && 0.0 <= g.attackBase
    && 0.0 <= g.decayCoeff <= 1.0 && g.decayBase + g.decayCoeff <= 1.0
    && 0.0 <= g.releaseCoeff <= 1.0 && g.releaseBase + g.releaseCoeff <= 1.0
  }

  /** With safe segments one call of process keeps the level in [0, 1]. */
  lemma AdvanceKeepsLevelInUnit(state: State, level: real, g: Segments)
    requires SegmentsSafe(g) && 0.0 <= level <= 1.0
    ensures 0.0 <= Advance(state, level, g).1 <= 1.0
  {
    match state
    case Attacking =>
      ScaledBelow(level, g.attackCoeff, g.attackBase);
    case Decaying =>
      ScaledBelow(level, g.decayCoeff, g.decayBase);
    case Releasing =>
      ScaledBelow(level, g.releaseCoeff, g.releaseBase);
    case _ =>
  }

  /** A level in [0, 1] moves to base + level * c, between base and base + c. */
  lemma ScaledBelow(level: real, c: real, base: real)
    requires 0.0 <= level <= 1.0 && 0.0 <= c
    ensures base <= Step(base, level, c) <= base + c
  {
    assert c - level * c == (1.0 - level) * c;
  }

  /** ... and so does any number of calls. */
  lemma {:induction false} RunKeepsLevelInUnit(state: State, level: real, g: Segments, n: nat)
    requires SegmentsSafe(g) && 0.0 <= level <= 1.0
    ensures 0.0 <= Run(state, level, g, n).1 <= 1.0
    decreases n
  {
    if n > 0 {
      AdvanceKeepsLevelInUnit(state, level, g);
      var s := Advance(state, level, g);
      RunKeepsLevelInUnit(s.0, s.1, g, n - 1);
    }
  }

  /** Idle never moves, however many calls are made. */
  lemma {:induction false} RunFromIdle(level: real, g: Segments, n: nat)
    ensures Run(Idle, level, g, n) == (Idle, level)
    decreases n
  {
    if n > 0 {
      RunFromIdle(level, g, n - 1);
    }
  }

  /** One more call of process extends a run by one Advance. */
  lemma {:induction false} RunAppend(state: State, level: real, g: Segments, n: nat)
    ensures var a := Run(state, level, g, n); Run(state, level, g, n + 1) == Advance(a.0, a.1, g)
    decreases n
  {
    if n > 0 {
      var s := Advance(state, level, g);
      RunAppend(s.0, s.1, g, n - 1);
    }
  }

  /** The gate-on time after a run from `state` to `after`: process clears it
      exactly when the run has gone from a sounding stage to Idle. */
  function RunStartTime(state: State, after: State, t: Option<real>): Option<real>
  {
    if state != Idle && after == Idle then None else t
  }

  /** RunStartTime follows process's rule call by call: the time is cleared by
      the call that goes from Releasing to Idle and kept by every other. */
  lemma RunStartTimeStep(state: State, level: real, g: Segments, n: nat, t: Option<real>)
    ensures var a := Run(state, level, g, n); var b := Advance(a.0, a.1, g);
      RunStartTime(state, b.0, t) == if a.0 == Releasing && b.0 == Idle then None else RunStartTime(state, a.0, t)
  {
    if state == Idle {
      RunFromIdle(level, g, n);
    }
  }

  /** If every coefficient lies in [0, 1) and the sustain level in [0, 1], the
      computed segments are safe. */
  lemma ComputedSegmentsSafe(m: Math, sampleRate: real, p: Adsr)
    requires ExpLnLaw(m)
    requires 0.0 <= p.sustainLevel <= 1.0
    ensures SegmentsSafe(ComputedSegments(m, sampleRate, p, AttackTargetRatio, DecayReleaseTargetRatio))
  {
    var ac := CalcCoeff(m, Samples(p.attackRate, sampleRate), AttackTargetRatio);
    var dc := CalcCoeff(m, Samples(p.decayRate, sampleRate), DecayReleaseTargetRatio);
    var rc := CalcCoeff(m, Samples(p.releaseRate, sampleRate), DecayReleaseTargetRatio);
    DecayBaseBelow(p.sustainLevel, dc);
    assert ComputedSegments(m, sampleRate, p, AttackTargetRatio, DecayReleaseTargetRatio)
      == Segments((1.0 + AttackTargetRatio) * (1.0 - ac), ac,
                  (p.sustainLevel - DecayReleaseTargetRatio) * (1.0 - dc), dc, p.sustainLevel,
                  -DecayReleaseTargetRatio * (1.0 - rc), rc);
  }

  /** The decay base plus the decay coefficient stays at most 1. */
  lemma DecayBaseBelow(s: real, dc: real)
    requires 0.0 <= s <= 1.0 && 0.0 <= dc <= 1.0
    ensures (s - DecayReleaseTargetRatio) * (1.0 - dc) + dc <= 1.0
  {
    var t := s - DecayReleaseTargetRatio;
    assert 1.0 - ((t) * (1.0 - dc) + dc) == (1.0 - t) * (1.0 - dc);
  }

  /** A stage whose time is not positive ends in one call of process: attack
      reaches 1.1 and snaps to 1, decay reaches sustain - 0.001 and snaps to the
      sustain level, release reaches -0.001 and snaps to 0. */
  lemma ZeroTimeStagesEndInOneStep(m: Math, sampleRate: real, p: Adsr, level: real)
    ensures var g := ComputedSegments(m, sampleRate, p, AttackTargetRatio, DecayReleaseTargetRatio);
      && (Samples(p.attackRate, sampleRate) <= 0.0 ==> Advance(Attacking, level, g) == (Decaying, 1.0))
      && (Samples(p.decayRate, sampleRate) <= 0.0 ==> Advance(Decaying, level, g) == (Sustaining, p.sustainLevel))
      && (Samples(p.releaseRate, sampleRate) <= 0.0 ==> Advance(Releasing, level, g) == (Idle, 0.0))
  {
  }

  /** AdsrEnvelope: the stage, the level and the cached per-stage coefficients. */
  class AdsrEnvelope {
    const voiceId: int
    var state: State
    var level: real
    /** The gate-on time; Instant::now() is an input of gate_on. */
    var startTime: Option<real>
    var params: Adsr

    var attackCoeff: real
    var decayCoeff: real
    var releaseCoeff: real
    var attackBase: real
    var decayBase: real
    var releaseBase: real

    const targetRatioA: real
    const targetRatioDr: real

    /** The segments process reads. */
    function Segs(): Segments
      reads this
    {
      Segments(attackBase, attackCoeff, decayBase, decayCoeff, params.sustainLevel,
               releaseBase, releaseCoeff)
    }

    /** The level is in [0, 1] and stays there under process. */
    ghost predicate LevelBounded()
      reads this
    {
      0.0 <= level <= 1.0 && SegmentsSafe(Segs())
    }

    constructor (voiceId: int)
      ensures this.voiceId == voiceId
      ensures state == Idle && level == 0.0 && startTime == None
      ensures params == Adsr(0.0, 0.0, 0.0, 0.0)
      ensures attackCoeff == 0.0 && decayCoeff == 0.0 && releaseCoeff == 0.0
      ensures attackBase == 0.0 && decayBase == 0.0 && releaseBase == 0.0
      ensures targetRatioA == AttackTargetRatio && targetRatioDr == DecayReleaseTargetRatio
      ensures LevelBounded()
    {
      this.voiceId := voiceId;
      state := Idle;
      startTime := None;
      level := 0.0;
      params := Adsr(0.0, 0.0, 0.0, 0.0);
      attackCoeff, decayCoeff, releaseCoeff := 0.0, 0.0, 0.0;
      attackBase, decayBase, releaseBase := 0.0, 0.0, 0.0;
      targetRatioA := AttackTargetRatio;
      targetRatioDr := DecayReleaseTargetRatio;
    }

    /** set_envelope_parameters: store the parameters and recompute the three
        (base, coefficient) pairs; the stage and the level do not change. */
    method SetEnvelopeParameters(m: Math, sampleRate: real, attackRateSeconds: real,
                                 decayRateSeconds: real, sustainLevel: real, releaseRateSeconds: real)
      requires targetRatioA == AttackTargetRatio && targetRatioDr == DecayReleaseTargetRatio
      modifies this
      ensures params == Adsr(attackRateSeconds, decayRateSeconds, sustainLevel, releaseRateSeconds)
      ensures Segs() == ComputedSegments(m, sampleRate, params, targetRatioA, targetRatioDr)
      ensures state == old(state) && level == old(level) && startTime == old(startTime)
      ensures ExpLnLaw(m) && 0.0 <= sustainLevel <= 1.0 && 0.0 <= level <= 1.0 ==> LevelBounded()
    {
      params := Adsr(attackRateSeconds, decayRateSeconds, sustainLevel, releaseRateSeconds);
      var g := ComputedSegments(m, sampleRate, params, targetRatioA, targetRatioDr);
      attackCoeff, attackBase := g.attackCoeff, g.attackBase;
      decayCoeff, decayBase := g.decayCoeff, g.decayBase;
      releaseCoeff, releaseBase := g.releaseCoeff, g.releaseBase;
      if ExpLnLaw(m) && 0.0 <= sustainLevel <= 1.0 && 0.0 <= level <= 1.0 {
        ComputedSegmentsSafe(m, sampleRate, params);
      }
    }

    /** gate_on: from any stage to Attacking, keeping the level. */
    method GateOn(now: real)
      modifies this`startTime, this`state
      ensures state == Attacking && startTime == Some(now)
      ensures old(LevelBounded()) ==> LevelBounded()
    {
      startTime := Some(now);
      state := Attacking;
    }

    /** gate_off: the sounding stages release; Idle and Releasing are kept. */
    method GateOff()
      modifies this`state
      ensures state == GateOffState(old(state))
      ensures old(LevelBounded()) ==> LevelBounded()
    {
      match state {
        case Attacking | Sustaining | Decaying =>
          state := Releasing;
        case _ =>
      }
    }

    /** is_idle: process leaves an idle envelope exactly as it is. */
    predicate IsIdle()
      reads this
      ensures IsIdle() ==> Advance(state, level, Segs()) == (state, level)
    {
      state == Idle
    }

    /** is_decaying: the next call of process either keeps decaying or
        settles on the sustain level. */
    predicate IsDecaying()
      reads this
      ensures IsDecaying() ==> Advance(state, level, Segs()).0 in {Decaying, Sustaining}
    {
      state == Decaying
    }

    /** process: one step of the state machine; the gate-on time is cleared on
        reaching Idle. */
    method Process()
      modifies this`level, this`state, this`startTime
      ensures (state, level) == Advance(old(state), old(level), Segs())
      ensures startTime == if old(state) == Releasing && state == Idle then None else old(startTime)
      ensures old(LevelBounded()) ==> LevelBounded()
    {
      ghost var g := Segs();
      if LevelBounded() {
        AdvanceKeepsLevelInUnit(state, level, g);
      }
      match state {
        case Attacking =>
          level := Step(attackBase, level, attackCoeff);
          if level >= 1.0 {
            level := 1.0;
            state := Decaying;
          }
        case Decaying =>
          level := Step(decayBase, level, decayCoeff);
          if level <= params.sustainLevel {
            level := params.sustainLevel;
            state := Sustaining;
          }
        case Releasing =>
          level := Step(releaseBase, level, releaseCoeff);
          if level <= 0.0 {
            level := 0.0;
            state := Idle;
            startTime := None;
          }
        case _ =>
      }
      assert Segs() == g;
    }

    /** next: process, then return the new level. */
    method Next() returns (out: real)
      modifies this`level, this`state, this`startTime
      ensures (state, level) == Advance(old(state), old(level), Segs())
      ensures startTime == if old(state) == Releasing && state == Idle then None else old(startTime)
      ensures out == level
      ensures old(LevelBounded()) ==> LevelBounded()
    {
      Process();
      out := level;
    }
  }
}
