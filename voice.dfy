/** A voice of the nih-plug engine (src/voice.rs): its two fixed banks of
    MAX_UNISON oscillators, note on/off, the envelope-change mask the voices
    share, the octave table, the glide of the current note, and the per-sample
    unison mix that generate adds into the block range of the output buffer.

    src/oscillator.rs is not part of this model: an oscillator is reduced to
    its phase, set_phase and trig are taken to set it to the argument and to 0,
    and the samples the oscillators produce in generate are inputs. */
module NihVoice {
  import opened Numerics
  import opened Unison
  import Envelope
  import Huovilainen
  import Midi

  /** An oscillator of src/oscillator.rs, reduced to its phase. */
  class PhaseOscillator {
    var phase: real

    /** Oscillator::new, with the initial phase it picks given as an input. */
    constructor (phase: real)
      ensures this.phase == phase
    {
      this.phase := phase;
    }

    method SetPhase(phase: real)
      modifies this
      ensures this.phase == phase
    {
      this.phase := phase;
    }

    method Trig()
      modifies this
      ensures phase == 0.0
    {
      phase := 0.0;
    }
  }

  /** A bank of fresh, distinct oscillators with the given initial phases. */
  method NewBank(phases: seq<real>) returns (bank: seq<PhaseOscillator>)
    ensures |bank| == |phases|
    ensures forall v :: 0 <= v < |bank| ==> fresh(bank[v]) && bank[v].phase == phases[v]
    ensures forall a, c :: 0 <= a < c < |bank| ==> bank[a] != bank[c]
  {
    bank := [];
    for k := 0 to |phases|
      invariant |bank| == k
      invariant forall v :: 0 <= v < k ==> fresh(bank[v]) && bank[v].phase == phases[v]
      invariant forall a, c :: 0 <= a < c < k ==> bank[a] != bank[c]
    {
      var osc := new PhaseOscillator(phases[k]);
      bank := bank + [osc];
    }
  }

  /** The bit positions of a u16. A u16 mask is modelled as the set of the
      positions of its 1 bits: `a & b` is intersection and `!a` the
      complement within these sixteen positions. */
  const U16Bits: set<nat> := set k: nat | k < 16

  /** `!mask` on a u16. */
  function Not(mask: set<nat>): set<nat>
  {
    U16Bits - mask
  }

  /** The envelope-change mask shared by the voices (an AtomicU16): bit id is
      set when the envelope parameters have changed and voice id has not yet
      picked them up. */
  class EnvChange {
    var bits: set<nat>

    constructor (bits: set<nat>)
      requires bits <= U16Bits
      ensures this.bits == bits
    {
      this.bits := bits;
    }

    /** fetch_and, as a sequential read-modify-write: the old mask is returned. */
    method FetchAnd(mask: set<nat>) returns (prev: set<nat>)
      modifies this
      ensures prev == old(bits) && bits == old(bits) * mask
    {
      prev := bits;
      bits := bits * mask;
    }
  }

  /** `1u16 << id`: the bit of voice id in the mask. */
  function EnvBit(id: nat): set<nat>
    requires id < 16
  {
    {id}
  }

  /** Whether voice id's bit is set in the mask: `bits & bit == bit`. */
  predicate BitSet(bits: set<nat>, id: nat)
    requires id < 16
  {
    bits * EnvBit(id) == EnvBit(id)
  }

  /** The mask with voice id's bit cleared: `bits & !bit`. */
  function ClearBit(bits: set<nat>, id: nat): set<nat>
    requires id < 16
  {
    bits * Not(EnvBit(id))
  }

  /** The test `bits & bit == bit` holds exactly when voice id's bit is set. */
  lemma BitSetIsMember(bits: set<nat>, id: nat)
    requires id < 16
    ensures BitSet(bits, id) <==> id in bits
  {
    if id in bits {
      assert bits * {id} == {id};
    } else {
      assert id !in bits * {id};
    }
  }

  /** After clearing voice id's bit it is no longer set. */
  lemma EnvBitCleared(bits: set<nat>, id: nat)
    requires id < 16
    ensures !BitSet(ClearBit(bits, id), id)
  {
    BitSetIsMember(ClearBit(bits, id), id);
  }

  /** Clearing voice id's bit leaves every other voice's bit as it was, and
      no bit outside the mask's sixteen appears. */
  lemma EnvBitOthersKept(bits: set<nat>, id: nat, j: nat)
    requires id < 16 && j < 16 && j != id
    ensures BitSet(ClearBit(bits, id), j) == BitSet(bits, j)
  {
    BitSetIsMember(ClearBit(bits, id), j);
    BitSetIsMember(bits, j);
    assert j in U16Bits;
  }

  /** OCTIAVE_MULTIPLIER: the multipliers of octaves -2 ..= 2, from index 0. */
  const OctaveMultiplier: seq<real> := [0.25, 0.5, 1.0, 2.0, 4.0]

  /** `octave as usize + 2`, wrapping on 64 bits as a release build does. */
  function OctaveIndex(octave: int): nat
    requires I32Min <= octave <= I32Max
  {
    var sum := I32AsUsize(octave) + 2;
    if sum >= 0x1_0000_0000_0000_0000 then sum - 0x1_0000_0000_0000_0000 else sum
  }

  /** The table lookup is in bounds exactly for octaves -2 ..= 2, where the
      index is octave + 2. */
  lemma OctaveIndexInBounds(octave: int)
    requires I32Min <= octave <= I32Max
    ensures OctaveIndex(octave) < |OctaveMultiplier| <==> -2 <= octave <= 2
    ensures -2 <= octave <= 2 ==> OctaveIndex(octave) == octave + 2
  {
  }

  /** The entry for octave k, k in -2 ..= 2, is 2^k. */
  lemma OctaveTable(octave: int)
    requires -2 <= octave <= 2
    ensures OctaveMultiplier[octave + 2] == Pow2(octave)
  {
    assert Pow2(-1) == 0.5;
    assert Pow2(-2) == 0.25;
    assert Pow2(2) == 4.0;
  }

  /** The octave table's entry for an octave in -2 ..= 2: 2^octave. */
  function OctaveMultiplierOf(octave: int): (r: real)
    requires -2 <= octave <= 2
    ensures r == Pow2(octave)
  {
    OctaveIndexInBounds(octave);
    OctaveTable(octave);
    OctaveMultiplier[OctaveIndex(octave)]
  }

  /** midi_pitch_to_freq of src/midi.rs as a function value; a pitch of 2^31
      or more, where the program panics, gives 0 Hz here. */
  function PitchToFreq(m: Math): real -> real
  {
    x => var f := Midi.MidiPitchToFreq(m, x); if f.Some? then f.value else 0.0
  }

  /** The values generate reads per sample of the block from nih-plug's
      smoothers (next_block): each carrier's detune (osc1's with the LFO
      detune already added) and the master gain. */
  datatype SampleParams = SampleParams(detune1: real, detune2: real, master: real)

  /** What one generate call reads and does not compute: the per-sample values,
      the parameter values read once (poly mode, portamento, unison detune and
      stereo spread, the octaves, each envelope's attack, decay, sustain and
      release), the sample unison oscillator v of each carrier produces at
      sample i at a frequency (its amplitude, note amplitude times level,
      included), and the two ladder filters, which turn the mixed sample i into
      the filtered one given the key-tracking semitone and the filter
      envelope's level. */
  datatype Block = Block(
    params: seq<SampleParams>,
    polyMode: bool,
    portamento: real,
    unisonDetune: real,
    spread: real,
    octave1: int,
    octave2: int,
    ampAdsr: Envelope.Adsr,
    filterAdsr: Envelope.Adsr,
    osc1Out: (nat, nat, real) -> real,
    osc2Out: (nat, nat, real) -> real,
    filter: (nat, real, real, Stereo) -> Stereo)

  /** The portamento generate uses: 0 in poly mode, otherwise the parameter
      scaled to the sample rate. */
  function Portamento(polyMode: bool, portamento: real, sampleRate: real): real
  {
    if polyMode then 0.0 else portamento * (sampleRate / 44100.0)
  }

  /** An envelope's stage, level, gate-on time and segments. */
  datatype EnvPoint = EnvPoint(state: Envelope.State, level: real, startTime: Option<real>, segs: Envelope.Segments)

  function EnvOf(e: Envelope.AdsrEnvelope): EnvPoint
    reads e
  {
    EnvPoint(e.state, e.level, e.startTime, e.Segs())
  }

  /** The envelope after k calls of next from s. */
  function EnvAfter(s: EnvPoint, k: nat): EnvPoint
  {
    var a := Envelope.Run(s.state, s.level, s.segs, k);
    EnvPoint(a.0, a.1, Envelope.RunStartTime(s.state, a.0, s.startTime), s.segs)
  }

  /** One more call of next moves EnvAfter by one process step. */
  lemma EnvAfterStep(s: EnvPoint, k: nat)
    ensures var a := EnvAfter(s, k); var b := EnvAfter(s, k + 1);
      (b.state, b.level) == Envelope.Advance(a.state, a.level, s.segs)
      && b.startTime == (if a.state == Envelope.Releasing && b.state == Envelope.Idle then None else a.startTime)
      && b.segs == a.segs
  {
    Envelope.RunAppend(s.state, s.level, s.segs, k);
    Envelope.RunStartTimeStep(s.state, s.level, s.segs, k, s.startTime);
  }

  /** What one generate call's sample loop depends on: the math functions, the
      block, the unison count n and its pattern tables, the note as the block
      starts, the target note, the portamento, the bend and both envelopes as
      the block starts. */
  datatype Render = Render(
    pitchToFreq: real -> real,
    b: Block,
    n: nat,
    detunePattern: seq<real>,
    spreadPattern: seq<real>,
    note: real,
    target: real,
    portamento: real,
    bend: real,
    amp: EnvPoint,
    filt: EnvPoint)
  {
    /** The block covers `samples`, the pattern tables cover the unison count,
        and both octaves index the octave table. */
    predicate Covers(samples: nat)
    {
      samples <= |b.params| && n <= |detunePattern| && n <= |spreadPattern|
      && -2 <= b.octave1 <= 2 && -2 <= b.octave2 <= 2
    }
  }

  function Carrier1(r: Render, i: nat): Carrier
    requires i < |r.b.params|
  {
    Carrier(r.b.osc1Out, i, r.pitchToFreq, r.b.params[i].detune1, r.b.unisonDetune,
      r.b.spread, r.b.octave1, r.bend, r.target, r.portamento)
  }

  function Carrier2(r: Render, i: nat): Carrier
    requires i < |r.b.params|
  {
    Carrier(r.b.osc2Out, i, r.pitchToFreq, r.b.params[i].detune2, r.b.unisonDetune,
      r.b.spread, r.b.octave2, r.bend, r.target, r.portamento)
  }

  /** The glide updates of i samples: 1 + 2 * n per sample (SampleStepsCount). */
  function SampleSteps(n: nat, i: nat): nat
  {
    if i == 0 then 0 else SampleSteps(n, i - 1) + 1 + 2 * n
  }

  /** Each sample glides once for key tracking and once per unison oscillator
      of each carrier. */
  lemma {:induction false} SampleStepsCount(n: nat, i: nat)
    ensures SampleSteps(n, i) == (1 + 2 * n) * i
  {
    if i > 0 {
      SampleStepsCount(n, i - 1);
      assert (1 + 2 * n) * i == (1 + 2 * n) * (i - 1) + 1 + 2 * n;
    }
  }

  /** The mixed stereo sample i: key tracking glides the note once, then the
      two carriers' unison loops glide it n times each. */
  function MixAt(r: Render, i: nat): Stereo
    requires r.Covers(i + 1)
  {
    var key := Glide(GlideN(r.note, r.target, r.portamento, SampleSteps(r.n, i)), r.target, r.portamento);
    var m1 := CarrierMix(Carrier1(r, i), r.detunePattern, r.spreadPattern, key, r.n, r.n);
    var m2 := CarrierMix(Carrier2(r, i), r.detunePattern, r.spreadPattern,
      GlideN(key, r.target, r.portamento, r.n), r.n, r.n);
    Sum2(m1, m2)
  }

  /** Sample i glides the note once for the key and n times for each carrier,
      which is SampleSteps(n, i + 1) glides in all. */
  lemma SampleGlide(r: Render, i: nat, start: real)
    requires start == GlideN(r.note, r.target, r.portamento, SampleSteps(r.n, i))
    ensures GlideN(GlideN(Glide(start, r.target, r.portamento), r.target, r.portamento, r.n), r.target, r.portamento, r.n)
      == GlideN(r.note, r.target, r.portamento, SampleSteps(r.n, i + 1))
  {
    var key := Glide(start, r.target, r.portamento);
    assert key == GlideN(start, r.target, r.portamento, 1);
    GlideNAdd(key, r.target, r.portamento, r.n, r.n);
    GlideNAdd(start, r.target, r.portamento, 1, r.n + r.n);
    GlideNAdd(r.note, r.target, r.portamento, SampleSteps(r.n, i), 1 + (r.n + r.n));
  }

  /** The key-tracking semitone of sample i: the glided note plus the bend. */
  function KeyAt(r: Render, i: nat): real
  {
    Glide(GlideN(r.note, r.target, r.portamento, SampleSteps(r.n, i)), r.target, r.portamento) + r.bend + 0.0
  }

  /** The stereo sample the voice adds at sample i of the block: the mixed
      sample through the filters, times the amp envelope's level and the
      master gain, both envelopes having advanced i + 1 times. */
  function VoiceSample(r: Render, i: nat): Stereo
    requires r.Covers(i + 1)
  {
    var f := r.b.filter(i, KeyAt(r, i), EnvAfter(r.filt, i + 1).level, MixAt(r, i));
    var ampEnv := EnvAfter(r.amp, i + 1).level;
    var master := r.b.params[i].master;
    Stereo(Gain(f.left, ampEnv, master), Gain(f.right, ampEnv, master))
  }

  /** The voice's samples over the first len samples of the block. */
  function Samples(r: Render, len: nat): (ss: seq<Stereo>)
    requires r.Covers(len)
    ensures |ss| == len && forall j :: 0 <= j < len ==> ss[j] == VoiceSample(r, j)
  {
    if len == 0 then [] else Samples(r, len - 1) + [VoiceSample(r, len - 1)]
  }

  /** A filtered sample times the amp envelope's level and the master volume. */
  function Gain(x: real, ampEnv: real, master: real): real
  {
    x * ampEnv * master
  }

  /** The Render of a sample loop over a voice with unison count n whose note
      is note0 and whose envelopes are amp and filt as the loop begins. */
  function BlockRender(m: Math, b: Block, n: nat, note0: real, target: real, sampleRate: real,
                       amp: EnvPoint, filt: EnvPoint): (r: Render)
    requires n <= MaxUnison
    ensures |r.detunePattern| == n && |r.spreadPattern| == n
  {
    Render(PitchToFreq(m), b, n, DetunePattern(n), SpreadPattern(n), note0, target,
      Portamento(b.polyMode, b.portamento, sampleRate), 0.0, amp, filt)
  }

  /** An envelope after generate's parameter check: its segments are
      recomputed from p when `changed`; stage, level and gate-on time stay. */
  function Updated(e: EnvPoint, changed: bool, m: Math, sampleRate: real, p: Envelope.Adsr): EnvPoint
  {
    e.(segs := Segments(changed, m, sampleRate, p, e.segs))
  }

  /** The Render of a generate call on a voice with unison count n whose note
      is note0 and whose envelopes are amp and filt as the call begins, with
      the envelope parameters recomputed when `changed`. */
  function GenerateRender(m: Math, b: Block, n: nat, note0: real, target: real, sampleRate: real, changed: bool,
                          amp: EnvPoint, filt: EnvPoint): (r: Render)
    requires n <= MaxUnison
    ensures |r.detunePattern| == n && |r.spreadPattern| == n
  {
    BlockRender(m, b, n, note0, target, sampleRate,
      Updated(amp, changed, m, sampleRate, b.ampAdsr), Updated(filt, changed, m, sampleRate, b.filterAdsr))
  }

  /** An idle, silent amp envelope makes the voice add nothing. */
  lemma IdleVoiceIsSilent(r: Render, i: nat)
    requires r.Covers(i + 1) && r.amp.state == Envelope.Idle && r.amp.level == 0.0
    ensures VoiceSample(r, i) == Stereo(0.0, 0.0)
  {
    Envelope.RunFromIdle(0.0, r.amp.segs, i + 1);
  }

  /** In poly mode there is no glide: after a sample the note is the target. */
  lemma {:induction false} PolyModeSnaps(r: Render, k: nat)
    requires r.portamento == 0.0 && 0 < k
    ensures GlideN(r.note, r.target, r.portamento, k) == r.target
  {
  }

  /** With safe segments and a level in [0, 1] the envelope levels the voice
      scales by stay in [0, 1]. */
  lemma EnvLevelInUnit(s: EnvPoint, k: nat)
    requires Envelope.SegmentsSafe(s.segs) && 0.0 <= s.level <= 1.0
    ensures 0.0 <= EnvAfter(s, k).level <= 1.0
  {
    Envelope.RunKeepsLevelInUnit(s.state, s.level, s.segs, k);
  }

  class Voice {
    const sampleRate: real
    /** The DAW voice identifier, also the voice's bit in the mask. */
    const id: int
    var targetNote: nat
    var note: real
    var bend: real
    var velocity: nat
    var startTime: real
    var unison: nat
    const osc1: seq<PhaseOscillator>
    const osc2: seq<PhaseOscillator>
    const lfo: PhaseOscillator
    const filterL: Huovilainen.HuovilainenMoog
    const filterR: Huovilainen.HuovilainenMoog
    const envChange: EnvChange
    const ampEnvelope: Envelope.AdsrEnvelope
    const filterEnvelope: Envelope.AdsrEnvelope
    /** What generate advances on every sample and the model does not follow:
        the oscillators (their sample values are inputs of a block) and the two
        channel filters with their stage and delay arrays (their output is an
        input of a block). Advances says which objects these are. */
    ghost const oscillators: set<PhaseOscillator>
    ghost const filters: set<Huovilainen.HuovilainenMoog>
    ghost const filterArrays: set<array<real>>

    /** The banks hold MAX_UNISON oscillators each, all distinct from one
        another and from the LFO, and the two envelopes are distinct and keep
        the target ratios AdsrEnvelope::new gives them. */
    ghost predicate Valid()
    {
      && |osc1| == MaxUnison && |osc2| == MaxUnison
      && (forall a, c :: 0 <= a < c < MaxUnison ==> osc1[a] != osc1[c] && osc2[a] != osc2[c])
      && (forall a, c :: 0 <= a < MaxUnison && 0 <= c < MaxUnison ==> osc1[a] != osc2[c])
      && (forall a :: 0 <= a < MaxUnison ==> osc1[a] != lfo && osc2[a] != lfo)
      && EnvelopesValid()
    }

    /** oscillators, filters and filterArrays are the LFO and both banks,
        the two filters and their arrays; the constructor establishes it and,
        all of these being constants, it holds for the voice's lifetime. */
    ghost predicate Advances()
    {
      && oscillators == (set o | o in [lfo] + osc1 + osc2)
      && filters == {filterL, filterR}
      && filterArrays == {filterL.stage, filterL.stageTanh, filterL.delay, filterR.stage, filterR.stageTanh, filterR.delay}
    }

    /** The envelope part of Valid. */
    predicate EnvelopesValid()
    {
      && ampEnvelope != filterEnvelope
      && ampEnvelope.targetRatioA == Envelope.AttackTargetRatio
      && ampEnvelope.targetRatioDr == Envelope.DecayReleaseTargetRatio
      && filterEnvelope.targetRatioA == Envelope.AttackTargetRatio
      && filterEnvelope.targetRatioDr == Envelope.DecayReleaseTargetRatio
    }

    /** Voice::new: two banks of MAX_UNISON fresh oscillators, unison 1, both
        envelopes and filters new. `phases` holds the initial phases
        Oscillator::new picks: osc1's, osc2's, then the LFO's. */
    constructor (id: int, sampleRate: real, envChange: EnvChange, phases: seq<real>)
      requires |phases| == 2 * MaxUnison + 1
      ensures Valid() && Advances()
      ensures this.id == id && this.sampleRate == sampleRate && this.envChange == envChange
      ensures targetNote == 0 && note == 0.0 && bend == 0.0 && velocity == 0 && startTime == 0.0 && unison == 1
      ensures forall v :: 0 <= v < MaxUnison ==>
        fresh(osc1[v]) && osc1[v].phase == phases[v] && fresh(osc2[v]) && osc2[v].phase == phases[MaxUnison + v]
      ensures fresh(lfo) && lfo.phase == phases[2 * MaxUnison]
      ensures fresh(ampEnvelope) && fresh(filterEnvelope)
      ensures ampEnvelope.state == Envelope.Idle && ampEnvelope.level == 0.0 && ampEnvelope.voiceId == id
      ensures filterEnvelope.state == Envelope.Idle && filterEnvelope.level == 0.0 && filterEnvelope.voiceId == id
      ensures fresh(filterL) && fresh(filterR) && filterL.Valid() && filterR.Valid()
    {
      this.id := id;
      this.sampleRate := sampleRate;
      targetNote := 0;
      note := 0.0;
      bend := 0.0;
      velocity := 0;
      startTime := 0.0;
      unison := 1;
      var bank1 := NewBank(phases[..MaxUnison]);
      var bank2 := NewBank(phases[MaxUnison..2 * MaxUnison]);
      osc1 := bank1;
      osc2 := bank2;
      var lfo0 := new PhaseOscillator(phases[2 * MaxUnison]);
      var fl := new Huovilainen.HuovilainenMoog();
      var fr := new Huovilainen.HuovilainenMoog();
      lfo := lfo0;
      filterL := fl;
      filterR := fr;
      oscillators := set o | o in [lfo0] + bank1 + bank2;
      filters := {fl, fr};
      filterArrays := {fl.stage, fl.stageTanh, fl.delay, fr.stage, fr.stageTanh, fr.delay};
      this.envChange := envChange;
      ampEnvelope := new Envelope.AdsrEnvelope(id);
      filterEnvelope := new Envelope.AdsrEnvelope(id);
    }

    /** note_on: osc1's phases are set from startPhases (osc2 and the bank
        sizes are left alone), the note, unison count, velocity and time are
        stored, the LFO restarts only with lfoTrig, and both envelopes attack
        from their current level; `now` is the envelopes' Instant::now(). */
    method NoteOn(note: nat, velocity: nat, time: real, unison: nat, lfoTrig: bool, startPhases: seq<real>, now: real)
      requires Valid() && |startPhases| == MaxUnison
      modifies this`targetNote, this`unison, this`velocity, this`startTime, osc1, lfo
      modifies ampEnvelope`state, ampEnvelope`startTime, filterEnvelope`state, filterEnvelope`startTime
      ensures targetNote == note && this.unison == unison && this.velocity == velocity && startTime == time
      ensures forall v :: 0 <= v < MaxUnison ==> osc1[v].phase == startPhases[v]
      ensures forall v :: 0 <= v < MaxUnison ==> osc2[v].phase == old(osc2[v].phase)
      ensures lfo.phase == if lfoTrig then 0.0 else old(lfo.phase)
      ensures ampEnvelope.state == Envelope.Attacking && ampEnvelope.startTime == Some(now)
      ensures filterEnvelope.state == Envelope.Attacking && filterEnvelope.startTime == Some(now)
      ensures ampEnvelope.level == old(ampEnvelope.level) && filterEnvelope.level == old(filterEnvelope.level)
    {
      for i := 0 to MaxUnison
        invariant forall v :: 0 <= v < i ==> osc1[v].phase == startPhases[v]
        modifies osc1
      {
        osc1[i].SetPhase(startPhases[i]);
      }
      targetNote := note;
      if lfoTrig {
        lfo.Trig();
      }
      this.unison := unison;
      this.velocity := velocity;
      startTime := time;
      ampEnvelope.GateOn(now);
      filterEnvelope.GateOn(now);
    }

    /** note_off: both envelopes are gated off. */
    method NoteOff()
      requires Valid()
      modifies ampEnvelope`state, filterEnvelope`state
      ensures ampEnvelope.state == Envelope.GateOffState(old(ampEnvelope.state))
      ensures filterEnvelope.state == Envelope.GateOffState(old(filterEnvelope.state))
    {
      ampEnvelope.GateOff();
      filterEnvelope.GateOff();
    }

    /** is_playing: the amp envelope is not idle. A voice that is not
        playing stays silent: however many samples are rendered, its amp
        envelope keeps its stage, level and gate-on time. */
    predicate IsPlaying()
      reads ampEnvelope
      ensures !IsPlaying() ==> forall k :: EnvAfter(EnvOf(ampEnvelope), k) == EnvOf(ampEnvelope)
    {
      assert !ampEnvelope.IsIdle() || forall k :: EnvAfter(EnvOf(ampEnvelope), k) == EnvOf(ampEnvelope) by {
        if ampEnvelope.IsIdle() {
          forall k: nat
            ensures EnvAfter(EnvOf(ampEnvelope), k) == EnvOf(ampEnvelope)
          {
            Envelope.RunFromIdle(ampEnvelope.level, ampEnvelope.Segs(), k);
          }
        }
      }
      !ampEnvelope.IsIdle()
    }

    /** get_oscillator_semitone: one glide update of the note, returning the
        note plus bend plus detune. */
    method GetOscillatorSemitone(detune: real, portamento: real) returns (r: real)
      modifies this`note
      ensures note == Glide(old(note), targetNote as real, portamento)
      ensures r == note + bend + detune
    {
      if portamento <= 0.0 {
        note := targetNote as real;
      } else {
        note := note + (targetNote as real - note) * 1.0 / (100.0 * portamento);
      }
      r := note + bend + detune;
    }

    /** frequency: the glided semitone converted by midi_pitch_to_freq, times
        the octave table's multiplier, which is 2^octave; the table lookup
        needs the octave in -2 ..= 2. */
    method Frequency(pitchToFreq: real -> real, detune: real, octave: int, portamento: real) returns (f: real)
      requires -2 <= octave <= 2
      modifies this`note
      ensures note == Glide(old(note), targetNote as real, portamento)
      ensures f == OctaveFrequency(pitchToFreq, note + bend + detune, octave)
    {
      var octaveMultiplier := OctaveMultiplierOf(octave);
      var semitone := GetOscillatorSemitone(detune, portamento);
      f := pitchToFreq(semitone) * octaveMultiplier;
    }

    /** One carrier's unison loop of generate: n frequency calls (n glide
        updates) and the stereo mix of the n samples. */
    method MixCarrier(c: Carrier, detunePattern: seq<real>, spreadPattern: seq<real>, n: nat) returns (mix: Stereo)
      requires n <= |detunePattern| && n <= |spreadPattern| && -2 <= c.octave <= 2
      requires c.target == targetNote as real && c.bend == bend
      modifies this`note, oscillators
      ensures note == GlideN(old(note), c.target, c.portamento, n)
      ensures mix == CarrierMix(c, detunePattern, spreadPattern, old(note), n, n)
    {
      ghost var note0 := note;
      mix := Stereo(0.0, 0.0);
      for v := 0 to n
        invariant note == GlideN(note0, c.target, c.portamento, v)
        invariant mix == CarrierMix(c, detunePattern, spreadPattern, note0, n, v)
      {
        var detune := Detuned(c.detune, detunePattern[v], c.unisonDetune, bend);
        var f := Frequency(c.pitchToFreq, detune, c.octave, c.portamento);
        var monoSample := c.out(c.sample, v, f);
        mix := Accumulate(mix, monoSample, n, c.spread, spreadPattern[v]);
      }
    }

    /** generate over output[c][blockStart..blockEnd): the bend is reset to 0,
        voice id's bit is cleared in the shared mask and both envelopes'
        parameters are recomputed exactly when it was set, then every sample
        glides the note 1 + 2 * unison times, advances both envelopes once and
        adds the voice's sample into both channels at blockStart + i; nothing
        outside the block range changes. The block may not exceed
        MAX_BLOCK_SIZE (maxBlockSize, defined outside this model), the
        pattern tables need unison <= MAX_UNISON, and the shift needs id < 16. */
    method Generate(m: Math, b: Block, blockStart: nat, blockEnd: nat, maxBlockSize: nat,
                    out0: array<real>, out1: array<real>) returns (ghost changed: bool, ghost r: Render)
      requires EnvelopesValid()
      requires blockStart <= blockEnd && blockEnd - blockStart <= maxBlockSize && blockEnd - blockStart <= |b.params|
      requires blockEnd <= out0.Length && blockEnd <= out1.Length && out0 != out1
      requires unison <= MaxUnison && 0 <= id < 16
      requires -2 <= b.octave1 <= 2 && -2 <= b.octave2 <= 2
      requires out0 !in filterArrays && out1 !in filterArrays
      modifies this`note, this`bend, envChange, ampEnvelope, filterEnvelope, oscillators, filters, filterArrays, out0, out1
      ensures bend == 0.0
      ensures changed == BitSet(old(envChange.bits), id)
      ensures envChange.bits == ClearBit(old(envChange.bits), id)
      ensures ampEnvelope.params == (if changed then b.ampAdsr else old(ampEnvelope.params))
      ensures filterEnvelope.params == (if changed then b.filterAdsr else old(filterEnvelope.params))
      ensures r == GenerateRender(m, b, unison, old(note), targetNote as real, sampleRate, changed,
                                  old(EnvOf(ampEnvelope)), old(EnvOf(filterEnvelope)))
      ensures r.Covers(blockEnd - blockStart)
      ensures Rendered(r, blockEnd - blockStart)
      ensures AddedUpTo(Samples(r, blockEnd - blockStart), blockStart, blockEnd - blockStart, out0, out1, old(out0[..]), old(out1[..]))
    {
      changed := Prepare(m, b);
      r := RenderBlock(m, b, blockStart, blockEnd - blockStart, out0, out1);
    }

    /** Everything generate does after the parameter check: the unison
        patterns of the voice's count and the sample loop from its state. */
    method RenderBlock(m: Math, b: Block, blockStart: nat, len: nat, out0: array<real>, out1: array<real>)
      returns (ghost r: Render)
      requires ampEnvelope != filterEnvelope && bend == 0.0
      requires len <= |b.params| && blockStart + len <= out0.Length && blockStart + len <= out1.Length && out0 != out1
      requires unison <= MaxUnison && -2 <= b.octave1 <= 2 && -2 <= b.octave2 <= 2
      requires out0 !in filterArrays && out1 !in filterArrays
      modifies this`note, ampEnvelope`state, ampEnvelope`level, ampEnvelope`startTime
      modifies filterEnvelope`state, filterEnvelope`level, filterEnvelope`startTime
      modifies oscillators, filters, filterArrays, out0, out1
      ensures r == BlockRender(m, b, unison, old(note), targetNote as real, sampleRate,
                               old(EnvOf(ampEnvelope)), old(EnvOf(filterEnvelope)))
      ensures r.Covers(len)
      ensures Rendered(r, len) && AddedUpTo(Samples(r, len), blockStart, len, out0, out1, old(out0[..]), old(out1[..]))
    {
      var portamento := Portamento(b.polyMode, b.portamento, sampleRate);
      var nvoices := unison;
      var detunePattern := DetunePattern(nvoices);
      var spreadPattern := SpreadPattern(nvoices);
      var rr := Render(PitchToFreq(m), b, nvoices, detunePattern, spreadPattern, note, targetNote as real, portamento, bend,
                       EnvOf(ampEnvelope), EnvOf(filterEnvelope));
      r := rr;
      GenerateLoop(rr, blockStart, len, out0, out1);
    }

    /** What generate does before the sample loop: the bend is reset and the
        envelope parameters are checked. */
    method Prepare(m: Math, b: Block) returns (ghost changed: bool)
      requires EnvelopesValid() && 0 <= id < 16
      modifies this`bend, envChange, ampEnvelope, filterEnvelope
      ensures bend == 0.0
      ensures changed == BitSet(old(envChange.bits), id)
      ensures envChange.bits == ClearBit(old(envChange.bits), id)
      ensures ampEnvelope.params == (if changed then b.ampAdsr else old(ampEnvelope.params))
      ensures filterEnvelope.params == (if changed then b.filterAdsr else old(filterEnvelope.params))
      ensures EnvOf(ampEnvelope) == Updated(old(EnvOf(ampEnvelope)), changed, m, sampleRate, b.ampAdsr)
      ensures EnvOf(filterEnvelope) == Updated(old(EnvOf(filterEnvelope)), changed, m, sampleRate, b.filterAdsr)
    {
      bend := 0.0;
      changed := UpdateEnvelopes(m, b);
    }

    /** The envelope-parameter check of generate: voice id's bit is cleared in
        the shared mask, and both envelopes' parameters are recomputed exactly
        when it was set; their stage, level and gate-on time stay. */
    method UpdateEnvelopes(m: Math, b: Block) returns (ghost changed: bool)
      requires EnvelopesValid() && 0 <= id < 16
      modifies envChange, ampEnvelope, filterEnvelope
      ensures changed == BitSet(old(envChange.bits), id)
      ensures envChange.bits == ClearBit(old(envChange.bits), id)
      ensures ampEnvelope.params == (if changed then b.ampAdsr else old(ampEnvelope.params))
      ensures filterEnvelope.params == (if changed then b.filterAdsr else old(filterEnvelope.params))
      ensures EnvOf(ampEnvelope) == Updated(old(EnvOf(ampEnvelope)), changed, m, sampleRate, b.ampAdsr)
      ensures EnvOf(filterEnvelope) == Updated(old(EnvOf(filterEnvelope)), changed, m, sampleRate, b.filterAdsr)
    {
      var wasSet := TakeEnvChange();
      changed := wasSet;
      if wasSet {
        ampEnvelope.SetEnvelopeParameters(m, sampleRate, b.ampAdsr.attackRate, b.ampAdsr.decayRate,
          b.ampAdsr.sustainLevel, b.ampAdsr.releaseRate);
        filterEnvelope.SetEnvelopeParameters(m, sampleRate, b.filterAdsr.attackRate, b.filterAdsr.decayRate,
          b.filterAdsr.sustainLevel, b.filterAdsr.releaseRate);
      }
    }

    /** `env_change.fetch_and(!bit) & bit == bit`: voice id's bit is cleared,
        and the result says whether it was set. */
    method TakeEnvChange() returns (wasSet: bool)
      requires 0 <= id < 16
      modifies envChange
      ensures wasSet == BitSet(old(envChange.bits), id)
      ensures envChange.bits == ClearBit(old(envChange.bits), id)
    {
      var bit := EnvBit(id);
      var prev := envChange.FetchAnd(Not(bit));
      wasSet := prev * bit == bit;
    }

    /** The sample loop of generate. */
    method GenerateLoop(r: Render, blockStart: nat, len: nat, out0: array<real>, out1: array<real>)
      requires ampEnvelope != filterEnvelope && r.Covers(len) && blockStart + len <= out0.Length && blockStart + len <= out1.Length && out0 != out1
      requires r.note == note && r.target == targetNote as real && r.bend == bend
      requires r.amp == EnvOf(ampEnvelope) && r.filt == EnvOf(filterEnvelope)
      requires out0 !in filterArrays && out1 !in filterArrays
      modifies this`note, ampEnvelope`state, ampEnvelope`level, ampEnvelope`startTime
      modifies filterEnvelope`state, filterEnvelope`level, filterEnvelope`startTime
      modifies oscillators, filters, filterArrays, out0, out1
      ensures Rendered(r, len) && AddedUpTo(Samples(r, len), blockStart, len, out0, out1, old(out0[..]), old(out1[..]))
    {
      ghost var o0, o1 := out0[..], out1[..];
      ghost var ss := Samples(r, len);
      for i := 0 to len
        invariant Rendered(r, i) && AddedUpTo(ss, blockStart, i, out0, out1, o0, o1)
      {
        Step(r, ss, i, blockStart, out0, out1, o0, o1);
      }
    }

    /** One pass of the sample loop: sample i is rendered and added into both
        channels at blockStart + i. */
    method Step(r: Render, ghost ss: seq<Stereo>, i: nat, blockStart: nat, out0: array<real>, out1: array<real>,
                ghost o0: seq<real>, ghost o1: seq<real>)
      requires r.Covers(|ss|) && ss == Samples(r, |ss|) && i < |ss|
      requires Rendered(r, i) && AddedUpTo(ss, blockStart, i, out0, out1, o0, o1)
      requires blockStart + i < out0.Length && blockStart + i < out1.Length && out0 != out1
      requires out0 !in filterArrays && out1 !in filterArrays
      modifies this`note, ampEnvelope`state, ampEnvelope`level, ampEnvelope`startTime
      modifies filterEnvelope`state, filterEnvelope`level, filterEnvelope`startTime
      modifies oscillators, filters, filterArrays, out0, out1
      ensures Rendered(r, i + 1) && AddedUpTo(ss, blockStart, i + 1, out0, out1, o0, o1)
    {
      var s := RenderSample(r, i);
      AddSample(ss, i, blockStart, s, out0, out1, o0, o1);
    }

    /** The voice after i samples of the loop rendering r: the note has glided
        SampleSteps(n, i) times and both envelopes have advanced i times. */
    ghost predicate Rendered(r: Render, i: nat)
      reads this, ampEnvelope, filterEnvelope
    {
      && ampEnvelope != filterEnvelope && r.target == targetNote as real && r.bend == bend
      && note == GlideN(r.note, r.target, r.portamento, SampleSteps(r.n, i))
      && EnvOf(ampEnvelope) == EnvAfter(r.amp, i) && EnvOf(filterEnvelope) == EnvAfter(r.filt, i)
    }

    /** The first i samples of the block range hold what they held before
        (o0, o1) plus the voice's samples ss; every other cell holds what it held. */
    ghost predicate AddedUpTo(ss: seq<Stereo>, blockStart: nat, i: nat, out0: array<real>, out1: array<real>, o0: seq<real>, o1: seq<real>)
      reads out0, out1
    {
      && i <= |ss| && |o0| == out0.Length && |o1| == out1.Length
      && blockStart + i <= out0.Length && blockStart + i <= out1.Length
      && (forall j :: 0 <= j < i ==>
            out0[blockStart + j] == o0[blockStart + j] + ss[j].left && out1[blockStart + j] == o1[blockStart + j] + ss[j].right)
      && (forall j :: 0 <= j < out0.Length && !(blockStart <= j < blockStart + i) ==> out0[j] == o0[j])
      && (forall j :: 0 <= j < out1.Length && !(blockStart <= j < blockStart + i) ==> out1[j] == o1[j])
    }

    /** One sample of generate: the key-tracking glide, both carriers' unison
        loops, one step of each envelope, the filters, the amp envelope and
        the master gain. */
    method RenderSample(r: Render, i: nat) returns (s: Stereo)
      requires r.Covers(i + 1) && Rendered(r, i)
      modifies this`note, ampEnvelope`state, ampEnvelope`level, ampEnvelope`startTime
      modifies filterEnvelope`state, filterEnvelope`level, filterEnvelope`startTime
      modifies oscillators, filters, filterArrays
      ensures Rendered(r, i + 1)
      ensures s == VoiceSample(r, i)
    {
      var mix, key := MixSample(r, i);
      var ampEnv, filterEnv := StepEnvelopes(r, i);
      var f := r.b.filter(i, key, filterEnv, mix);
      var master := r.b.params[i].master;
      s := Stereo(Gain(f.left, ampEnv, master), Gain(f.right, ampEnv, master));
    }

    /** `output[c][block_start + i] += ...`: sample i of the voice is added
        into both channels at blockStart + i, so one more sample of the block
        range holds its old value plus the voice's sample. */
    method AddSample(ghost ss: seq<Stereo>, i: nat, blockStart: nat, s: Stereo, out0: array<real>, out1: array<real>,
                     ghost o0: seq<real>, ghost o1: seq<real>)
      requires i < |ss| && s == ss[i] && out0 != out1
      requires blockStart + i < out0.Length && blockStart + i < out1.Length
      requires AddedUpTo(ss, blockStart, i, out0, out1, o0, o1)
      modifies out0, out1
      ensures AddedUpTo(ss, blockStart, i + 1, out0, out1, o0, o1)
    {
      out0[blockStart + i] := out0[blockStart + i] + s.left;
      out1[blockStart + i] := out1[blockStart + i] + s.right;
    }

    /** The key-tracking glide and the two carriers' unison loops of sample i. */
    method MixSample(r: Render, i: nat) returns (mix: Stereo, key: real)
      requires r.Covers(i + 1) && r.target == targetNote as real && r.bend == bend
      requires note == GlideN(r.note, r.target, r.portamento, SampleSteps(r.n, i))
      modifies this`note, oscillators
      ensures note == GlideN(r.note, r.target, r.portamento, SampleSteps(r.n, i + 1))
      ensures mix == MixAt(r, i) && key == KeyAt(r, i)
    {
      ghost var start := note;
      key := GetOscillatorSemitone(0.0, r.portamento);
      var m1 := MixCarrier(Carrier1(r, i), r.detunePattern, r.spreadPattern, r.n);
      var m2 := MixCarrier(Carrier2(r, i), r.detunePattern, r.spreadPattern, r.n);
      mix := Sum2(m1, m2);
      SampleGlide(r, i, start);
    }

    /** One next call of each envelope, returning the amp and filter levels. */
    method StepEnvelopes(r: Render, i: nat) returns (ampEnv: real, filterEnv: real)
      requires ampEnvelope != filterEnvelope
      requires EnvOf(ampEnvelope) == EnvAfter(r.amp, i) && EnvOf(filterEnvelope) == EnvAfter(r.filt, i)
      modifies ampEnvelope`state, ampEnvelope`level, ampEnvelope`startTime
      modifies filterEnvelope`state, filterEnvelope`level, filterEnvelope`startTime
      ensures EnvOf(ampEnvelope) == EnvAfter(r.amp, i + 1) && EnvOf(filterEnvelope) == EnvAfter(r.filt, i + 1)
      ensures ampEnv == EnvAfter(r.amp, i + 1).level && filterEnv == EnvAfter(r.filt, i + 1).level
    {
      EnvAfterStep(r.amp, i);
      EnvAfterStep(r.filt, i);
      ampEnv := ampEnvelope.Next();
      filterEnv := filterEnvelope.Next();
    }
  }

  /** The segments an envelope runs with after generate's parameter check:
      recomputed from the parameters when the voice's bit was set, the old
      ones otherwise. */
  function Segments(changed: bool, m: Math, sampleRate: real, p: Envelope.Adsr, prev: Envelope.Segments): Envelope.Segments
  {
    if changed then Envelope.ComputedSegments(m, sampleRate, p, Envelope.AttackTargetRatio, Envelope.DecayReleaseTargetRatio) else prev
  }
}
