/** A voice of the VST engine (src/synth/voice.rs): note on/off effects on the
    voice's fields, its oscillator banks and envelopes, the glide of the
    current note, and the per-sample unison mix that generate adds into the
    output buffer.

    The envelopes of this engine live in src/synth/envelope.rs, which is not
    part of this model: a voice keeps only their stage, and gate_on, gate_off,
    is_idle and is_decaying are taken to act on it as those of
    src/envelope.rs do (Envelope.GateOffState). */
module SynthVoice {
  import opened Numerics
  import opened Unison
  import opened Smoothing
  import Oscillator
  import Envelope

  /** The observable fields of a voice, with the LFO's phase. */
  datatype VoiceView = VoiceView(
    targetNote: nat,
    note: real,
    bend: real,
    velocity: nat,
    startTime: real,
    osc1Count: nat,
    osc2Count: nat,
    ampStage: Envelope.State,
    filterStage: Envelope.State,
    lfoPhase: real)

  /** What note_on does to a voice: the note, velocity and time are stored, both
      banks are rebuilt with `unison` oscillators unless osc1 already has that
      many, both envelopes attack, and the LFO phase
      restarts only with lfoTrig. The current note and the bend are kept. */
  function NoteOnView(v: VoiceView, note: nat, velocity: nat, time: real, unison: nat, lfoTrig: bool): VoiceView
  {
    v.(targetNote := note, velocity := velocity, startTime := time,
       osc1Count := unison, osc2Count := if v.osc1Count == unison then v.osc2Count else unison,
       ampStage := Envelope.Attacking, filterStage := Envelope.Attacking,
       lfoPhase := if lfoTrig then 0.0 else v.lfoPhase)
  }

  /** What note_off does: both envelopes are gated off. */
  function NoteOffView(v: VoiceView): VoiceView
  {
    v.(ampStage := Envelope.GateOffState(v.ampStage), filterStage := Envelope.GateOffState(v.filterStage))
  }

  /** is_playing: the amp envelope is not idle. */
  predicate Playing(v: VoiceView)
  {
    v.ampStage != Envelope.Idle
  }

  /** A note-on always leaves the voice playing and keeps its glide state; a
      second identical note-on changes nothing more. */
  lemma NoteOnEffect(v: VoiceView, note: nat, velocity: nat, time: real, unison: nat, lfoTrig: bool)
    ensures Playing(NoteOnView(v, note, velocity, time, unison, lfoTrig))
    ensures NoteOnView(v, note, velocity, time, unison, lfoTrig).note == v.note
    ensures NoteOnView(NoteOnView(v, note, velocity, time, unison, lfoTrig), note, velocity, time, unison, lfoTrig)
      == NoteOnView(v, note, velocity, time, unison, lfoTrig)
  {
  }

  /** A note-off never starts a voice: an idle voice stays idle, a playing one
      stays playing (it releases), and a second note-off changes nothing more. */
  lemma NoteOffEffect(v: VoiceView)
    ensures Playing(NoteOffView(v)) <==> Playing(v)
    ensures Playing(v) ==> NoteOffView(v).ampStage == Envelope.Releasing
    ensures NoteOffView(NoteOffView(v)) == NoteOffView(v)
  {
  }

  /** The smoothed values a voice reads once per sample (all taken as given,
      see README): the two carriers' detune (osc1's including the LFO) and
      octave, the unison detune and the stereo spread. */
  datatype SampleParams = SampleParams(
    detune1: real,
    detune2: real,
    octave1: int,
    octave2: int,
    unisonDetune: real,
    spread: real)

  /** The parts of one generate call the model does not compute: the per-sample
      parameters, the pitch-to-frequency conversion of src/synth/midi.rs, the
      sample unison oscillator v of each carrier produces at sample i for a
      frequency, and the filter/amp-envelope/master chain that turns the mixed
      stereo sample i into the voice's output, given the key-tracking semitone,
      and the stages the amp and filter envelopes are in after the block's
      samples have advanced them. */
  datatype Block = Block(
    params: seq<SampleParams>,
    pitchToFreq: real -> real,
    osc1Out: (nat, nat, real) -> real,
    osc2Out: (nat, nat, real) -> real,
    chain: (nat, real, Stereo) -> Stereo,
    ampAfter: Envelope.State,
    filterAfter: Envelope.State)

  /** The portamento generate uses: 0 in poly mode (PolyMode discrete value 2),
      otherwise the parameter scaled to the sample rate. */
  function Portamento(polyMode: int, portamento: real, sampleRate: real): real
  {
    if polyMode == 2 then 0.0 else portamento * (sampleRate / 44100.0)
  }

  function Carrier1(b: Block, i: nat, bend: real, target: real, portamento: real): Carrier
    requires i < |b.params|
  {
    Carrier(b.osc1Out, i, b.pitchToFreq, b.params[i].detune1, b.params[i].unisonDetune,
      b.params[i].spread, b.params[i].octave1, bend, target, portamento)
  }

  function Carrier2(b: Block, i: nat, bend: real, target: real, portamento: real): Carrier
    requires i < |b.params|
  {
    Carrier(b.osc2Out, i, b.pitchToFreq, b.params[i].detune2, b.params[i].unisonDetune,
      b.params[i].spread, b.params[i].octave2, bend, target, portamento)
  }

  /** The stereo sample a voice produces at sample i when the note is `start`
      as the sample begins: the two carriers' unison mixes (the second carrier
      starting n glide updates later), summed and passed through the chain. */
  function SampleAt(b: Block, i: nat, n: nat, detunePattern: seq<real>, spreadPattern: seq<real>,
                    start: real, target: real, portamento: real, bend: real, key: real): Stereo
    requires i < |b.params| && n <= |detunePattern| && n <= |spreadPattern|
  {
    var m1 := CarrierMix(Carrier1(b, i, bend, target, portamento), detunePattern, spreadPattern, start, n, n);
    var m2 := CarrierMix(Carrier2(b, i, bend, target, portamento), detunePattern, spreadPattern,
      GlideN(start, target, portamento, n), n, n);
    b.chain(i, key, Sum2(m1, m2))
  }

  /** What one generate call's sample loop depends on: the block, the bank
      size n and its pattern tables, the note as the loop starts, the target
      note, the portamento, the bend and the key-tracking semitone. */
  datatype Render = Render(
    b: Block,
    n: nat,
    detunePattern: seq<real>,
    spreadPattern: seq<real>,
    note: real,
    target: real,
    portamento: real,
    bend: real,
    key: real)
  {
    /** The pattern tables cover the bank and the block covers `samples`. */
    predicate Covers(samples: nat)
    {
      samples <= |b.params| && n <= |detunePattern| && n <= |spreadPattern|
    }
  }

  /** The glide updates of i samples: 2 * n per sample (StepsCount). */
  function Steps(n: nat, i: nat): nat
  {
    if i == 0 then 0 else Steps(n, i - 1) + 2 * n
  }

  lemma {:induction false} StepsCount(n: nat, i: nat)
    ensures Steps(n, i) == 2 * n * i
  {
    if i > 0 {
      StepsCount(n, i - 1);
      assert 2 * n * i == 2 * n * (i - 1) + 2 * n;
    }
  }

  /** The loop inputs of a generate call on a bank of n oscillators, whose
      note was note0 before the key-tracking glide. */
  function BlockRender(b: Block, n: nat, note0: real, target: real, portamento: real, bend: real): (r: Render)
    requires n <= MaxUnison
    ensures r.b == b && r.n == n && r.Covers(|b.params|)
  {
    var start := Glide(note0, target, portamento);
    Render(b, n, DetunePattern(n), SpreadPattern(n), start, target, portamento, bend, start + bend + 0.0)
  }

  /** The stereo sample a voice adds at sample i of the loop: each sample
      glides once per unison oscillator of each carrier, so sample i starts
      from the note after 2 * n * i updates. */
  function VoiceSample(r: Render, i: nat): Stereo
    requires r.Covers(i + 1)
  {
    SampleAt(r.b, i, r.n, r.detunePattern, r.spreadPattern, GlideN(r.note, r.target, r.portamento, Steps(r.n, i)),
      r.target, r.portamento, r.bend, r.key)
  }

  /** The voice's samples over the first len samples of the loop. */
  function Samples(r: Render, len: nat): (ss: seq<Stereo>)
    requires r.Covers(len)
    ensures |ss| == len && forall j {:trigger VoiceSample(r, j)} :: 0 <= j < len ==> ss[j] == VoiceSample(r, j)
  {
    if len == 0 then [] else Samples(r, len - 1) + [VoiceSample(r, len - 1)]
  }

  /** Sample i glides the note n times for each carrier, which is
      Steps(n, i + 1) glides from the start of the loop. */
  lemma SampleGlide(r: Render, i: nat, start: real)
    requires start == GlideN(r.note, r.target, r.portamento, Steps(r.n, i))
    ensures GlideN(GlideN(start, r.target, r.portamento, r.n), r.target, r.portamento, r.n)
      == GlideN(r.note, r.target, r.portamento, Steps(r.n, i + 1))
  {
    GlideNAdd(start, r.target, r.portamento, r.n, r.n);
    GlideNAdd(r.note, r.target, r.portamento, Steps(r.n, i), 2 * r.n);
  }

  /** A fresh bank of n oscillators, as `(0..n).map(|_| Oscillator::new()).collect()`. */
  method NewBank(blep: Oscillator.Blep, n: nat) returns (bank: seq<Oscillator.Osc>)
    requires Oscillator.BlepValid(blep)
    ensures |bank| == n
    ensures forall v :: 0 <= v < n ==> fresh(bank[v]) && bank[v].blep == blep
  {
    bank := [];
    while |bank| < n
      invariant |bank| <= n
      invariant forall v :: 0 <= v < |bank| ==> fresh(bank[v]) && bank[v].blep == blep
      decreases n - |bank|
    {
      var osc := new Oscillator.Osc(blep);
      bank := bank + [osc];
    }
  }

  class Voice {
    const id: nat
    const blep: Oscillator.Blep
    var targetNote: nat
    var note: real
    var bend: real
    var velocity: nat
    var startTime: real
    var osc1: seq<Oscillator.Osc>
    var osc2: seq<Oscillator.Osc>
    const lfo: Oscillator.Osc
    var ampStage: Envelope.State
    var filterStage: Envelope.State

    ghost function View(): VoiceView
      reads this, lfo
    {
      VoiceView(targetNote, note, bend, velocity, startTime, |osc1|, |osc2|, ampStage, filterStage, lfo.phase)
    }

    /** The oscillators generate advances on every sample and the model does
        not follow: the LFO and both unison banks. Their sample values are
        inputs of a block. */
    ghost function Bank(): seq<Oscillator.Osc>
      reads this`osc1, this`osc2
    {
      [lfo] + osc1 + osc2
    }

    /** The correction buffers of those oscillators. */
    ghost function Buffers(): set<array<real>>
      reads this`osc1, this`osc2
    {
      set o | o in Bank() :: o.buffer
    }

    /** Voice::new: no oscillators yet, both envelopes idle. */
    constructor (id: nat, blep: Oscillator.Blep)
      requires Oscillator.BlepValid(blep)
      ensures this.id == id && this.blep == blep && fresh(lfo)
      ensures targetNote == 0 && note == 0.0 && bend == 0.0 && velocity == 0 && startTime == 0.0
      ensures osc1 == [] && osc2 == []
      ensures ampStage == Envelope.Idle && filterStage == Envelope.Idle
    {
      this.id := id;
      this.blep := blep;
      targetNote := 0;
      note := 0.0;
      bend := 0.0;
      velocity := 0;
      startTime := 0.0;
      osc1 := [];
      osc2 := [];
      lfo := new Oscillator.Osc(blep);
      ampStage := Envelope.Idle;
      filterStage := Envelope.Idle;
    }

    /** note_on: the banks are rebuilt only when their size differs from
        `unison`, so equal-size banks keep their oscillators (phase and pending
        corrections included). */
    method NoteOn(note: nat, velocity: nat, time: real, unison: nat, lfoTrig: bool)
      requires Oscillator.BlepValid(blep)
      modifies this, lfo
      ensures View() == NoteOnView(old(View()), note, velocity, time, unison, lfoTrig)
      ensures old(|osc1|) == unison ==> osc1 == old(osc1) && osc2 == old(osc2)
      ensures old(|osc1|) != unison ==> forall v :: 0 <= v < unison ==> fresh(osc1[v]) && fresh(osc2[v])
    {
      if |osc1| != unison {
        osc1 := NewBank(blep, unison);
        osc2 := NewBank(blep, unison);
      }
      targetNote := note;
      if lfoTrig {
        lfo.Trig();
      }
      this.velocity := velocity;
      startTime := time;
      ampStage := Envelope.Attacking;
      filterStage := Envelope.Attacking;
    }

    /** note_off: both envelopes are gated off. */
    method NoteOff()
      modifies this`ampStage, this`filterStage
      ensures ampStage == Envelope.GateOffState(old(ampStage))
      ensures filterStage == Envelope.GateOffState(old(filterStage))
    {
      ampStage := Envelope.GateOffState(ampStage);
      filterStage := Envelope.GateOffState(filterStage);
    }

    /** is_playing: a voice is playing exactly when note_off would leave it
        releasing. */
    predicate IsPlaying()
      reads this
      ensures IsPlaying() <==> Envelope.GateOffState(ampStage) == Envelope.Releasing
    {
      ampStage != Envelope.Idle
    }

    /** amp_envelope.is_decaying(). */
    predicate IsDecaying()
      reads this
    {
      ampStage == Envelope.Decaying
    }

    /** get_oscillator_semitone: one glide update of the note, returning the
        note plus bend plus detune. */
    method GetOscillatorSemitone(detune: real, portamento: real) returns (r: real)
      modifies this`note
      ensures note == Glide(old(note), targetNote as real, portamento)
      ensures r == note + bend + detune
    {
      if portamento <= 0.0 {
        note := targetNote as real;
      } else {
        note := note + (targetNote as real - note) * 1.0 / (100.0 * portamento);
      }
      r := note + bend + detune;
    }

    /** frequncy: the glided semitone converted to a frequency, times 2^octave. */
    method Frequncy(pitchToFreq: real -> real, detune: real, octave: int, portamento: real) returns (f: real)
      modifies this`note
      ensures note == Glide(old(note), targetNote as real, portamento)
      ensures f == OctaveFrequency(pitchToFreq, note + bend + detune, octave)
    {
      var semitone := GetOscillatorSemitone(detune, portamento);
      var octaveMultiplier := Pow2(octave);
      f := pitchToFreq(semitone) * octaveMultiplier;
    }

    /** One carrier's unison loop of generate: n frequncy calls (n glide
        updates) and the stereo mix of the n samples. */
    method MixCarrier(c: Carrier, detunePattern: seq<real>, spreadPattern: seq<real>, n: nat) returns (mix: Stereo)
      requires n <= |detunePattern| && n <= |spreadPattern|
      requires c.target == targetNote as real && c.bend == bend
      modifies this`note, Bank(), Buffers()
      ensures note == GlideN(old(note), c.target, c.portamento, n)
      ensures mix == CarrierMix(c, detunePattern, spreadPattern, old(note), n, n)
    {
      ghost var note0 := note;
      mix := Stereo(0.0, 0.0);
      for v := 0 to n
        invariant note == GlideN(note0, c.target, c.portamento, v)
        invariant mix == CarrierMix(c, detunePattern, spreadPattern, note0, n, v)
      {
        var detune := Detuned(c.detune, detunePattern[v], c.unisonDetune, bend);
        var f := Frequncy(c.pitchToFreq, detune, c.octave, c.portamento);
        var monoSample := c.out(c.sample, v, f);
        mix := Accumulate(mix, monoSample, n, c.spread, spreadPattern[v]);
      }
    }

    /** generate over `samples` samples: the bend and the portamento are read
        from their cells, the note glides once for key tracking and then
        2 * n times per sample (n = the bank size, at most 7, as the pattern
        tables require), and each sample's voice output is added to out0[i] and
        out1[i] for i < samples; nothing else in the buffers changes. */
    method Generate(b: Block, samples: nat, ghost cells: seq<Smoothed>, bendState: Smoothed, polyState: Smoothed, portaState: Smoothed,
                    sampleRate: real, out0: array<real>, out1: array<real>) returns (ghost r: Render)
      requires samples <= |b.params| && samples <= out0.Length && samples <= out1.Length && out0 != out1
      requires out0 !in Buffers() && out1 !in Buffers()
      requires |osc1| <= MaxUnison
      requires bendState != portaState
      modifies this`note, this`bend, this`ampStage, this`filterStage, cells`state, bendState`state, portaState`state
      modifies Bank(), Buffers(), out0, out1
      ensures ampStage == b.ampAfter && filterStage == b.filterAfter
      ensures bend == SmoothStep(old(bendState.state), bendState.target) && bendState.state == bend
      ensures Discrete(polyState.target) == 2 ==> portaState.state == old(portaState.state)
      ensures Discrete(polyState.target) != 2 ==> portaState.state == SmoothStep(old(portaState.state), portaState.target)
      ensures r == BlockRender(b, old(|osc1|), old(note), old(targetNote) as real,
                               Portamento(Discrete(polyState.target), SmoothStep(old(portaState.state), portaState.target), sampleRate),
                               SmoothStep(old(bendState.state), bendState.target))
      ensures r.Covers(samples) && note == GlideN(r.note, r.target, r.portamento, Steps(r.n, samples))
      ensures forall i :: 0 <= i < samples ==>
        out0[i] == old(out0[i]) + Samples(r, samples)[i].left && out1[i] == old(out1[i]) + Samples(r, samples)[i].right
      ensures forall i :: samples <= i < out0.Length ==> out0[i] == old(out0[i])
      ensures forall i :: samples <= i < out1.Length ==> out1[i] == old(out1[i])
    {
      var portamento := ReadShared(bendState, polyState, portaState, sampleRate);
      r := RenderBlock(b, samples, portamento, out0, out1);
    }

    /** The rest of generate, once the portamento is known: the key-tracking
        glide, the pattern tables, the sample loop and the envelope stages the
        block ends in. */
    method RenderBlock(b: Block, samples: nat, portamento: real, out0: array<real>, out1: array<real>) returns (ghost r: Render)
      requires samples <= |b.params| && samples <= out0.Length && samples <= out1.Length && out0 != out1
      requires out0 !in Buffers() && out1 !in Buffers()
      requires |osc1| <= MaxUnison
      modifies this`note, this`ampStage, this`filterStage, Bank(), Buffers(), out0, out1
      ensures ampStage == b.ampAfter && filterStage == b.filterAfter
      ensures r == BlockRender(b, |osc1|, old(note), targetNote as real, portamento, bend)
      ensures r.Covers(samples) && note == GlideN(r.note, r.target, r.portamento, Steps(r.n, samples))
      ensures forall i :: 0 <= i < samples ==>
        out0[i] == old(out0[i]) + Samples(r, samples)[i].left && out1[i] == old(out1[i]) + Samples(r, samples)[i].right
      ensures forall i :: samples <= i < out0.Length ==> out0[i] == old(out0[i])
      ensures forall i :: samples <= i < out1.Length ==> out1[i] == old(out1[i])
    {
      ghost var note0 := note;
      var key := GetOscillatorSemitone(0.0, portamento);
      var nvoices := |osc1|;
      var detunePattern := DetunePattern(nvoices);
      var spreadPattern := SpreadPattern(nvoices);
      var rr := Render(b, nvoices, detunePattern, spreadPattern, note, targetNote as real, portamento, bend, key);
      assert rr == BlockRender(b, nvoices, note0, targetNote as real, portamento, bend);
      r := rr;
      GenerateLoop(rr, samples, out0, out1);
      ampStage, filterStage := b.ampAfter, b.filterAfter;
    }

    /** The start of generate: the bend cell is read into the voice, the poly
        mode is looked up, and outside poly mode 2 the portamento cell is read
        and scaled to the sample rate. */
    method ReadShared(bendState: Smoothed, polyState: Smoothed, portaState: Smoothed, sampleRate: real) returns (portamento: real)
      requires bendState != portaState
      modifies this`bend, bendState`state, portaState`state
      ensures bend == SmoothStep(old(bendState.state), bendState.target) && bendState.state == bend
      ensures Discrete(polyState.target) == 2 ==> portaState.state == old(portaState.state)
      ensures Discrete(polyState.target) != 2 ==> portaState.state == SmoothStep(old(portaState.state), portaState.target)
      ensures portamento == Portamento(Discrete(polyState.target), SmoothStep(old(portaState.state), portaState.target), sampleRate)
    {
      bend := bendState.Get();
      var polyMode := polyState.GetDiscrete();
      if polyMode == 2 {
        portamento := 0.0;
      } else {
        var p := portaState.Get();
        portamento := p * (sampleRate / 44100.0);
      }
    }

    /** The sample loop of generate, from the note after the key-tracking glide. */
    method GenerateLoop(r: Render, samples: nat, out0: array<real>, out1: array<real>)
      requires r.Covers(samples) && samples <= out0.Length && samples <= out1.Length && out0 != out1
      requires out0 !in Buffers() && out1 !in Buffers()
      requires r.note == note && r.target == targetNote as real && r.bend == bend
      modifies this`note, Bank(), Buffers(), out0, out1
      ensures note == GlideN(r.note, r.target, r.portamento, Steps(r.n, samples))
      ensures forall i :: 0 <= i < samples ==>
        out0[i] == old(out0[i]) + Samples(r, samples)[i].left && out1[i] == old(out1[i]) + Samples(r, samples)[i].right
      ensures forall i :: samples <= i < out0.Length ==> out0[i] == old(out0[i])
      ensures forall i :: samples <= i < out1.Length ==> out1[i] == old(out1[i])
    {
      ghost var ss := Samples(r, samples);
      for i := 0 to samples
        invariant note == GlideN(r.note, r.target, r.portamento, Steps(r.n, i))
        invariant forall j :: 0 <= j < i ==>
          out0[j] == old(out0[j]) + ss[j].left && out1[j] == old(out1[j]) + ss[j].right
        invariant forall j :: i <= j < out0.Length ==> out0[j] == old(out0[j])
        invariant forall j :: i <= j < out1.Length ==> out1[j] == old(out1[j])
      {
        var s := RenderSample(r, i);
        out0[i] := out0[i] + s.left;
        out1[i] := out1[i] + s.right;
      }
    }

    /** One sample of generate: both carriers' unison loops, the sum and the chain. */
    method RenderSample(r: Render, i: nat) returns (s: Stereo)
      requires r.Covers(i + 1) && r.target == targetNote as real && r.bend == bend
      requires note == GlideN(r.note, r.target, r.portamento, Steps(r.n, i))
      modifies this`note, Bank(), Buffers()
      ensures note == GlideN(r.note, r.target, r.portamento, Steps(r.n, i + 1))
      ensures s == VoiceSample(r, i)
    {
      ghost var start := note;
      var c1 := Carrier1(r.b, i, bend, targetNote as real, r.portamento);
      var m1 := MixCarrier(c1, r.detunePattern, r.spreadPattern, r.n);
      var c2 := Carrier2(r.b, i, bend, targetNote as real, r.portamento);
      var m2 := MixCarrier(c2, r.detunePattern, r.spreadPattern, r.n);
      s := r.b.chain(i, r.key, Sum2(m1, m2));
      SampleGlide(r, i, start);
    }
  }
}
