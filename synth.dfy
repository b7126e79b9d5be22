/** The VST engine (src/synth/mod.rs): a fixed pool of eight voices with
    note_on voice allocation and stealing, note_off by note number, the pitch
    bend conversion, and generate_audio, which clears the output and lets
    every playing voice add into it. The smoothed parameter cells are
    Smoothing.Smoothed. */
module Synth {
  import opened Numerics
  import opened Unison
  import opened Smoothing
  import Parameters
  import Envelope
  import Oscillator
  import SynthVoice

  /** POLYPHONY. */
  const Polyphony: nat := 8

  /** NUM_STATES: one cell per parameter, then STATE_BEND. */
  const NumStates: nat := 36
  const StateBend: nat := 35

  /** The cells note_on and generate read, at Param::index of their parameter. */
  const LfoKeyTrigState: nat := 24
  const UnisonVoicesState: nat := 30
  const PolyModeState: nat := 33
  const PortamentoState: nat := 34

  /** The state layout follows the parameter list: the constants above are the
      indices Param::index gives, and the bend cell comes after the last one. */
  lemma StateLayout()
    ensures NumStates == |Parameters.Params| + 1 && StateBend == NumStates - 1
    ensures Parameters.Index(Parameters.LfoKeyTrig) == LfoKeyTrigState
    ensures Parameters.Index(Parameters.UnisonVoices) == UnisonVoicesState
    ensures Parameters.Index(Parameters.PolyMode) == PolyModeState
    ensures Parameters.Index(Parameters.Portamento) == PortamentoState
  {
  }

  // ---------------------------------------------------------------------
  // Voice selection

  /** What note_on looks at in a voice: is_playing, amp_envelope.is_decaying
      and start_time. */
  datatype VoiceInfo = VoiceInfo(playing: bool, decaying: bool, startTime: real)

  /** The four running values of note_on's scan: the oldest playing voice and
      its time, the oldest decaying voice (if any) and its time. */
  datatype Scanned = Scanned(oldestPlaying: nat, playingTime: real, oldestDecaying: Option<nat>, decayingTime: real)

  /** The scan's initial values: voice 0, no decaying voice, both times f64::MAX. */
  const ScanStart: Scanned := Scanned(0, F64Max, None, F64Max)

  /** The scan's step for a playing voice i: each record moves to i only when
      i is strictly older, so ties keep the lower index. */
  function ScanStep(s: Scanned, i: nat, v: VoiceInfo): Scanned
  {
    var s1 := if v.decaying && v.startTime < s.decayingTime then s.(oldestDecaying := Some(i), decayingTime := v.startTime) else s;
    if v.startTime < s1.playingTime then s1.(oldestPlaying := i, playingTime := v.startTime) else s1
  }

  /** The scan over the first k voices. */
  function Scan(infos: seq<VoiceInfo>, k: nat): Scanned
    requires k <= |infos|
    decreases k
  {
    if k == 0 then ScanStart else ScanStep(Scan(infos, k - 1), k - 1, infos[k - 1])
  }

  /** The first voice at or after `from` that is not playing. */
  function FirstIdle(infos: seq<VoiceInfo>, from: nat): Option<nat>
    decreases |infos| - from
  {
    if from >= |infos| then None
    else if !infos[from].playing then Some(from)
    else FirstIdle(infos, from + 1)
  }

  /** The voice note_on gives the note: voice 0 in mono mode, otherwise the
      first idle voice, otherwise the scan's oldest decaying voice, otherwise
      its oldest playing voice. The choice is always one of the pool. */
  function Chosen(infos: seq<VoiceInfo>, mono: bool): (r: nat)
    ensures 0 < |infos| ==> r < |infos|
  {
    assert 0 < |infos| ==> FirstIdle(infos, 0).Some? ==> FirstIdle(infos, 0).value < |infos| by {
      FirstIdleIsLowest(infos, 0);
    }
    assert 0 < |infos| ==> Scan(infos, |infos|).oldestPlaying < |infos| by {
      if 0 < |infos| {
        ScanFindsOldest(infos, |infos|);
      }
    }
    assert Scan(infos, |infos|).oldestDecaying.Some? ==> Scan(infos, |infos|).oldestDecaying.value < |infos| by {
      ScanFindsOldestDecaying(infos, |infos|);
    }
    if mono then 0
    else match FirstIdle(infos, 0)
      case Some(i) => i
      case None =>
        var s := Scan(infos, |infos|);
        match s.oldestDecaying
          case Some(d) => d
          case None => s.oldestPlaying
  }

  /** FirstIdle finds an idle voice exactly when there is one, and it is the
      lowest-index one. */
  lemma {:induction false} FirstIdleIsLowest(infos: seq<VoiceInfo>, from: nat)
    ensures FirstIdle(infos, from).Some? <==> exists j :: from <= j < |infos| && !infos[j].playing
    ensures FirstIdle(infos, from).Some? ==>
      var i := FirstIdle(infos, from).value;
      from <= i < |infos| && !infos[i].playing && forall j :: from <= j < i ==> infos[j].playing
    decreases |infos| - from
  {
    if from < |infos| && infos[from].playing {
      FirstIdleIsLowest(infos, from + 1);
      if exists j :: from <= j < |infos| && !infos[j].playing {
        var j :| from <= j < |infos| && !infos[j].playing;
        assert from + 1 <= j;
      }
    }
  }

  /** The decaying record of the scan: it holds a voice exactly when some
      decaying voice among the first k started before f64::MAX, and then it is
      the oldest such voice, the lowest-index one on ties. */
  lemma {:induction false} ScanFindsOldestDecaying(infos: seq<VoiceInfo>, k: nat)
    requires k <= |infos|
    ensures Scan(infos, k).oldestDecaying.None? <==>
      forall j :: 0 <= j < k && infos[j].decaying ==> infos[j].startTime >= F64Max
    ensures Scan(infos, k).oldestDecaying.None? ==> Scan(infos, k).decayingTime == F64Max
    ensures Scan(infos, k).oldestDecaying.Some? ==>
      var d := Scan(infos, k).oldestDecaying.value;
      d < k && infos[d].decaying && Scan(infos, k).decayingTime == infos[d].startTime < F64Max
      && (forall j :: 0 <= j < k && infos[j].decaying ==> infos[d].startTime <= infos[j].startTime)
      && (forall j :: 0 <= j < d && infos[j].decaying ==> infos[d].startTime < infos[j].startTime)
    decreases k
  {
    if k > 0 {
      ScanFindsOldestDecaying(infos, k - 1);
    }
  }

  /** The playing record of the scan: voice 0 at f64::MAX when no voice among
      the first k started before f64::MAX, otherwise the oldest voice, the
      lowest-index one on ties. */
  lemma {:induction false} ScanFindsOldest(infos: seq<VoiceInfo>, k: nat)
    requires k <= |infos|
    ensures (forall j :: 0 <= j < k ==> infos[j].startTime >= F64Max) ==>
      Scan(infos, k).oldestPlaying == 0 && Scan(infos, k).playingTime == F64Max
    ensures (exists j :: 0 <= j < k && infos[j].startTime < F64Max) ==>
      var p := Scan(infos, k).oldestPlaying;
      p < k && Scan(infos, k).playingTime == infos[p].startTime
      && (forall j :: 0 <= j < k ==> infos[p].startTime <= infos[j].startTime)
      && (forall j :: 0 <= j < p ==> infos[p].startTime < infos[j].startTime)
    decreases k
  {
    if k > 0 {
      ScanFindsOldest(infos, k - 1);
      var prev, v := Scan(infos, k - 1), infos[k - 1];
      assert Scan(infos, k).oldestPlaying == if v.startTime < prev.playingTime then k - 1 else prev.oldestPlaying;
      assert Scan(infos, k).playingTime == if v.startTime < prev.playingTime then v.startTime else prev.playingTime;
    }
  }

  /** Mono mode: always voice 0. */
  lemma ChosenInMono(infos: seq<VoiceInfo>)
    ensures Chosen(infos, true) == 0
  {
  }

  /** Poly mode with an idle voice: the lowest-index idle voice. */
  lemma ChosenIdle(infos: seq<VoiceInfo>)
    requires exists j :: 0 <= j < |infos| && !infos[j].playing
    ensures var c := Chosen(infos, false);
      c < |infos| && !infos[c].playing && forall j :: 0 <= j < c ==> infos[j].playing
  {
    FirstIdleIsLowest(infos, 0);
  }

  /** Poly mode, every voice playing, some decaying voice started before
      f64::MAX: the oldest decaying voice, the lowest-index one on ties. */
  lemma ChosenDecaying(infos: seq<VoiceInfo>)
    requires forall j :: 0 <= j < |infos| ==> infos[j].playing
    requires exists j :: 0 <= j < |infos| && infos[j].decaying && infos[j].startTime < F64Max
    ensures var c := Chosen(infos, false);
      c < |infos| && infos[c].decaying
      && (forall j :: 0 <= j < |infos| && infos[j].decaying ==> infos[c].startTime <= infos[j].startTime)
      && (forall j :: 0 <= j < c && infos[j].decaying ==> infos[c].startTime < infos[j].startTime)
  {
    FirstIdleIsLowest(infos, 0);
    ScanFindsOldestDecaying(infos, |infos|);
  }

  /** Poly mode, every voice playing, no decaying voice started before
      f64::MAX: the oldest voice, the lowest-index one on ties, or voice 0 when
      no voice started before f64::MAX. */
  lemma ChosenOldest(infos: seq<VoiceInfo>)
    requires forall j :: 0 <= j < |infos| ==> infos[j].playing
    requires forall j :: 0 <= j < |infos| && infos[j].decaying ==> infos[j].startTime >= F64Max
    ensures var c := Chosen(infos, false);
      ((exists j :: 0 <= j < |infos| && infos[j].startTime < F64Max) ==>
         c < |infos|
         && (forall j :: 0 <= j < |infos| ==> infos[c].startTime <= infos[j].startTime)
         && (forall j :: 0 <= j < c ==> infos[c].startTime < infos[j].startTime))
      && ((forall j :: 0 <= j < |infos| ==> infos[j].startTime >= F64Max) ==> c == 0)
  {
    FirstIdleIsLowest(infos, 0);
    ScanFindsOldestDecaying(infos, |infos|);
    ScanFindsOldest(infos, |infos|);
  }

  // ---------------------------------------------------------------------
  // Pitch bend

  /** pitch_bend as written: (d2 * 256 + d1) / 16384 - 1. It sends (0, 64)
      to 0 and (0, 0) to -1, and stays in [-1, 1) for 7-bit data bytes. */
  function BendValueAsWritten(d1: nat, d2: nat): (r: real)
    ensures d1 == 0 && d2 == 64 ==> r == 0.0
    ensures d1 == 0 && d2 == 0 ==> r == -1.0
    ensures d1 < 128 && d2 < 128 ==> -1.0 <= r < 1.0
  {
    (d2 * 256 + d1) as real / 16384.0 - 1.0
  }

  /** The Pitch Bend Change value of MIDI 1.0 (Table 1 of the MIDI 1.0
      Detailed Specification): the 14-bit number d2 * 128 + d1 with centre
      0x2000, as a bend in [-1, 1): (0, 64) is the centre 0 and (0, 0) is -1. */
  function BendValue(d1: nat, d2: nat): (r: real)
    ensures d1 == 0 && d2 == 64 ==> r == 0.0
    ensures d1 == 0 && d2 == 0 ==> r == -1.0
    ensures d1 < 128 && d2 < 128 ==> -1.0 <= r < 1.0
  {
    (d2 * 128 + d1) as real / 8192.0 - 1.0
  }

  /** The two forms agree exactly when the LSB is 0: the written form gives
      the LSB half its weight. */
  lemma BendValueForms(d1: nat, d2: nat)
    ensures BendValueAsWritten(d1, d2) == BendValue(d1, d2) <==> d1 == 0
    ensures BendValueAsWritten(d1, d2) == BendValue(d1, d2) - d1 as real / 16384.0
  {
  }

  /** An input that shows the difference: LSB 127 with MSB 63, one step below
      the centre, reads as almost 1/128 below the centre. */
  lemma BendValueAsWrittenCounterexample()
    ensures BendValue(127, 63) == -1.0 / 8192.0
    ensures BendValueAsWritten(127, 63) == -129.0 / 16384.0
  {
  }

  /** The corrected bend is linear in the 14-bit value (one step is 1/8192);
      the written one is strictly increasing in it but not linear. */
  lemma BendValueMonotone(d1: nat, d2: nat, e1: nat, e2: nat)
    requires d1 < 128 && d2 < 128 && e1 < 128 && e2 < 128
    ensures BendValue(e1, e2) - BendValue(d1, d2) == ((e2 * 128 + e1) - (d2 * 128 + d1)) as real / 8192.0
    ensures d2 * 128 + d1 < e2 * 128 + e1 ==> BendValueAsWritten(d1, d2) < BendValueAsWritten(e1, e2)
  {
    if d2 * 128 + d1 < e2 * 128 + e1 {
      assert d2 < e2 || (d2 == e2 && d1 < e1);
      if d2 < e2 {
        assert d2 * 256 + d1 < (d2 + 1) * 256 <= e2 * 256;
      }
    }
  }

  // ---------------------------------------------------------------------
  // generate_audio

  /** What generate_audio's voice loop depends on in a voice before the block:
      whether it plays, its unison count, its note and its target note. */
  datatype VoiceStart = VoiceStart(playing: bool, unison: nat, note: real, target: real)

  /** The fields of a voice its generate call writes. */
  datatype Touched = Touched(note: real, bend: real, ampStage: Envelope.State, filterStage: Envelope.State)

  ghost function TouchedOf(v: SynthVoice.Voice): Touched
    reads v
  {
    Touched(v.note, v.bend, v.ampStage, v.filterStage)
  }

  /** A voice in generate_audio's loop: before its turn as it was; after it,
      in its block's envelope stages if it was playing, untouched otherwise. */
  ghost predicate VoiceAt(v: SynthVoice.Voice, s: VoiceStart, t: Touched, b: SynthVoice.Block, done: bool)
    reads v
  {
    if !done then Start(v) == s && TouchedOf(v) == t
    else if s.playing then v.ampStage == b.ampAfter && v.filterStage == b.filterAfter
    else TouchedOf(v) == t
  }

  ghost function Start(v: SynthVoice.Voice): VoiceStart
    reads v
  {
    VoiceStart(v.IsPlaying(), |v.osc1|, v.note, v.targetNote as real)
  }

  /** The shared cells the voices read: the bend and portamento cells before
      the block, their targets, the poly mode and the sample rate. */
  datatype Shared = Shared(bend0: real, bendTarget: real, porta0: real, portaTarget: real, polyMode: int, sampleRate: real)

  /** The number of playing voices among the first k. */
  function PlayingBefore(starts: seq<VoiceStart>, k: nat): (r: nat)
    requires k <= |starts|
    ensures r <= k
    decreases k
  {
    if k == 0 then 0 else PlayingBefore(starts, k - 1) + (if starts[k - 1].playing then 1 else 0)
  }

  /** Every playing voice has a unison bank the pattern tables cover and
      parameters for each of the n samples. */
  predicate Renderable(blocks: seq<SynthVoice.Block>, starts: seq<VoiceStart>, n: nat)
  {
    |blocks| == |starts|
    && forall v :: 0 <= v < |starts| && starts[v].playing ==> starts[v].unison <= MaxUnison && n <= |blocks[v].params|
  }

  /** The loop inputs of a playing voice with `rank` playing voices before it:
      each playing voice's generate reads the bend cell once and, outside poly
      mode 2, the portamento cell once, so this voice sees them after rank + 1
      reads. */
  function RankedRender(sh: Shared, b: SynthVoice.Block, s: VoiceStart, rank: nat): (r: SynthVoice.Render)
    requires s.unison <= MaxUnison
    ensures r.Covers(|b.params|)
  {
    SynthVoice.BlockRender(b, s.unison, s.note, s.target,
      SynthVoice.Portamento(sh.polyMode, SmoothN(sh.porta0, sh.portaTarget, rank + 1), sh.sampleRate),
      SmoothN(sh.bend0, sh.bendTarget, rank + 1))
  }

  /** The render a playing voice's generate computes from the cells as rank
      earlier voices left them is its ranked render. */
  lemma RankedIsGenerated(sh: Shared, b: SynthVoice.Block, s: VoiceStart, rank: nat, bend: real, porta: real)
    requires s.unison <= MaxUnison
    requires bend == SmoothN(sh.bend0, sh.bendTarget, rank)
    requires porta == if sh.polyMode == 2 then sh.porta0 else SmoothN(sh.porta0, sh.portaTarget, rank)
    ensures RankedRender(sh, b, s, rank) == SynthVoice.BlockRender(b, s.unison, s.note, s.target,
      SynthVoice.Portamento(sh.polyMode, SmoothStep(porta, sh.portaTarget), sh.sampleRate), SmoothStep(bend, sh.bendTarget))
  {
  }

  /** Output sample i of a cleared buffer after the first k voices, in pool
      order, have added into it. */
  function Rendered(sh: Shared, blocks: seq<SynthVoice.Block>, starts: seq<VoiceStart>, n: nat, k: nat, i: nat): Stereo
    requires Renderable(blocks, starts, n) && k <= |starts| && i < n
    decreases k
  {
    if k == 0 then Stereo(0.0, 0.0)
    else
      var prev := Rendered(sh, blocks, starts, n, k - 1, i);
      if !starts[k - 1].playing then prev
      else
        var s := SynthVoice.VoiceSample(RankedRender(sh, blocks[k - 1], starts[k - 1], PlayingBefore(starts, k - 1)), i);
        Stereo(prev.left + s.left, prev.right + s.right)
  }

  /** A playing voice adds its ranked render's sample to what the voices
      before it left in the buffer. */
  lemma RenderedPlaying(sh: Shared, blocks: seq<SynthVoice.Block>, starts: seq<VoiceStart>, n: nat, v: nat)
    requires Renderable(blocks, starts, n) && v < |starts| && starts[v].playing
    ensures var ss := SynthVoice.Samples(RankedRender(sh, blocks[v], starts[v], PlayingBefore(starts, v)), n);
      forall i :: 0 <= i < n ==>
        Rendered(sh, blocks, starts, n, v + 1, i).left == Rendered(sh, blocks, starts, n, v, i).left + ss[i].left
        && Rendered(sh, blocks, starts, n, v + 1, i).right == Rendered(sh, blocks, starts, n, v, i).right + ss[i].right
  {
  }

  /** A voice that is not playing adds nothing and does not count among the
      playing voices. */
  lemma RenderedIdle(sh: Shared, blocks: seq<SynthVoice.Block>, starts: seq<VoiceStart>, n: nat, v: nat)
    requires Renderable(blocks, starts, n) && v < |starts| && !starts[v].playing
    ensures PlayingBefore(starts, v + 1) == PlayingBefore(starts, v)
    ensures forall i :: 0 <= i < n ==> Rendered(sh, blocks, starts, n, v + 1, i) == Rendered(sh, blocks, starts, n, v, i)
  {
  }

  /** PlayingBefore is the size of the set of playing voices among the first k. */
  lemma {:induction false} PlayingBeforeCounts(starts: seq<VoiceStart>, k: nat)
    requires k <= |starts|
    ensures PlayingBefore(starts, k) == |set j | 0 <= j < k && starts[j].playing|
    decreases k
  {
    var all := set j | 0 <= j < k && starts[j].playing;
    if k == 0 {
      assert all == {};
    } else {
      PlayingBeforeCounts(starts, k - 1);
      var prev := set j | 0 <= j < k - 1 && starts[j].playing;
      if starts[k - 1].playing {
        assert all == prev + {k - 1};
      } else {
        assert all == prev;
      }
    }
  }

  /** A playing voice has fewer playing voices before it than any longer prefix has. */
  lemma {:induction false} RankBelowCount(starts: seq<VoiceStart>, v: nat, k: nat)
    requires v < k <= |starts| && starts[v].playing
    ensures PlayingBefore(starts, v) < PlayingBefore(starts, k)
    decreases k
  {
    if k > v + 1 {
      RankBelowCount(starts, v, k - 1);
    }
  }

  /** With no playing voice among the first k, none has been counted. */
  lemma {:induction false} NoneBefore(starts: seq<VoiceStart>, k: nat)
    requires k <= |starts| && forall j :: 0 <= j < k ==> !starts[j].playing
    ensures PlayingBefore(starts, k) == 0
    decreases k
  {
    if k > 0 {
      NoneBefore(starts, k - 1);
    }
  }

  /** With no playing voice among the first k, the cleared buffer stays silent. */
  lemma {:induction false} RenderedSilent(sh: Shared, blocks: seq<SynthVoice.Block>, starts: seq<VoiceStart>, n: nat, k: nat, i: nat)
    requires Renderable(blocks, starts, n) && k <= |starts| && i < n
    requires forall j :: 0 <= j < k ==> !starts[j].playing
    ensures Rendered(sh, blocks, starts, n, k, i) == Stereo(0.0, 0.0)
    decreases k
  {
    if k > 0 {
      RenderedSilent(sh, blocks, starts, n, k - 1, i);
    }
  }

  /** A lone playing voice v is heard exactly as it renders, having read the
      shared cells once. */
  lemma {:induction false} RenderedLone(sh: Shared, blocks: seq<SynthVoice.Block>, starts: seq<VoiceStart>, n: nat, v: nat, k: nat, i: nat)
    requires Renderable(blocks, starts, n) && v < k <= |starts| && i < n && starts[v].playing
    requires forall j :: 0 <= j < |starts| && j != v ==> !starts[j].playing
    ensures var s := SynthVoice.VoiceSample(RankedRender(sh, blocks[v], starts[v], 0), i);
      Rendered(sh, blocks, starts, n, k, i) == Stereo(0.0 + s.left, 0.0 + s.right)
    decreases k
  {
    if k == v + 1 {
      RenderedSilent(sh, blocks, starts, n, v, i);
      NoneBefore(starts, v);
    } else {
      RenderedLone(sh, blocks, starts, n, v, k - 1, i);
    }
  }

  /** The bend a playing voice renders with depends on its rank unless the
      bend cell has settled: a settled cell gives every voice the target, an
      unsettled one gives no two ranks the same bend. */
  lemma RankedBend(sh: Shared, b: SynthVoice.Block, s: VoiceStart, r1: nat, r2: nat)
    requires s.unison <= MaxUnison
    ensures sh.bend0 == sh.bendTarget ==> RankedRender(sh, b, s, r1).bend == sh.bendTarget
    ensures sh.bend0 != sh.bendTarget && r1 != r2 ==> RankedRender(sh, b, s, r1).bend != RankedRender(sh, b, s, r2).bend
  {
    if sh.bend0 == sh.bendTarget {
      SettledStays(sh.bendTarget, r1 + 1);
    } else if r1 != r2 {
      ReadsDiffer(sh.bend0, sh.bendTarget, r1 + 1, r2 + 1);
    }
  }

  // ---------------------------------------------------------------------
  // The pool

  /** What note_on looks at in a voice. */
  ghost function Info(v: SynthVoice.Voice): VoiceInfo
    reads v
  {
    VoiceInfo(v.IsPlaying(), v.IsDecaying(), v.startTime)
  }

  class Synth {
    const voices: seq<SynthVoice.Voice>
    const states: seq<Smoothed>

    /** Eight distinct voices with distinct LFOs and ids 0..7, and one distinct
        cell per state. */
    ghost predicate Valid()
    {
      Sized()
      && (forall i, j :: 0 <= i < j < |voices| ==> voices[i] != voices[j] && voices[i].lfo != voices[j].lfo)
      && (forall i, j :: 0 <= i < j < |states| ==> states[i] != states[j])
      && (forall i :: 0 <= i < |voices| ==> voices[i].id == i && Oscillator.BlepValid(voices[i].blep))
    }

    /** The pool holds Polyphony voices and NUM_STATES cells. */
    predicate Sized()
    {
      |voices| == Polyphony && |states| == NumStates
    }

    ghost function Lfos(): set<Oscillator.Osc>
    {
      set i | 0 <= i < |voices| :: voices[i].lfo
    }

    /** The oscillators the voices' generate calls advance and the model does
        not follow: every voice's Bank. */
    ghost function Banks(): set<Oscillator.Osc>
      reads voices`osc1, voices`osc2
    {
      set v, o | v in voices && o in v.Bank() :: o
    }

    /** Their correction buffers. */
    ghost function Buffers(): set<array<real>>
      reads voices`osc1, voices`osc2
    {
      set v, o | v in voices && o in v.Buffers() :: o
    }

    /** A voice's oscillators and buffers are among the pool's. */
    lemma BankOf(v: nat)
      requires Valid() && v < Polyphony
      ensures (set o | o in voices[v].Bank()) <= Banks() && voices[v].Buffers() <= Buffers()
    {
      assert voices[v] in voices;
    }

    /** The voices as note_on sees them. */
    ghost function Infos(): (r: seq<VoiceInfo>)
      reads voices
      ensures |r| == |voices|
      ensures forall i :: 0 <= i < |voices| ==> r[i] == Info(voices[i])
    {
      seq(|voices|, i requires 0 <= i < |voices| reads voices => Info(voices[i]))
    }

    /** UnisonVoices' discrete value as a usize. */
    function Unison(): nat
      requires Sized()
      reads states[UnisonVoicesState]
    {
      I32AsUsize(Discrete(states[UnisonVoicesState].target))
    }

    /** LfoKeyTrig's discrete value is 1. */
    predicate LfoTrig()
      requires Sized()
      reads states[LfoKeyTrigState]
    {
      Discrete(states[LfoKeyTrigState].target) == 1
    }

    /** PolyMode's discrete value, as a usize, is 1. */
    predicate Mono()
      requires Sized()
      reads states[PolyModeState]
    {
      I32AsUsize(Discrete(states[PolyModeState].target)) == 1
    }

    /** Synth::default: eight new voices with ids 0..7 and NUM_STATES cells at 0. */
    constructor (blep: Oscillator.Blep)
      requires Oscillator.BlepValid(blep)
      ensures Valid()
      ensures forall i :: 0 <= i < Polyphony ==>
        voices[i].View() == SynthVoice.VoiceView(0, 0.0, 0.0, 0, 0.0, 0, 0, Envelope.Idle, Envelope.Idle, voices[i].lfo.phase)
      ensures forall i :: 0 <= i < NumStates ==> states[i].state == 0.0 && states[i].target == 0.0
    {
      var vs: seq<SynthVoice.Voice> := [];
      while |vs| < Polyphony
        invariant |vs| <= Polyphony
        invariant forall i, j :: 0 <= i < j < |vs| ==> vs[i] != vs[j] && vs[i].lfo != vs[j].lfo
        invariant forall i :: 0 <= i < |vs| ==> fresh(vs[i]) && fresh(vs[i].lfo)
        invariant forall i :: 0 <= i < |vs| ==> vs[i].id == i && vs[i].blep == blep
        invariant forall i :: 0 <= i < |vs| ==>
          vs[i].View() == SynthVoice.VoiceView(0, 0.0, 0.0, 0, 0.0, 0, 0, Envelope.Idle, Envelope.Idle, vs[i].lfo.phase)
        decreases Polyphony - |vs|
      {
        var v := new SynthVoice.Voice(|vs|, blep);
        vs := vs + [v];
      }
      var ss: seq<Smoothed> := [];
      while |ss| < NumStates
        invariant |ss| <= NumStates
        invariant forall i, j :: 0 <= i < j < |ss| ==> ss[i] != ss[j]
        invariant forall i :: 0 <= i < |ss| ==> fresh(ss[i]) && ss[i].state == 0.0 && ss[i].target == 0.0
        invariant forall i :: 0 <= i < |vs| ==>
          vs[i].View() == SynthVoice.VoiceView(0, 0.0, 0.0, 0, 0.0, 0, 0, Envelope.Idle, Envelope.Idle, vs[i].lfo.phase)
        decreases NumStates - |ss|
      {
        var c := new Smoothed();
        ss := ss + [c];
      }
      voices := vs;
      states := ss;
    }

    /** note_on's loop over the pool in poly mode: it stops at the first idle
        voice; when there is none it has scanned every voice for the oldest
        decaying and the oldest playing one. */
    method ScanPool(ghost infos: seq<VoiceInfo>) returns (idle: Option<nat>, scanned: Scanned)
      requires Valid() && infos == Infos()
      ensures idle == FirstIdle(infos, 0)
      ensures idle.None? ==> scanned == Scan(infos, |infos|)
      ensures idle.Some? ==> idle.value < Polyphony
      ensures scanned.oldestPlaying < Polyphony
      ensures scanned.oldestDecaying.Some? ==> scanned.oldestDecaying.value < Polyphony
    {
      var oldestPlayingVoice: nat := 0;
      var oldestPlayingTime := F64Max;
      var oldestDecayingVoice: Option<nat> := None;
      var oldestDecayingTime := F64Max;
      for i := 0 to Polyphony
        invariant Scanned(oldestPlayingVoice, oldestPlayingTime, oldestDecayingVoice, oldestDecayingTime) == Scan(infos, i)
        invariant FirstIdle(infos, 0) == FirstIdle(infos, i)
        invariant oldestPlayingVoice < Polyphony
        invariant oldestDecayingVoice.Some? ==> oldestDecayingVoice.value < Polyphony
      {
        if !voices[i].IsPlaying() {
          return Some(i), Scanned(oldestPlayingVoice, oldestPlayingTime, oldestDecayingVoice, oldestDecayingTime);
        } else {
          if voices[i].IsDecaying() && voices[i].startTime < oldestDecayingTime {
            oldestDecayingVoice := Some(i);
            oldestDecayingTime := voices[i].startTime;
          }
          if voices[i].startTime < oldestPlayingTime {
            oldestPlayingVoice := i;
            oldestPlayingTime := voices[i].startTime;
          }
        }
      }
      idle := None;
      scanned := Scanned(oldestPlayingVoice, oldestPlayingTime, oldestDecayingVoice, oldestDecayingTime);
    }

    /** The poly-mode part of note_on's choice: the first idle voice, else
        the oldest decaying voice, else the oldest playing one. */
    method SelectVoice(ghost infos: seq<VoiceInfo>) returns (c: nat)
      requires Valid() && infos == Infos()
      ensures c == Chosen(infos, false) && c < Polyphony
    {
      var idle, scanned := ScanPool(infos);
      if idle.Some? {
        return idle.value;
      }
      match scanned.oldestDecaying {
        case Some(v) => c := v;
        case None => c := scanned.oldestPlaying;
      }
    }

    /** voices[c].note_on: voice c and its LFO change as Voice.NoteOn says,
        nothing else in the pool does. */
    method Trigger(c: nat, note: nat, velocity: nat, time: real, unison: nat, lfoTrig: bool)
      requires Valid() && c < Polyphony
      modifies voices[c], voices[c].lfo
      ensures voices[c].View() == SynthVoice.NoteOnView(old(voices[c].View()), note, velocity, time, unison, lfoTrig)
      ensures forall j :: 0 <= j < Polyphony && j != c ==> unchanged(voices[j]) && unchanged(voices[j].lfo)
    {
      voices[c].NoteOn(note, velocity, time, unison, lfoTrig);
    }

    /** note_on: the voice Chosen picks from the voices as they were receives
        note_on with the UnisonVoices and LfoKeyTrig values; no other voice
        changes. In mono mode voice 0 receives it twice (the scan is skipped,
        so the steal falls back to voice 0), which the second time changes
        nothing more. */
    method NoteOn(note: nat, velocity: nat, time: real)
      requires Valid()
      modifies voices, Lfos()
      ensures Chosen(old(Infos()), old(Mono())) < Polyphony
      ensures var c := Chosen(old(Infos()), old(Mono()));
        voices[c].View() == SynthVoice.NoteOnView(old(voices[c].View()), note, velocity, time, old(Unison()), old(LfoTrig()))
      ensures forall j :: 0 <= j < Polyphony && j != Chosen(old(Infos()), old(Mono())) ==>
        unchanged(voices[j]) && unchanged(voices[j].lfo)
    {
      ghost var infos := Infos();
      var unisonD := states[UnisonVoicesState].GetDiscrete();
      var unison := I32AsUsize(unisonD);
      var lfoTrigD := states[LfoKeyTrigState].GetDiscrete();
      var lfoTrig := lfoTrigD == 1;
      var polyD := states[PolyModeState].GetDiscrete();
      var mono := I32AsUsize(polyD) == 1;
      if mono {
        // the scan is skipped, so the steal takes oldest_playing_voice, still 0
        ghost var view0 := voices[0].View();
        Trigger(0, note, velocity, time, unison, lfoTrig);
        Trigger(ScanStart.oldestPlaying, note, velocity, time, unison, lfoTrig);
        SynthVoice.NoteOnEffect(view0, note, velocity, time, unison, lfoTrig);
      } else {
        var c := SelectVoice(infos);
        Trigger(c, note, velocity, time, unison, lfoTrig);
      }
    }

    /** Every voice as generate_audio sees it before the block. */
    ghost function Starts(): (r: seq<VoiceStart>)
      reads voices
      ensures |r| == |voices|
      ensures forall i {:trigger Start(voices[i])} :: 0 <= i < |voices| ==> r[i] == Start(voices[i])
    {
      seq(|voices|, i requires 0 <= i < |voices| reads voices => Start(voices[i]))
    }

    /** The fields generate writes, of every voice. */
    ghost function Toucheds(): (r: seq<Touched>)
      reads voices
      ensures |r| == |voices|
      ensures forall i {:trigger TouchedOf(voices[i])} :: 0 <= i < |voices| ==> r[i] == TouchedOf(voices[i])
    {
      seq(|voices|, i requires 0 <= i < |voices| reads voices => TouchedOf(voices[i]))
    }

    /** The shared cells as they are now. */
    ghost function SharedNow(sampleRate: real): Shared
      requires Sized()
      reads states[StateBend], states[PortamentoState], states[PolyModeState]
    {
      Shared(states[StateBend].state, states[StateBend].target, states[PortamentoState].state,
             states[PortamentoState].target, Discrete(states[PolyModeState].target), sampleRate)
    }

    /** generate_audio: the first n samples of both channels are cleared, then
        every playing voice, in pool order, adds its block into them, so each
        holds Rendered over the whole pool; the rest of the buffer is untouched.
        The bend cell, and outside poly mode 2 the portamento cell, have been
        read once per playing voice. Only the fields a voice's generate writes
        may change: a voice that was not playing keeps them (so it is
        unchanged), and a playing one ends in its block's envelope stages. */
    method GenerateAudio(sampleRate: real, blocks: seq<SynthVoice.Block>, n: nat, out0: array<real>, out1: array<real>)
      requires Valid() && Renderable(blocks, Starts(), n)
      requires n <= out0.Length && n <= out1.Length && out0 != out1
      requires out0 !in Buffers() && out1 !in Buffers()
      modifies voices`note, voices`bend, voices`ampStage, voices`filterStage, states`state, Banks(), Buffers(), out0, out1
      ensures forall i :: 0 <= i < n ==>
        out0[i] == Rendered(old(SharedNow(sampleRate)), blocks, old(Starts()), n, Polyphony, i).left
        && out1[i] == Rendered(old(SharedNow(sampleRate)), blocks, old(Starts()), n, Polyphony, i).right
      ensures forall i :: n <= i < out0.Length ==> out0[i] == old(out0[i])
      ensures forall i :: n <= i < out1.Length ==> out1[i] == old(out1[i])
      ensures Cells(old(SharedNow(sampleRate)), PlayingBefore(old(Starts()), Polyphony))
      ensures forall v {:trigger voices[v]} :: 0 <= v < Polyphony && !old(Starts())[v].playing ==> TouchedOf(voices[v]) == old(TouchedOf(voices[v]))
      ensures forall v {:trigger voices[v]} :: 0 <= v < Polyphony && old(Starts())[v].playing ==>
        voices[v].ampStage == blocks[v].ampAfter && voices[v].filterStage == blocks[v].filterAfter
    {
      ghost var sh := SharedNow(sampleRate);
      ghost var starts := Starts();
      ghost var touched := Toucheds();
      Clear(n, out0, out1);
      RunVoices(sh, starts, touched, blocks, n, sampleRate, out0, out1);
    }

    /** generate_audio's first loop: the first n samples of both channels
        are set to 0, the rest of the buffer is untouched. */
    static method Clear(n: nat, out0: array<real>, out1: array<real>)
      requires n <= out0.Length && n <= out1.Length
      modifies out0, out1
      ensures forall j :: 0 <= j < n ==> out0[j] == 0.0 && out1[j] == 0.0
      ensures forall j :: n <= j < out0.Length ==> out0[j] == old(out0[j])
      ensures forall j :: n <= j < out1.Length ==> out1[j] == old(out1[j])
    {
      for i := 0 to n
        invariant forall j :: 0 <= j < i ==> out0[j] == 0.0 && out1[j] == 0.0
        invariant forall j :: i <= j < out0.Length ==> out0[j] == old(out0[j])
        invariant forall j :: i <= j < out1.Length ==> out1[j] == old(out1[j])
      {
        out0[i] := 0.0;
        out1[i] := 0.0;
      }
    }

    /** generate_audio's voice loop over a cleared buffer, with the voices as
        they were before it in `starts`. */
    method RunVoices(ghost sh: Shared, ghost starts: seq<VoiceStart>, ghost touched: seq<Touched>, blocks: seq<SynthVoice.Block>, n: nat,
                     sampleRate: real, out0: array<real>, out1: array<real>)
      requires Valid() && |starts| == Polyphony && Renderable(blocks, starts, n)
      requires |touched| == Polyphony
      requires out0 !in Buffers() && out1 !in Buffers()
      requires forall j {:trigger voices[j]} :: 0 <= j < Polyphony ==> Start(voices[j]) == starts[j] && TouchedOf(voices[j]) == touched[j]
      requires n <= out0.Length && n <= out1.Length && out0 != out1
      requires sh.sampleRate == sampleRate && Cells(sh, 0)
      requires forall i :: 0 <= i < n ==> out0[i] == 0.0 && out1[i] == 0.0
      modifies voices`note, voices`bend, voices`ampStage, voices`filterStage, states`state, Banks(), Buffers(), out0, out1
      ensures forall i :: 0 <= i < n ==>
        out0[i] == Rendered(sh, blocks, starts, n, Polyphony, i).left && out1[i] == Rendered(sh, blocks, starts, n, Polyphony, i).right
      ensures forall i :: n <= i < out0.Length ==> out0[i] == old(out0[i])
      ensures forall i :: n <= i < out1.Length ==> out1[i] == old(out1[i])
      ensures Cells(sh, PlayingBefore(starts, Polyphony))
      ensures forall j {:trigger voices[j]} :: 0 <= j < Polyphony && !starts[j].playing ==> TouchedOf(voices[j]) == touched[j]
      ensures forall j {:trigger voices[j]} :: 0 <= j < Polyphony && starts[j].playing ==>
        voices[j].ampStage == blocks[j].ampAfter && voices[j].filterStage == blocks[j].filterAfter
    {
      ghost var banks, buffers := Banks(), Buffers();
      for v := 0 to Polyphony
        invariant Banks() == banks && Buffers() == buffers
        invariant forall i :: 0 <= i < n ==>
          out0[i] == Rendered(sh, blocks, starts, n, v, i).left && out1[i] == Rendered(sh, blocks, starts, n, v, i).right
        invariant forall i :: n <= i < out0.Length ==> out0[i] == old(out0[i])
        invariant forall i :: n <= i < out1.Length ==> out1[i] == old(out1[i])
        invariant Cells(sh, PlayingBefore(starts, v))
        invariant forall j {:trigger voices[j]} :: 0 <= j < Polyphony ==> VoiceAt(voices[j], starts[j], touched[j], blocks[j], j < v)
      {
        BankOf(v);
        AddVoice(v, voices[v], banks, buffers, sh, starts, touched, blocks, n, sampleRate, out0, out1);
      }
    }

    /** The shared cells after k playing voices have read them. */
    ghost predicate Cells(sh: Shared, k: nat)
      requires Sized()
      reads states[StateBend], states[PortamentoState], states[PolyModeState]
    {
      Discrete(states[PolyModeState].target) == sh.polyMode
      && states[StateBend].target == sh.bendTarget
      && states[StateBend].state == SmoothN(sh.bend0, sh.bendTarget, k)
      && states[PortamentoState].target == sh.portaTarget
      && states[PortamentoState].state == if sh.polyMode == 2 then sh.porta0 else SmoothN(sh.porta0, sh.portaTarget, k)
    }

    /** One step of generate_audio's voice loop: voice v generates into the
        buffer if it is playing, which adds its term of Rendered and reads the
        shared cells once more. */
    method AddVoice(v: nat, voice: SynthVoice.Voice, ghost banks: set<Oscillator.Osc>, ghost buffers: set<array<real>>, ghost sh: Shared, ghost starts: seq<VoiceStart>, ghost touched: seq<Touched>, blocks: seq<SynthVoice.Block>, n: nat,
                    sampleRate: real, out0: array<real>, out1: array<real>)
      requires Valid() && v < Polyphony && voice == voices[v] && |starts| == Polyphony && Renderable(blocks, starts, n)
      requires n <= out0.Length && n <= out1.Length && out0 != out1
      requires (set o | o in voice.Bank()) <= banks && voice.Buffers() <= buffers && out0 !in buffers && out1 !in buffers
      requires |touched| == Polyphony
      requires sh.sampleRate == sampleRate && Cells(sh, PlayingBefore(starts, v))
      requires forall i :: 0 <= i < n ==>
        out0[i] == Rendered(sh, blocks, starts, n, v, i).left && out1[i] == Rendered(sh, blocks, starts, n, v, i).right
      requires forall j {:trigger voices[j]} :: 0 <= j < Polyphony ==> VoiceAt(voices[j], starts[j], touched[j], blocks[j], j < v)
      modifies voice`note, voice`bend, voice`ampStage, voice`filterStage, states`state, banks, buffers, out0, out1
      ensures forall i :: 0 <= i < n ==>
        out0[i] == Rendered(sh, blocks, starts, n, v + 1, i).left && out1[i] == Rendered(sh, blocks, starts, n, v + 1, i).right
      ensures forall i :: n <= i < out0.Length ==> out0[i] == old(out0[i])
      ensures forall i :: n <= i < out1.Length ==> out1[i] == old(out1[i])
      ensures Cells(sh, PlayingBefore(starts, v + 1))
      ensures forall j {:trigger voices[j]} :: 0 <= j < Polyphony ==> VoiceAt(voices[j], starts[j], touched[j], blocks[j], j < v + 1)
      ensures Banks() == old(Banks()) && Buffers() == old(Buffers())
    {
      if voices[v].IsPlaying() {
        PlayVoice(v, voice, banks, buffers, sh, starts, blocks, n, sampleRate, out0, out1);
      } else {
        RenderedIdle(sh, blocks, starts, n, v);
      }
    }

    /** AddVoice for a playing voice: its generate call adds the voice's term
        of Rendered, with the cells read rank + 1 times. */
    method PlayVoice(v: nat, voice: SynthVoice.Voice, ghost banks: set<Oscillator.Osc>, ghost buffers: set<array<real>>, ghost sh: Shared, ghost starts: seq<VoiceStart>, blocks: seq<SynthVoice.Block>, n: nat,
                     sampleRate: real, out0: array<real>, out1: array<real>)
      requires Sized() && states[StateBend] != states[PortamentoState]
      requires v < Polyphony && |starts| == Polyphony && Renderable(blocks, starts, n)
      requires n <= out0.Length && n <= out1.Length && out0 != out1
      requires (set o | o in voice.Bank()) <= banks && voice.Buffers() <= buffers && out0 !in buffers && out1 !in buffers
      requires starts[v] == Start(voice) && starts[v].playing
      requires sh.sampleRate == sampleRate && Cells(sh, PlayingBefore(starts, v))
      requires forall i :: 0 <= i < n ==>
        out0[i] == Rendered(sh, blocks, starts, n, v, i).left && out1[i] == Rendered(sh, blocks, starts, n, v, i).right
      modifies voice`note, voice`bend, voice`ampStage, voice`filterStage, states`state, banks, buffers, out0, out1
      ensures forall i :: 0 <= i < n ==>
        out0[i] == Rendered(sh, blocks, starts, n, v + 1, i).left && out1[i] == Rendered(sh, blocks, starts, n, v + 1, i).right
      ensures forall i :: n <= i < out0.Length ==> out0[i] == old(out0[i])
      ensures forall i :: n <= i < out1.Length ==> out1[i] == old(out1[i])
      ensures states[StateBend].state == SmoothStep(old(states[StateBend].state), states[StateBend].target)
      ensures Discrete(states[PolyModeState].target) == 2 ==> states[PortamentoState].state == old(states[PortamentoState].state)
      ensures Discrete(states[PolyModeState].target) != 2 ==>
        states[PortamentoState].state == SmoothStep(old(states[PortamentoState].state), states[PortamentoState].target)
      ensures voice.ampStage == blocks[v].ampAfter && voice.filterStage == blocks[v].filterAfter
    {
      RankedIsGenerated(sh, blocks[v], starts[v], PlayingBefore(starts, v), states[StateBend].state, states[PortamentoState].state);
      ghost var r := voice.Generate(blocks[v], n, states, states[StateBend], states[PolyModeState], states[PortamentoState], sampleRate, out0, out1);
      assert r == RankedRender(sh, blocks[v], starts[v], PlayingBefore(starts, v));
      RenderedPlaying(sh, blocks, starts, n, v);
    }

    /** note_off: every voice whose target note is `note`, playing or not, is
        gated off; the other voices are unchanged. */
    method NoteOff(note: nat)
      requires Valid()
      modifies voices
      ensures forall j :: 0 <= j < Polyphony ==>
        voices[j].View() == (if old(voices[j].targetNote) == note then SynthVoice.NoteOffView(old(voices[j].View())) else old(voices[j].View()))
        && voices[j].osc1 == old(voices[j].osc1) && voices[j].osc2 == old(voices[j].osc2)
      ensures forall j :: 0 <= j < Polyphony && old(voices[j].targetNote) != note ==> unchanged(voices[j])
    {
      for i := 0 to Polyphony
        invariant forall j :: 0 <= j < i ==>
          voices[j].View() == (if old(voices[j].targetNote) == note then SynthVoice.NoteOffView(old(voices[j].View())) else old(voices[j].View()))
          && voices[j].osc1 == old(voices[j].osc1) && voices[j].osc2 == old(voices[j].osc2)
        invariant forall j :: 0 <= j < i && old(voices[j].targetNote) != note ==> unchanged(voices[j])
        invariant forall j :: i <= j < Polyphony ==> unchanged(voices[j])
      {
        if voices[i].targetNote == note {
          voices[i].NoteOff();
        }
      }
    }

    /** pitch_bend as written: the bend cell's target becomes the code's
        value of the two data bytes, whose MSB weighs 256; its state is
        untouched. */
    method PitchBend(d1: nat, d2: nat)
      requires Valid()
      modifies states[StateBend]
      ensures states[StateBend].target == BendValueAsWritten(d1, d2)
      ensures states[StateBend].state == old(states[StateBend].state)
    {
      var bend := BendValueAsWritten(d1, d2);
      states[StateBend].Set(bend);
    }

    /** pitch_bend as MIDI 1.0 means it: the target becomes the Pitch Bend
        Change value of the two data bytes; the state is untouched. */
    method PitchBendCorrected(d1: nat, d2: nat)
      requires Valid()
      modifies states[StateBend]
      ensures states[StateBend].target == BendValue(d1, d2)
      ensures states[StateBend].state == old(states[StateBend].state)
    {
      var bend := BendValue(d1, d2);
      states[StateBend].Set(bend);
    }
  }
}
