/** What the voices of both engines share (src/synth/voice.rs, src/voice.rs):
    the unison detune and stereo-spread tables, the portamento glide of the
    current note, and the stereo mix of a carrier's unison oscillators. */
module Unison {

  /** A left/right sample pair. */
  datatype Stereo = Stereo(left: real, right: real)

  /** The largest unison count the tables provide for. */
  const MaxUnison: nat := 7

  /** UNISON_DETUNE_PATTERN[n]: the detune of each of n unison oscillators, in
      units of the unison-detune parameter. Row n has n entries in [-1, 1], and
      it is antisymmetric, so the unison voices are centred on the note. */
  function DetunePattern(n: nat): (r: seq<real>)
    requires n <= MaxUnison
    ensures |r| == n
    ensures forall i :: 0 <= i < n ==> -1.0 <= r[i] <= 1.0 && r[i] == -r[n - 1 - i]
  {
    match n
    case 0 => []
    case 1 => [0.0]
    case 2 => [-1.0, 1.0]
    case 3 => [-1.0, 0.0, 1.0]
    case 4 => [-1.0, -0.5, 0.5, 1.0]
    case 5 => [-1.0, -0.5, 0.0, 0.5, 1.0]
    case 6 => [-1.0, -0.6667, -0.3333, 0.3333, 0.6667, 1.0]
    case _ => [-1.0, -0.6667, -0.3333, 0.0, 0.3333, 0.6667, 1.0]
  }

  /** UNISON_SPREAD_PATTERN[n]: the stereo side of each of n unison oscillators.
      Row n has n entries, each hard left, centre or hard right, and they sum
      to 0: as much signal is panned left as right. */
  function SpreadPattern(n: nat): (r: seq<real>)
    requires n <= MaxUnison
    ensures |r| == n && Sum(r) == 0.0
    ensures forall i :: 0 <= i < n ==> r[i] == -1.0 || r[i] == 0.0 || r[i] == 1.0
  {
    match n
    case 0 => []
    case 1 => [0.0]
    case 2 => [-1.0, 1.0]
    case 3 => [-1.0, 0.0, 1.0]
    case 4 => [-1.0, 1.0, -1.0, 1.0]
    case 5 => [-1.0, 1.0, 0.0, 1.0, -1.0]
    case 6 => [-1.0, 1.0, -1.0, 1.0, -1.0, 1.0]
    case _ => [-1.0, 1.0, -1.0, 0.0, 1.0, -1.0, 1.0]
  }

  /** The sum of the first k entries of s. */
  function SumTo(s: seq<real>, k: nat): real
    requires k <= |s|
    decreases k
  {
    if k == 0 then 0.0 else SumTo(s, k - 1) + s[k - 1]
  }

  function Sum(s: seq<real>): real
  {
    SumTo(s, |s|)
  }

  /** One get_oscillator_semitone update of the current note: without portamento
      the note jumps to the target, otherwise it moves by 1/(100 * portamento) of
      the remaining distance. With 100 * portamento >= 1 it moves toward the
      target without overshooting it. */
  function Glide(note: real, target: real, portamento: real): (r: real)
    ensures portamento <= 0.0 ==> r == target
    ensures 1.0 <= 100.0 * portamento ==>
      (note <= target ==> note <= r <= target) && (target <= note ==> target <= r <= note)
  {
    if portamento <= 0.0 then target
    else
      var d := target - note;
      var w := 1.0 / (100.0 * portamento);
      assert d * 1.0 / (100.0 * portamento) == d * w;
      assert 1.0 <= 100.0 * portamento ==> 0.0 <= d * w <= d || d <= d * w <= 0.0 by {
        if 1.0 <= 100.0 * portamento {
          assert 0.0 < w <= 1.0 by {
            assert w * (100.0 * portamento) == 1.0;
          }
          if 0.0 <= d {
            assert d - d * w == d * (1.0 - w);
          } else {
            assert d * w - d == (-d) * (1.0 - w);
          }
        }
      }
      note + (target - note) * 1.0 / (100.0 * portamento)
  }

  /** k glide updates in a row. With 100 * portamento >= 1 they keep the note
      between where it started and the target. */
  function GlideN(note: real, target: real, portamento: real, k: nat): (r: real)
    ensures 1.0 <= 100.0 * portamento ==>
      (note <= target ==> note <= r <= target) && (target <= note ==> target <= r <= note)
    decreases k
  {
    if k == 0 then note else Glide(GlideN(note, target, portamento, k - 1), target, portamento)
  }

  /** Glides compose: a updates followed by b updates are a + b updates. */
  lemma {:induction false} GlideNAdd(note: real, target: real, portamento: real, a: nat, b: nat)
    ensures GlideN(GlideN(note, target, portamento, a), target, portamento, b) == GlideN(note, target, portamento, a + b)
    decreases b
  {
    if b > 0 {
      GlideNAdd(note, target, portamento, a, b - 1);
    }
  }

  /** 2^k for every integer k: the octave multiplier 2.0f64.powf(k) is exact for whole k. */
  function Pow2(k: int): (r: real)
    ensures 0.0 < r
    decreases if k < 0 then -k else k
  {
    if k == 0 then 1.0 else if 0 < k then 2.0 * Pow2(k - 1) else Pow2(k + 1) / 2.0
  }

  /** Each octave up doubles the multiplier, below 0 as well as above. */
  lemma {:induction false} Pow2Doubles(k: int)
    ensures Pow2(k + 1) == 2.0 * Pow2(k)
  {
    if k < -1 {
      assert Pow2(k) == Pow2(k + 1) / 2.0;
    }
  }

  /** Everything one carrier (osc1 or osc2) of a voice needs for one output
      sample: the sample its unison oscillator v produces at a frequency as
      sample `sample` of the block (out(sample, v, frequency)), the
      pitch-to-frequency conversion, the carrier's detune and octave, the unison
      detune and stereo spread, and the voice's bend, target note and portamento. */
  datatype Carrier = Carrier(
    out: (nat, nat, real) -> real,
    sample: nat,
    pitchToFreq: real -> real,
    detune: real,
    unisonDetune: real,
    spread: real,
    octave: int,
    bend: real,
    target: real,
    portamento: real)

  /** The detune argument generate passes to frequncy for a unison oscillator
      whose pattern entry is `side`: it already contains the bend. */
  function Detuned(detune: real, side: real, unisonDetune: real, bend: real): real
  {
    detune + side * unisonDetune + bend
  }

  /** A semitone converted to a frequency and multiplied by 2^octave. */
  function OctaveFrequency(pitchToFreq: real -> real, semitone: real, octave: int): real
  {
    pitchToFreq(semitone) * Pow2(octave)
  }

  /** The frequency unison oscillator v is asked for when the current note is
      `note`: get_oscillator_semitone adds the bend to a detune that already
      contains it, so the bend counts twice. */
  function UnisonFrequency(c: Carrier, detunePattern: seq<real>, note: real, v: nat): real
    requires v < |detunePattern|
  {
    OctaveFrequency(c.pitchToFreq, note + c.bend + Detuned(c.detune, detunePattern[v], c.unisonDetune, c.bend), c.octave)
  }

  /** The samples of a carrier's n unison oscillators, starting from current note
      `note`: oscillator v sees the note after v + 1 glide updates, since each
      frequncy call glides once. */
  function CarrierSamples(c: Carrier, detunePattern: seq<real>, note: real, n: nat): (r: seq<real>)
    requires n <= |detunePattern|
    ensures |r| == n
  {
    seq(n, v requires 0 <= v < n => CarrierSample(c, detunePattern, note, v))
  }

  /** Unison oscillator v's sample when the carrier's loop starts from note
      `note`: the oscillator sees the note after v + 1 glide updates. */
  function CarrierSample(c: Carrier, detunePattern: seq<real>, note: real, v: nat): real
    requires v < |detunePattern|
  {
    c.out(c.sample, v, UnisonFrequency(c, detunePattern, GlideN(note, c.target, c.portamento, v + 1), v))
  }

  /** The contribution of one unison oscillator's sample s: both channels alike
      with a single oscillator, otherwise left scaled by 1 - spread * side and
      right by 1 + spread * side. */
  function MixStep(acc: Stereo, s: real, single: bool, spread: real, side: real): Stereo
  {
    if single then Stereo(acc.left + s, acc.right + s)
    else Stereo(acc.left + s * LeftAmp(spread, side), acc.right + s * RightAmp(spread, side))
  }

  function LeftAmp(spread: real, side: real): real
  {
    1.0 - spread * side
  }

  function RightAmp(spread: real, side: real): real
  {
    1.0 + spread * side
  }

  /** The accumulation step of generate's unison loops: the sample goes to both
      channels alike when it is the only one, and is panned by the spread
      otherwise. */
  method Accumulate(mix: Stereo, monoSample: real, nvoices: nat, spread: real, side: real) returns (r: Stereo)
    ensures r == MixStep(mix, monoSample, nvoices == 1, spread, side)
    ensures nvoices == 1 ==> r.left - mix.left == r.right - mix.right
  {
    if nvoices == 1 {
      r := Stereo(mix.left + monoSample, mix.right + monoSample);
    } else {
      var leftAmp := LeftAmp(spread, side);
      var rightAmp := RightAmp(spread, side);
      r := Stereo(mix.left + monoSample * leftAmp, mix.right + monoSample * rightAmp);
    }
  }

  /** The stereo sum of the first k unison samples. */
  function Mix(mono: seq<real>, spread: real, pattern: seq<real>, k: nat): Stereo
    requires k <= |mono| <= |pattern|
    decreases k
  {
    if k == 0 then Stereo(0.0, 0.0)
    else MixStep(Mix(mono, spread, pattern, k - 1), mono[k - 1], |mono| == 1, spread, pattern[k - 1])
  }

  /** One more unison sample extends the mix by one MixStep. */
  lemma MixNext(mono: seq<real>, spread: real, pattern: seq<real>, k: nat)
    requires k < |mono| <= |pattern|
    ensures Mix(mono, spread, pattern, k + 1) == MixStep(Mix(mono, spread, pattern, k), mono[k], |mono| == 1, spread, pattern[k])
  {
  }

  /** unison_scale, 1 in both engines. */
  const UnisonScale: real := 1.0

  /** The two carriers' mixes, each scaled by unison_scale, summed. */
  function Sum2(m1: Stereo, m2: Stereo): Stereo
  {
    Stereo(m1.left * UnisonScale + m2.left * UnisonScale, m1.right * UnisonScale + m2.right * UnisonScale)
  }

  /** The mix of the first k of a carrier's n unison oscillators, as the
      accumulation loop of generate builds it. */
  function CarrierMix(c: Carrier, detunePattern: seq<real>, spreadPattern: seq<real>, note: real, n: nat, k: nat): Stereo
    requires k <= n <= |detunePattern| && n <= |spreadPattern|
    decreases k
  {
    if k == 0 then Stereo(0.0, 0.0)
    else MixStep(CarrierMix(c, detunePattern, spreadPattern, note, n, k - 1),
                 CarrierSample(c, detunePattern, note, k - 1), n == 1, c.spread, spreadPattern[k - 1])
  }

  /** The carrier's mix is Mix over its n samples, so every property of Mix
      holds for it. */
  lemma {:induction false} CarrierMixIsMix(c: Carrier, detunePattern: seq<real>, spreadPattern: seq<real>, note: real, n: nat, k: nat)
    requires k <= n <= |detunePattern| && n <= |spreadPattern|
    ensures CarrierMix(c, detunePattern, spreadPattern, note, n, k)
      == Mix(CarrierSamples(c, detunePattern, note, n), c.spread, spreadPattern, k)
    decreases k
  {
    if k > 0 {
      CarrierMixIsMix(c, detunePattern, spreadPattern, note, n, k - 1);
    }
  }

  /** sum over v < k of mono[v] * pattern[v]. */
  function Dot(mono: seq<real>, pattern: seq<real>, k: nat): real
    requires k <= |mono| && k <= |pattern|
    decreases k
  {
    if k == 0 then 0.0 else Dot(mono, pattern, k - 1) + mono[k - 1] * pattern[k - 1]
  }

  /** Channels sum - spread * dot (left) and sum + spread * dot (right). */
  function Sides(sum: real, spread: real, dot: real): Stereo
  {
    Stereo(sum - spread * dot, sum + spread * dot)
  }

  /** With several oscillators the channels are the plain sum, minus (left) and
      plus (right) spread times the pattern-weighted sum. */
  lemma {:induction false} MixSides(mono: seq<real>, spread: real, pattern: seq<real>, k: nat)
    requires k <= |mono| <= |pattern| && |mono| != 1
    ensures Mix(mono, spread, pattern, k) == Sides(SumTo(mono, k), spread, Dot(mono, pattern, k))
    decreases k
  {
    if k > 0 {
      MixSides(mono, spread, pattern, k - 1);
      var s, p := mono[k - 1], pattern[k - 1];
      var sum, dot := SumTo(mono, k - 1), Dot(mono, pattern, k - 1);
      assert Mix(mono, spread, pattern, k) == MixStep(Sides(sum, spread, dot), s, false, spread, p);
      SideStep(sum, dot, s, p, spread);
    }
  }

  /** One oscillator's step of MixSides. */
  lemma SideStep(sum: real, dot: real, s: real, p: real, spread: real)
    ensures MixStep(Sides(sum, spread, dot), s, false, spread, p) == Sides(sum + s, spread, dot + s * p)
  {
    var sp := s * p;
    assert spread * (dot + sp) == spread * dot + spread * sp;
    assert s * LeftAmp(spread, p) == s - spread * sp;
    assert s * RightAmp(spread, p) == s + spread * sp;
  }

  /** With one oscillator both channels carry its sample unchanged. */
  lemma OneVoiceIsCentred(mono: seq<real>, spread: real, pattern: seq<real>)
    requires |mono| == 1 <= |pattern|
    ensures Mix(mono, spread, pattern, 1) == Stereo(mono[0], mono[0])
  {
  }

  /** The two channels together always carry twice the sum of the samples. */
  lemma MixIsBalanced(mono: seq<real>, spread: real, pattern: seq<real>)
    requires |mono| <= |pattern|
    ensures Mix(mono, spread, pattern, |mono|).left + Mix(mono, spread, pattern, |mono|).right == 2.0 * Sum(mono)
  {
    if |mono| == 1 {
      assert Sum(mono) == mono[0];
    } else {
      MixSides(mono, spread, pattern, |mono|);
    }
  }

  /** A pattern-weighted sum of equal samples is the sample times the pattern's sum. */
  lemma {:induction false} DotOfConstant(mono: seq<real>, pattern: seq<real>, c: real, k: nat)
    requires k <= |mono| && k <= |pattern|
    requires forall v :: 0 <= v < |mono| ==> mono[v] == c
    ensures Dot(mono, pattern, k) == c * SumTo(pattern, k)
    decreases k
  {
    if k > 0 {
      DotOfConstant(mono, pattern, c, k - 1);
      var p := pattern[k - 1];
      assert c * SumTo(pattern, k) == c * SumTo(pattern, k - 1) + c * p;
    }
  }

  /** Equal samples mixed with a pattern that sums to 0 are equally loud in both channels. */
  lemma BalancedPatternCentres(mono: seq<real>, spread: real, pattern: seq<real>, c: real)
    requires |mono| == |pattern| && Sum(pattern) == 0.0
    requires forall v :: 0 <= v < |mono| ==> mono[v] == c
    ensures Mix(mono, spread, pattern, |mono|).left == Mix(mono, spread, pattern, |mono|).right
  {
    if |mono| != 1 {
      MixSides(mono, spread, pattern, |mono|);
      DotOfConstant(mono, pattern, c, |mono|);
      assert Dot(mono, pattern, |mono|) == c * 0.0;
    }
  }

  /** Since every spread row sums to 0, equal samples from all unison oscillators
      end up equally loud in both channels. */
  lemma EqualSamplesAreCentred(mono: seq<real>, spread: real, c: real)
    requires |mono| <= MaxUnison
    requires forall v :: 0 <= v < |mono| ==> mono[v] == c
    ensures Mix(mono, spread, SpreadPattern(|mono|), |mono|).left == Mix(mono, spread, SpreadPattern(|mono|), |mono|).right
  {
    BalancedPatternCentres(mono, spread, SpreadPattern(|mono|), c);
  }
}
