/** Pitch and velocity conversion of the nih-plug engine (src/midi.rs):
    MIDI pitch to frequency, exactly and through two lookup tables, and
    MIDI velocity to amplitude. */
module Midi {
  import opened Numerics

  const A4Pitch: real := 69.0
  const A4Freq: real := 440.0

  const PitchTableSize: nat := 512
  const Pow2TableSize: nat := 1001

  /** Entry i of the PITCH table: the frequency ratio of i - 256 semitones. */
  function PitchEntry(m: Math, i: nat): real
    requires i < PitchTableSize
  {
    m.exp2((i as real - 256.0) / 12.0)
  }

  /** Entry i of the POW2 table: the frequency ratio of i thousandths of a semitone. */
  function Pow2Entry(m: Math, i: nat): real
    requires i < Pow2TableSize
  {
    m.exp2(i as real / 12000.0)
  }

  /** The lazily built PITCH table, filled by its initialising loop. */
  method BuildPitchTable(m: Math) returns (t: array<real>)
    ensures fresh(t) && t.Length == PitchTableSize
    ensures forall i :: 0 <= i < PitchTableSize ==> t[i] == PitchEntry(m, i)
  {
    t := new real[PitchTableSize];
    for i := 0 to PitchTableSize
      invariant forall k :: 0 <= k < i ==> t[k] == PitchEntry(m, k)
    {
      t[i] := PitchEntry(m, i);
    }
  }

  /** The lazily built POW2 table, filled by its initialising loop. */
  method BuildPow2Table(m: Math) returns (t: array<real>)
    ensures fresh(t) && t.Length == Pow2TableSize
    ensures forall i :: 0 <= i < Pow2TableSize ==> t[i] == Pow2Entry(m, i)
  {
    t := new real[Pow2TableSize];
    for i := 0 to Pow2TableSize
      invariant forall k :: 0 <= k < i ==> t[k] == Pow2Entry(m, k)
    {
      t[i] := Pow2Entry(m, i);
    }
  }

  /** The smallest pitch from which `pitch as i32` saturates at i32::MAX and
      the thousandths a reach 1000, so POW2[pow2idx + 1] lies past the table. */
  const Pow2Overrun: real := 2147483648.0

  /** `pitch as i32`: truncation toward zero, saturating at the i32 bounds. */
  function PitchInt(pitch: real): int
  {
    SaturateI32(Trunc(pitch))
  }

  /** i32 addition as a release build computes it, wrapping modulo 2^32; both
      operands are i32 values and b is small. */
  function WrappingAddI32(a: int, b: int): (r: int)
    requires I32Min <= a <= I32Max && -0x1000 <= b <= 0x1000
    ensures I32Min <= r <= I32Max
    ensures I32Min <= a + b <= I32Max ==> r == a + b
    ensures a + b > I32Max ==> r == a + b - 0x1_0000_0000
    ensures a + b < I32Min ==> r == a + b + 0x1_0000_0000
  {
    if a + b > I32Max then a + b - 0x1_0000_0000
    else if a + b < I32Min then a + b + 0x1_0000_0000
    else a + b
  }

  /** The PITCH index of a pitch: e = pitch_int + 256, then e - 69 clamped to
      the table, both sums wrapping as in a release build. Inside the table it
      is trunc(pitch) + 187, below it 0, above it 511; but within 187 of
      i32::MAX the two wraps carry the index round to 0. */
  function PitchIndex(pitch: real): (r: nat)
    ensures r < PitchTableSize
    ensures 0 <= Trunc(pitch) + 187 < PitchTableSize ==> r == Trunc(pitch) + 187
    ensures Trunc(pitch) + 187 < 0 ==> r == 0
    ensures PitchTableSize <= Trunc(pitch) + 187 && Trunc(pitch) <= I32Max - 187 ==> r == PitchTableSize - 1
    ensures I32Max - 187 < Trunc(pitch) ==> r == 0
  {
    var e := WrappingAddI32(PitchInt(pitch), 256);
    var d := WrappingAddI32(e, -69);
    if d < 0 then 0 else if d > PitchTableSize - 1 then PitchTableSize - 1 else d
  }

  /** The thousandths of a semitone, a = (pitch - pitch_int) * 1000: in
      [0, 1000) for a pitch in [0, 2^31), in (-1000, 0] for a negative pitch
      above i32::MIN - 1, and past those bounds once `as i32` saturates. */
  function CentsFraction(pitch: real): (a: real)
    ensures 0.0 <= pitch < Pow2Overrun ==> 0.0 <= a < 1000.0
    ensures (I32Min - 1) as real < pitch < 0.0 ==> -1000.0 < a <= 0.0
    ensures Pow2Overrun <= pitch ==> 1000.0 <= a
    ensures pitch <= (I32Min - 1) as real ==> a <= -1000.0
  {
    (pitch - PitchInt(pitch) as real) * 1000.0
  }

  /** The POW2 index `a as usize`: it and its successor are inside the table
      exactly for pitches below 2^31; from 2^31 on POW2[pow2idx + 1] is out of
      bounds and the program panics. A negative a saturates to 0. */
  function Pow2Index(pitch: real): (r: nat)
    ensures r + 1 < Pow2TableSize <==> pitch < Pow2Overrun
    ensures pitch < 0.0 ==> r == 0
  {
    TruncToUsize(CentsFraction(pitch))
  }

  /** midi_pitch_to_freq: the table approximation of 440 * 2^((pitch - 69) / 12),
      None exactly where the POW2 lookup panics. For a pitch in [0, 2^31) the
      POW2 interpolation weight lies in [0, 1), so the frequency is positive
      when 2^y is. */
  function MidiPitchToFreq(m: Math, pitch: real): (r: Option<real>)
    ensures r.None? <==> Pow2Overrun <= pitch
    ensures Exp2Positive(m) && 0.0 <= pitch < Pow2Overrun ==> 0.0 < r.value
  {
    var a := CentsFraction(pitch);
    var pow2idx := Pow2Index(pitch);
    if pow2idx + 1 >= Pow2TableSize then None
    else
      var pow2frac := a - pow2idx as real;
      var p := PitchEntry(m, PitchIndex(pitch));
      var pow2 := (1.0 - pow2frac) * Pow2Entry(m, pow2idx) + pow2frac * Pow2Entry(m, pow2idx + 1);
      assert Exp2Positive(m) && 0.0 <= pitch ==> 0.0 < A4Freq * p * pow2 by {
        if Exp2Positive(m) && 0.0 <= pitch {
          InterpolationWeightInUnit(pitch);
          var e0 := Pow2Entry(m, pow2idx);
          var e1 := Pow2Entry(m, pow2idx + 1);
          assert 0.0 < e0 && 0.0 < e1 && 0.0 < p;
          MulPositive(1.0 - pow2frac, e0);
          MulNonNeg(pow2frac, e1);
          MulPositive(A4Freq, p);
          MulPositive(A4Freq * p, pow2);
        }
      }
      Some(A4Freq * p * pow2)
  }

  /** midi_pitch_to_freq_slow: the exact equal-tempered frequency, positive when
      2^y is, and 440 Hz at A4 when 2^0 = 1. */
  function MidiPitchToFreqSlow(m: Math, pitch: real): (r: real)
    ensures Exp2Positive(m) ==> 0.0 < r
    ensures Exp2Zero(m) && pitch == A4Pitch ==> r == A4Freq
  {
    assert pitch == A4Pitch ==> (pitch - A4Pitch) / 12.0 == 0.0;
    m.exp2((pitch - A4Pitch) / 12.0) * A4Freq
  }

  /** For non-negative pitch the interpolation weight lies in [0, 1). */
  lemma InterpolationWeightInUnit(pitch: real)
    requires 0.0 <= pitch < Pow2Overrun
    ensures 0.0 <= CentsFraction(pitch) - Pow2Index(pitch) as real < 1.0
  {
  }

  /** At an integer pitch whose table index is not clamped the interpolation weight
      is 0 and the fast form equals the exact form. */
  lemma {:induction false} IntegerPitchIsExact(m: Math, p: int)
    requires Exp2Zero(m)
    requires 0 <= p + 187 < PitchTableSize
    ensures MidiPitchToFreq(m, p as real) == Some(MidiPitchToFreqSlow(m, p as real))
  {
    var x := p as real;
    assert Trunc(x) == p && PitchInt(x) == p;
    assert CentsFraction(x) == 0.0;
    assert Pow2Index(x) == 0;
    assert PitchIndex(x) == p + 187;
    assert Pow2Entry(m, 0) == 1.0;
    assert PitchEntry(m, p + 187) == m.exp2((x - A4Pitch) / 12.0);
    assert MidiPitchToFreq(m, x) == Some(A4Freq * PitchEntry(m, p + 187) * 1.0);
  }

  /** A4: pitch 69 maps to exactly 440 Hz in both forms. */
  lemma A4IsExact(m: Math)
    requires Exp2Zero(m)
    ensures MidiPitchToFreq(m, 69.0) == Some(440.0)
    ensures MidiPitchToFreqSlow(m, 69.0) == 440.0
  {
    IntegerPitchIsExact(m, 69);
  }

  /** Integer pitches below the table, down to i32::MIN, saturate to the value
      at the lowest entry. */
  lemma {:induction false} LowPitchesSaturate(m: Math, p: int)
    requires Exp2Zero(m)
    requires I32Min <= p < -187
    ensures MidiPitchToFreq(m, p as real) == Some(A4Freq * PitchEntry(m, 0))
  {
    var x := p as real;
    assert Trunc(x) == p && PitchInt(x) == p;
    assert CentsFraction(x) == 0.0;
    assert Pow2Index(x) == 0;
    assert Pow2Entry(m, 0) == 1.0;
  }

  /** Integer pitches above the table saturate to the value at the highest
      entry, as long as e - 69 does not wrap. */
  lemma {:induction false} HighPitchesSaturate(m: Math, p: int)
    requires Exp2Zero(m)
    requires PitchTableSize <= p + 187 && p <= I32Max - 187
    ensures MidiPitchToFreq(m, p as real) == Some(A4Freq * PitchEntry(m, PitchTableSize - 1))
  {
    var x := p as real;
    assert Trunc(x) == p && PitchInt(x) == p;
    assert CentsFraction(x) == 0.0;
    assert Pow2Index(x) == 0;
    assert Pow2Entry(m, 0) == 1.0;
  }

  /** Within 187 of i32::MAX the sums pitch_int + 256 and e - 69 wrap, and an
      integer pitch there reads the lowest PITCH entry instead of the highest. */
  lemma {:induction false} TopPitchesWrap(m: Math, p: int)
    requires Exp2Zero(m)
    requires I32Max - 187 < p <= I32Max
    ensures MidiPitchToFreq(m, p as real) == Some(A4Freq * PitchEntry(m, 0))
  {
    var x := p as real;
    assert Trunc(x) == p && PitchInt(x) == p;
    assert CentsFraction(x) == 0.0;
    assert Pow2Index(x) == 0;
    assert PitchIndex(x) == 0;
    assert Pow2Entry(m, 0) == 1.0;
  }

  const VelocityFloor: real := 0.023937

  /** midi_velocity_to_amplitude: (m * v + b)^2 with b = 0.023937 and m = (1 - b) / 127.
      Every velocity gives at least b^2, and a MIDI velocity (at most 127) at
      most 1. */
  function MidiVelocityToAmplitude(velocity: nat): (r: real)
    requires velocity < 256
    ensures VelocityFloor * VelocityFloor <= r
    ensures velocity <= 127 ==> r <= 1.0
  {
    var b := VelocityFloor;
    var slope := (1.0 - b) / 127.0;
    var v := velocity as real;
    var x := slope * v + b;
    assert b <= x by {
      MulNonNeg(slope, v);
    }
    assert velocity <= 127 ==> x <= 1.0 by {
      assert slope * 127.0 == 1.0 - b;
      if velocity <= 127 {
        MulNonNeg(slope, 127.0 - v);
      }
    }
    assert b * b <= x * x by {
      MulNonNeg(x - b, x + b);
    }
    assert velocity <= 127 ==> x * x <= 1.0 by {
      if velocity <= 127 {
        MulNonNeg(1.0 - x, 1.0 + x);
      }
    }
    (slope * v + b) * (slope * v + b)
  }

  /** Full velocity gives amplitude 1; velocity 0 gives b^2. */
  lemma VelocityEndpoints()
    ensures MidiVelocityToAmplitude(127) == 1.0
    ensures MidiVelocityToAmplitude(0) == VelocityFloor * VelocityFloor
  {
  }

  /** The velocity curve is strictly increasing. */
  lemma VelocityCurveIncreasing(v1: nat, v2: nat)
    requires v1 < v2 < 256
    ensures 0.0 < MidiVelocityToAmplitude(v1) < MidiVelocityToAmplitude(v2)
  {
    var b := VelocityFloor;
    var slope := (1.0 - b) / 127.0;
    var x1 := slope * v1 as real + b;
    var x2 := slope * v2 as real + b;
    assert 0.0 < x1 < x2;
    assert x2 * x2 - x1 * x1 == (x2 - x1) * (x2 + x1);
    assert 0.0 < (x2 - x1) * (x2 + x1);
  }
}
