/** The band-limited oscillator of the VST engine (src/synth/oscillator.rs):
    a phase accumulator with one wrap rule per waveform, and the ring buffer of
    pending BLEP corrections that the Saw and Square waves add around each
    discontinuity and consume one slot per sample. */
module Oscillator {
  import opened Numerics

  datatype WaveForm = Saw | Square | Sine | UnipolarSquare | Triangle

  /** The position of a waveform in the enum's declaration. */
  function Ordinal(w: WaveForm): nat
  {
    match w
    case Saw => 0
    case Square => 1
    case Sine => 2
    case UnipolarSquare => 3
    case Triangle => 4
  }

  /** From<i32>: 0..4 in declaration order; any other integer panics (None). */
  function FromInt(n: int): (r: Option<WaveForm>)
    ensures r.Some? <==> 0 <= n <= 4
    ensures r.Some? ==> Ordinal(r.value) == n
  {
    if n == 0 then Some(Saw)
    else if n == 1 then Some(Square)
    else if n == 2 then Some(Sine)
    else if n == 3 then Some(UnipolarSquare)
    else if n == 4 then Some(Triangle)
    else None
  }

  /** Decoding inverts the declaration order. */
  lemma FromIntOrdinal(w: WaveForm)
    ensures FromInt(Ordinal(w) as int) == Some(w)
  {
  }

  /** Display: the unipolar square prints as "Square". */
  function Name(w: WaveForm): (r: string)
    ensures r == "Square" <==> w == Square || w == UnipolarSquare
  {
    match w
    case Saw => "Saw"
    case Square => "Square"
    case Sine => "Sine"
    case UnipolarSquare => "Square"
    case Triangle => "Triangle"
  }

  /** Square and UnipolarSquare are the only two waveforms that print alike. */
  lemma NamesCollideOnlyForSquares(w1: WaveForm, w2: WaveForm)
    ensures Name(w1) == Name(w2) <==> (w1 == w2 || {w1, w2} == {Square, UnipolarSquare})
  {
  }

  /** lerp: linear interpolation from a (frac = 0) to b (frac = 1). */
  function Lerp(a: real, b: real, frac: real): (r: real)
    ensures frac == 0.0 ==> r == a
    ensures frac == 1.0 ==> r == b
  {
    (b - a) * frac + a
  }

  /** With a weight in [0, 1] the interpolated value lies between the endpoints. */
  lemma LerpBetween(a: real, b: real, frac: real)
    requires 0.0 <= frac <= 1.0
    ensures Min(a, b) <= Lerp(a, b, frac) <= Max(a, b)
  {
    var d := b - a;
    assert Lerp(a, b, frac) == d * frac + a;
    if a <= b {
      MulBetween(d, frac);
    } else {
      var e := a - b;
      MulBetween(e, frac);
      assert d * frac == -(e * frac);
    }
  }

  /** A non-negative d scaled by a weight in [0, 1] lies in [0, d]. */
  lemma MulBetween(d: real, frac: real)
    requires 0.0 <= d && 0.0 <= frac <= 1.0
    ensures 0.0 <= d * frac <= d
  {
    assert d - d * frac == d * (1.0 - frac);
  }

  /** f64::consts::PI. */
  const Pi: real := 3.141592653589793

  /** The BLEP table of src/synth/blep.rs, which is not part of this model: the
      oversampling factor KTABLE, the lengths BLEPLEN and BLEPDATA.len(), and the
      table entries as a function of the index. */
  datatype Blep = Blep(kTable: nat, blepLen: nat, dataLen: nat, data: nat -> real)

  /** The ring-buffer length BLEPLEN / KTABLE. */
  function BufferLen(b: Blep): nat
    requires 0 < b.kTable
  {
    b.blepLen / b.kTable
  }

  /** c_blep = BLEPDATA.len() / KTABLE - 1, the number of slots one discontinuity writes. */
  function CBlep(b: Blep): nat
    requires 0 < b.kTable <= b.dataLen
  {
    b.dataLen / b.kTable - 1
  }

  /** The table is usable: a non-empty ring buffer that holds every correction slot. */
  predicate BlepValid(b: Blep)
  {
    0 < b.kTable <= b.dataLen && 0 < BufferLen(b) && CBlep(b) <= BufferLen(b)
  }

  /** The position of a discontinuity in the oversampled table, KTABLE * offset. */
  function TapPos(b: Blep, offset: real): real
  {
    b.kTable as real * offset
  }

  /** The table index of the first correction, (KTABLE * offset).floor() as usize. */
  function TapIndex(b: Blep, offset: real): nat
  {
    TruncToUsize(TapPos(b, offset).Floor as real)
  }

  /** x % 1.0 on a float: the remainder after truncation toward zero. */
  function FRem1(x: real): (r: real)
    ensures 0.0 <= x ==> 0.0 <= r < 1.0
    ensures x < 0.0 ==> -1.0 < r <= 0.0
  {
    x - Trunc(x) as real
  }

  /** The table index of correction j: KTABLE further per slot. */
  function TapAt(b: Blep, offset: real, j: nat): nat
  {
    TapIndex(b, offset) + j * b.kTable
  }

  /** The interpolation weight, KTABLE * offset % 1.0 (remainder of truncation). */
  function TapFrac(b: Blep, offset: real): real
  {
    FRem1(TapPos(b, offset))
  }

  /** The value correction j of a step of height amp contributes: amp * (1 - f). */
  function Correction(b: Blep, offset: real, amp: real, j: nat): real
  {
    var i := TapAt(b, offset, j);
    var f := Lerp(b.data(i), b.data(i + 1), TapFrac(b, offset));
    amp * (1.0 - f)
  }

  /** How far slot k lies after slot i, going round a ring of length len. */
  function Dist(k: nat, i: nat, len: nat): (d: nat)
    requires k < len && i < len
    ensures d < len
  {
    if k >= i then k - i else k + len - i
  }

  /** The slot j places after slot i on a ring of length len. */
  function Ahead(i: nat, j: nat, len: nat): (k: nat)
    requires i < len && j < len
    ensures k < len && Dist(k, i, len) == j
  {
    if i + j < len then i + j else i + j - len
  }

  /** The buffer after add_blep has written its first t corrections from slot i:
      the first nInit of them added to what is there, the others stored. */
  function BlepWritten(buf: seq<real>, i: nat, nInit: nat, t: nat, b: Blep, offset: real, amp: real): (r: seq<real>)
    requires i < |buf|
    ensures |r| == |buf|
  {
    seq(|buf|, k requires 0 <= k < |buf| =>
      var j := Dist(k, i, |buf|);
      if j < t then
        (if j < nInit then buf[k] + Correction(b, offset, amp, j) else Correction(b, offset, amp, j))
      else buf[k])
  }

  /** add_blep writes exactly the c slots i, i+1, ... (cyclically): correction j goes
      to slot Ahead(i, j), accumulated for j < nInit and stored otherwise, and every
      other slot keeps its value. */
  lemma {:induction false} BlepWrittenSlots(buf: seq<real>, i: nat, nInit: nat, c: nat, b: Blep, offset: real, amp: real)
    requires i < |buf| && c <= |buf|
    ensures var r := BlepWritten(buf, i, nInit, c, b, offset, amp);
      && (forall j :: 0 <= j < c && j < nInit ==>
            r[Ahead(i, j, |buf|)] == buf[Ahead(i, j, |buf|)] + Correction(b, offset, amp, j))
      && (forall j :: nInit <= j < c ==> r[Ahead(i, j, |buf|)] == Correction(b, offset, amp, j))
      && (forall k :: 0 <= k < |buf| && (forall j :: 0 <= j < c ==> k != Ahead(i, j, |buf|)) ==> r[k] == buf[k])
  {
    var r := BlepWritten(buf, i, nInit, c, b, offset, amp);
    forall k | 0 <= k < |buf| && (forall j :: 0 <= j < c ==> k != Ahead(i, j, |buf|))
      ensures r[k] == buf[k]
    {
      var d := Dist(k, i, |buf|);
      if d < c {
        AheadOfDist(k, i, |buf|);
        assert false;
      }
    }
  }

  lemma AheadOfDist(k: nat, i: nat, len: nat)
    requires k < len && i < len
    ensures Ahead(i, Dist(k, i, len), len) == k
  {
  }

  /** Writing correction t into its slot extends the written prefix by one. */
  lemma BlepWrittenStep(buf: seq<real>, i: nat, nInit: nat, t: nat, b: Blep, offset: real, amp: real)
    requires i < |buf| && t < |buf|
    ensures var k := Ahead(i, t, |buf|);
      var cur := BlepWritten(buf, i, nInit, t, b, offset, amp);
      && cur[k] == buf[k]
      && BlepWritten(buf, i, nInit, t + 1, b, offset, amp)
         == cur[k := if t < nInit then cur[k] + Correction(b, offset, amp, t) else Correction(b, offset, amp, t)]
  {
  }

  lemma TapAtNext(b: Blep, offset: real, t: nat)
    ensures TapAt(b, offset, t + 1) == TapAt(b, offset, t) + b.kTable
  {
    assert (t + 1) * b.kTable == t * b.kTable + b.kTable;
  }

  /** The last correction reads furthest into the table, and its read of
      BLEPDATA[in_index + 1] is in bounds exactly when floor(KTABLE * offset) + 1
      stays below 2 KTABLE + BLEPDATA.len() % KTABLE; past that add_blep panics. */
  lemma {:induction false} LastTapInTable(b: Blep, offset: real)
    requires BlepValid(b) && 0 < CBlep(b)
    ensures forall j: nat :: j < CBlep(b) ==> TapAt(b, offset, j) <= TapAt(b, offset, CBlep(b) - 1)
    ensures TapAt(b, offset, CBlep(b) - 1) + 1 < b.dataLen
        <==> TapIndex(b, offset) + 1 < 2 * b.kTable + b.dataLen % b.kTable
  {
    var k, q := b.kTable, b.dataLen / b.kTable;
    assert b.dataLen == q * k + b.dataLen % k;
    assert (CBlep(b) - 1) * k == q * k - 2 * k;
    forall j: nat | j < CBlep(b)
      ensures TapAt(b, offset, j) <= TapAt(b, offset, CBlep(b) - 1)
    {
      MulLeft(j, CBlep(b) - 1, k);
    }
  }

  /** Multiplication by a natural number is monotone. */
  lemma MulLeft(i: nat, j: nat, k: nat)
    requires i <= j
    ensures i * k <= j * k
  {
  }

  /** Every read of add_blep at this offset, BLEPDATA[in_index] and
      BLEPDATA[in_index + 1] for each of the c_blep corrections, is inside the table. */
  predicate TapsInTable(b: Blep, offset: real)
    requires BlepValid(b)
  {
    forall j: nat :: j < CBlep(b) ==> TapAt(b, offset, j) + 1 < b.dataLen
  }

  /** For an offset in [0, 1] (KTABLE of at least 2 for the end point 1) every
      read of add_blep is inside the table, so the total table of the model
      agrees with the program there. */
  lemma {:induction false} UnitOffsetInTable(b: Blep, offset: real)
    requires BlepValid(b) && 0 < CBlep(b)
    requires 0.0 <= offset <= 1.0 && (offset < 1.0 || 2 <= b.kTable)
    ensures TapsInTable(b, offset)
  {
    var k := b.kTable as real;
    assert 0.0 <= TapPos(b, offset) <= k by {
      MulNonNeg(k, offset);
      MulNonNeg(k, 1.0 - offset);
    }
    assert offset < 1.0 ==> TapPos(b, offset) < k by {
      if offset < 1.0 {
        MulPositive(k, 1.0 - offset);
      }
    }
    assert TapIndex(b, offset) <= b.kTable;
    assert offset < 1.0 ==> TapIndex(b, offset) < b.kTable;
    LastTapInTable(b, offset);
  }

  /** A Saw wrap with 0 < dp <= 1 from a phase in [0, 1] has its offset
      (phase - 1) / dp in (0, 1], so its corrections read inside the table. */
  lemma {:induction false} SawWrapReadsInTable(b: Blep, phase: real, dp: real)
    requires BlepValid(b) && 0 < CBlep(b) && 2 <= b.kTable
    requires 0.0 < dp <= 1.0 && 0.0 <= phase <= 1.0 && 1.0 < phase + dp
    ensures 0.0 < (phase + dp - 1.0) / dp <= 1.0
    ensures TapsInTable(b, (phase + dp - 1.0) / dp)
  {
    var offset := (phase + dp - 1.0) / dp;
    assert offset * dp == phase + dp - 1.0;
    assert offset <= 1.0 by {
      if offset > 1.0 {
        MulPositive(offset - 1.0, dp);
      }
    }
    UnitOffsetInTable(b, offset);
  }

  /** With dp > 1 the Saw phase grows and its offset with it: for a table of
      KTABLE 64 and 192 entries, a wrap at offset 3.5 / 1.5 has its second
      correction read BLEPDATA[214], where the program panics. */
  lemma OverrunAtLargeOffset()
    ensures var b := Blep(64, 128, 192, _ => 0.0);
      && BlepValid(b) && CBlep(b) == 2
      && b.dataLen <= TapAt(b, 3.5 / 1.5, CBlep(b) - 1) + 1
  {
    var b := Blep(64, 128, 192, _ => 0.0);
    assert TapPos(b, 3.5 / 1.5) == 149.0 + 1.0 / 3.0;
    assert TapPos(b, 3.5 / 1.5).Floor == 149;
  }

  /** One iteration of either add_blep loop: the table index and weight give
      correction t, its slot still holds its original value, writing it extends
      the written prefix, and the table index moves on by KTABLE. */
  lemma SlotStep(buf: seq<real>, i: nat, nInit: nat, t: nat, b: Blep, offset: real, amp: real,
                 inIndex: nat, frac: real, f: real, v: real, k: nat)
    requires i < |buf| && t < |buf| && k == Ahead(i, t, |buf|)
    requires inIndex == TapAt(b, offset, t) && frac == TapFrac(b, offset)
    requires f == Lerp(b.data(inIndex), b.data(inIndex + 1), frac) && v == amp * (1.0 - f)
    ensures v == Correction(b, offset, amp, t)
    ensures var cur := BlepWritten(buf, i, nInit, t, b, offset, amp);
      && cur[k] == buf[k]
      && BlepWritten(buf, i, nInit, t + 1, b, offset, amp) == cur[k := if t < nInit then cur[k] + v else v]
    ensures TapAt(b, offset, t + 1) == inIndex + b.kTable
  {
    BlepWrittenStep(buf, i, nInit, t, b, offset, amp);
    TapAtNext(b, offset, t);
  }

  /** Everything generate reads and writes, as a value. */
  datatype OscState = OscState(buffer: seq<real>, iBuffer: nat, nInit: nat, phase: real)

  /** The cursor and counter bounds generate and add_blep keep. */
  predicate StateValid(b: Blep, s: OscState)
  {
    BlepValid(b) && |s.buffer| == BufferLen(b) && s.iBuffer < |s.buffer| && s.nInit <= CBlep(b)
  }

  /** add_blep on a snapshot. */
  function AddBlepState(b: Blep, s: OscState, offset: real, amp: real): (r: OscState)
    requires StateValid(b, s)
    ensures StateValid(b, r)
  {
    s.(buffer := BlepWritten(s.buffer, s.iBuffer, s.nInit, CBlep(b), b, offset, amp), nInit := CBlep(b))
  }

  /** The wrap rule of Saw, Sine, UnipolarSquare and Triangle: only above 1. */
  function Wrap(p: real): real
  {
    if p > 1.0 then p - 1.0 else p
  }

  /** The end of generate for Saw and Square: take the pending correction, if
      any, and scale the corrected 0..1 signal to -amp..amp. */
  function Consume(s: OscState, wave: real, amplitude: real): (OscState, real)
    requires s.iBuffer < |s.buffer|
  {
    if s.nInit > 0 then
      var next := if s.iBuffer + 1 >= |s.buffer| then 0 else s.iBuffer + 1;
      (s.(nInit := s.nInit - 1, iBuffer := next), Bipolar(wave + s.buffer[s.iBuffer], amplitude))
    else
      (s, Bipolar(wave + 0.0, amplitude))
  }

  /** Scale a 0..1 wave to -amp..amp. */
  function Bipolar(wave: real, amplitude: real): real
  {
    (2.0 * wave - 1.0) * amplitude
  }

  /** The naive triangle of a phase. */
  function TriangleWave(ph: real): real
  {
    if ph > 0.5 then 2.0 - 2.0 * ph else 2.0 * ph
  }

  /** The naive pulse: 1 exactly when 0 < phase <= width. */
  function Pulse(ph: real, width: real): real
  {
    if ph > 0.0 && ph <= width then 1.0 else 0.0
  }

  /** A value times a factor, kept as one term. */
  function Scale(x: real, k: real): real
  {
    x * k
  }

  /** The Square wave's phase step: a crossing of the pulse width adds a rising
      correction and does not also wrap; otherwise a wrap adds a falling one. */
  function SquareStep(b: Blep, s: OscState, p: real, dp: real, pw: real): (r: OscState)
    requires StateValid(b, s) && dp != 0.0
    ensures StateValid(b, r)
  {
    if p > pw && p - dp <= pw then AddBlepState(b, s.(phase := p), (p - pw) / dp, 1.0)
    else if p > 1.0 then AddBlepState(b, s.(phase := p - 1.0), (p - 1.0) / dp, -1.0)
    else s.(phase := p)
  }

  /** The Saw wave's phase step: a wrap adds a rising correction. */
  function SawStep(b: Blep, s: OscState, p: real, dp: real): (r: OscState)
    requires StateValid(b, s) && dp != 0.0
    ensures StateValid(b, r)
  {
    if p > 1.0 then AddBlepState(b, s.(phase := p - 1.0), (p - 1.0) / dp, 1.0)
    else s.(phase := p)
  }

  /** The first half of generate: the phase after one step of dp, with the
      corrections the step's discontinuity adds. */
  function PhaseStep(b: Blep, s: OscState, waveform: WaveForm, dp: real, pw: real): (r: OscState)
    requires StateValid(b, s) && dp != 0.0
    ensures StateValid(b, r)
  {
    var p := s.phase + dp;
    match waveform
    case Saw => SawStep(b, s, p, dp)
    case Square => SquareStep(b, s, p, dp, pw)
    case _ => s.(phase := Wrap(p))
  }

  /** The naive 0..1 (or, for Sine, -1..1) wave at the new phase. */
  function NaiveWave(m: Math, waveform: WaveForm, ph: real, pw: real): real
  {
    match waveform
    case Saw => ph
    case Sine => m.sin(2.0 * Pi * ph)
    case Square => Pulse(ph, pw)
    case UnipolarSquare => Pulse(ph, 0.5)
    case Triangle => TriangleWave(ph)
  }

  /** One call of generate on a snapshot: the new state and the sample. */
  function GenerateSpec(b: Blep, m: Math, s: OscState, waveform: WaveForm, freq: real,
                        amplitude: real, pulseWidth: real, sampleRate: real): (r: (OscState, real))
    requires StateValid(b, s) && sampleRate != 0.0
    ensures StateValid(b, r.0)
  {
    if freq <= 0.0 then (s, 0.0)
    else
      var dp := freq / sampleRate;
      assert dp != 0.0;
      var s1 := PhaseStep(b, s, waveform, dp, pulseWidth);
      Finish(waveform, s1, NaiveWave(m, waveform, s1.phase, pulseWidth), amplitude)
  }

  /** The second half of generate: scale the wave, taking a pending correction
      for Saw and Square. */
  function Finish(waveform: WaveForm, s1: OscState, wave: real, amplitude: real): (r: (OscState, real))
    requires s1.iBuffer < |s1.buffer|
  {
    match waveform
    case Sine => (s1, Scale(wave, amplitude))
    case UnipolarSquare => (s1, Scale(wave, amplitude))
    case Triangle => (s1, Bipolar(wave, amplitude))
    case _ => Consume(s1, wave, amplitude)
  }

  /** A non-positive frequency produces silence and changes nothing. */
  lemma SilentAtNonPositiveFreq(b: Blep, m: Math, s: OscState, w: WaveForm, freq: real,
                               amplitude: real, pw: real, sr: real)
    requires StateValid(b, s) && sr != 0.0 && freq <= 0.0
    ensures GenerateSpec(b, m, s, w, freq, amplitude, pw, sr) == (s, 0.0)
  {
  }

  /** Sine, Triangle and UnipolarSquare move only the phase. */
  lemma NaiveWavesKeepBuffer(b: Blep, m: Math, s: OscState, w: WaveForm, freq: real,
                             amplitude: real, pw: real, sr: real)
    requires StateValid(b, s) && sr != 0.0
    requires w in {Sine, Triangle, UnipolarSquare}
    ensures var r := GenerateSpec(b, m, s, w, freq, amplitude, pw, sr).0;
      r.buffer == s.buffer && r.iBuffer == s.iBuffer && r.nInit == s.nInit
  {
  }

  /** Saw and Square consume at most one pending correction per call: with no
      discontinuity in this sample the buffer is unchanged and, if a correction is
      pending, it is taken from slot i_buffer, which then advances cyclically; with
      a discontinuity the c_blep new corrections are written and the first is taken. */
  lemma {:induction false} GenerateConsumesOne(b: Blep, m: Math, s: OscState, w: WaveForm, freq: real,
                                               amplitude: real, pw: real, sr: real)
    requires StateValid(b, s) && sr != 0.0 && 0.0 < freq
    requires w in {Saw, Square}
    ensures var r := GenerateSpec(b, m, s, w, freq, amplitude, pw, sr).0;
      var len := |s.buffer|;
      var step := if s.iBuffer + 1 >= len then 0 else s.iBuffer + 1;
      || (r.buffer == s.buffer
          && (s.nInit == 0 ==> r.iBuffer == s.iBuffer && r.nInit == 0)
          && (s.nInit > 0 ==> r.iBuffer == step && r.nInit == s.nInit - 1))
      || (|r.buffer| == len
          && (CBlep(b) == 0 ==> r.iBuffer == s.iBuffer && r.nInit == 0)
          && (CBlep(b) > 0 ==> r.iBuffer == step && r.nInit == CBlep(b) - 1))
  {
  }

  /** With a step 0 < dp <= 1 the wrapping waveforms keep the phase in [0, 1];
      a phase of exactly 1 is kept, not wrapped. */
  lemma WrapKeepsPhaseInUnit(b: Blep, m: Math, s: OscState, w: WaveForm, freq: real,
                             amplitude: real, pw: real, sr: real)
    requires StateValid(b, s) && sr != 0.0
    requires w in {Saw, Sine, UnipolarSquare, Triangle}
    requires 0.0 <= s.phase <= 1.0 && 0.0 < freq / sr <= 1.0
    ensures 0.0 <= GenerateSpec(b, m, s, w, freq, amplitude, pw, sr).0.phase <= 1.0
    ensures s.phase + freq / sr == 1.0 && 0.0 < freq ==> GenerateSpec(b, m, s, w, freq, amplitude, pw, sr).0.phase == 1.0
  {
  }

  /** A Square step that crosses the pulse width does not wrap in the same call,
      so the phase can end above 1: from 0.4 with width 0.5 and step 0.7 it is 1.1. */
  lemma SquareCanOvershoot(b: Blep, m: Math, s: OscState, amplitude: real)
    requires StateValid(b, s) && s.phase == 0.4
    ensures GenerateSpec(b, m, s, Square, 0.7, amplitude, 0.5, 1.0).0.phase == 1.1
  {
  }

  /** The unipolar square is always 0 or the amplitude. */
  lemma UnipolarSquareOutput(b: Blep, m: Math, s: OscState, freq: real, amplitude: real, pw: real, sr: real)
    requires StateValid(b, s) && sr != 0.0 && 0.0 < freq
    ensures var out := GenerateSpec(b, m, s, UnipolarSquare, freq, amplitude, pw, sr).1;
      out == 0.0 || out == amplitude
  {
  }

  /** With amplitude >= 0 and the phase in [0, 1] the triangle stays in
      [-amplitude, amplitude]. */
  lemma TriangleOutputBounded(b: Blep, m: Math, s: OscState, freq: real, amplitude: real, pw: real, sr: real)
    requires StateValid(b, s) && sr != 0.0
    requires 0.0 <= amplitude && 0.0 <= s.phase <= 1.0 && 0.0 < freq && 0.0 < freq / sr <= 1.0
    ensures -amplitude <= GenerateSpec(b, m, s, Triangle, freq, amplitude, pw, sr).1 <= amplitude
  {
    var dp := freq / sr;
    var ph := Wrap(s.phase + dp);
    var t := TriangleWave(ph);
    assert GenerateSpec(b, m, s, Triangle, freq, amplitude, pw, sr).1 == Bipolar(t, amplitude);
    assert 0.0 <= t <= 1.0;
    BipolarBound(t, amplitude);
  }

  lemma BipolarBound(w: real, a: real)
    requires 0.0 <= w <= 1.0 && 0.0 <= a
    ensures -a <= Bipolar(w, a) <= a
  {
    var x := 2.0 * w - 1.0;
    assert Bipolar(w, a) == x * a;
    var u := 1.0 - x;
    var v := x + 1.0;
    MulNonNeg(u, a);
    MulNonNeg(v, a);
    assert a - x * a == u * a;
    assert x * a + a == v * a;
  }

  /** An oscillator: its ring buffer of pending corrections, the read cursor, the
      number of pending corrections and the phase. */
  class Osc {
    const blep: Blep
    const buffer: array<real>
    var iBuffer: nat
    var nInit: nat
    var phase: real

    predicate Valid()
      reads this
    {
      BlepValid(blep) && buffer.Length == BufferLen(blep) && iBuffer < buffer.Length && nInit <= CBlep(blep)
    }

    ghost function State(): OscState
      reads this, buffer
    {
      OscState(buffer[..], iBuffer, nInit, phase)
    }

    /** new: an empty buffer and a random starting phase in [0, 1). */
    constructor (blep: Blep)
      requires BlepValid(blep)
      ensures this.blep == blep && Valid() && fresh(buffer)
      ensures buffer[..] == seq(BufferLen(blep), _ => 0.0)
      ensures iBuffer == 0 && nInit == 0 && 0.0 <= phase < 1.0
    {
      this.blep := blep;
      buffer := new real[BufferLen(blep)](_ => 0.0);
      iBuffer := 0;
      nInit := 0;
      var p: real :| 0.0 <= p < 1.0;
      phase := p;
    }

    /** add_blep: accumulate into the nInit pending slots from i_buffer on, store
        into the rest of the c_blep slots, then mark c_blep as pending. */
    method AddBlep(offset: real, amp: real)
      requires Valid()
      modifies this`nInit, buffer
      ensures Valid() && nInit == CBlep(blep)
      ensures buffer[..] == BlepWritten(old(buffer[..]), iBuffer, old(nInit), CBlep(blep), blep, offset, amp)
    {
      ghost var buf := buffer[..];
      var outIndex := iBuffer;
      var pos := TapPos(blep, offset);
      var inIndex := TruncToUsize(pos.Floor as real);
      var frac := FRem1(pos);
      var cBlep := blep.dataLen / blep.kTable - 1;
      assert nInit <= cBlep == CBlep(blep) <= buffer.Length;
      assert frac == TapFrac(blep, offset);
      outIndex, inIndex := AddLoop(buf, offset, amp, outIndex, inIndex, frac);
      CopyLoop(buf, offset, amp, cBlep, outIndex, inIndex, frac);
      nInit := cBlep;
    }

    /** The first loop of add_blep: correction t (t < nInit) is added to slot
        Ahead(i_buffer, t); returns the advanced output and table cursors. */
    method AddLoop(ghost buf: seq<real>, offset: real, amp: real, outIndex0: nat, inIndex0: nat, frac: real)
        returns (outIndex: nat, inIndex: nat)
      requires Valid() && buffer[..] == buf && nInit <= CBlep(blep)
      requires outIndex0 == iBuffer && inIndex0 == TapAt(blep, offset, 0) && frac == TapFrac(blep, offset)
      modifies buffer
      ensures nInit == 0 ==> outIndex == iBuffer
      ensures nInit > 0 ==> outIndex == Ahead(iBuffer, nInit - 1, buffer.Length) + 1
      ensures inIndex == TapAt(blep, offset, nInit)
      ensures buffer[..] == BlepWritten(buf, iBuffer, nInit, nInit, blep, offset, amp)
    {
      var len := buffer.Length;
      var start := iBuffer;
      var n := nInit;
      outIndex, inIndex := outIndex0, inIndex0;
      for t := 0 to n
        invariant t == 0 ==> outIndex == start
        invariant t > 0 ==> outIndex == Ahead(start, t - 1, len) + 1
        invariant inIndex == TapAt(blep, offset, t)
        invariant buffer[..] == BlepWritten(buf, start, n, t, blep, offset, amp)
      {
        if outIndex >= len {
          outIndex := 0;
        }
        var f := Lerp(blep.data(inIndex), blep.data(inIndex + 1), frac);
        var v := amp * (1.0 - f);
        assert outIndex == Ahead(start, t, len);
        SlotStep(buf, start, n, t, blep, offset, amp, inIndex, frac, f, v, outIndex);
        ghost var cur := buffer[..];
        buffer[outIndex] := buffer[outIndex] + v;
        assert buffer[..] == cur[outIndex := cur[outIndex] + v];
        inIndex := inIndex + blep.kTable;
        outIndex := outIndex + 1;
      }
    }

    /** The second loop of add_blep: correction t (nInit <= t < c_blep) is stored
        into slot Ahead(i_buffer, t). */
    method CopyLoop(ghost buf: seq<real>, offset: real, amp: real, cBlep: nat, outIndex0: nat, inIndex0: nat, frac: real)
      requires Valid() && cBlep == CBlep(blep) && |buf| == buffer.Length
      requires nInit == 0 ==> outIndex0 == iBuffer
      requires nInit > 0 ==> outIndex0 == Ahead(iBuffer, nInit - 1, buffer.Length) + 1
      requires inIndex0 == TapAt(blep, offset, nInit) && frac == TapFrac(blep, offset)
      requires buffer[..] == BlepWritten(buf, iBuffer, nInit, nInit, blep, offset, amp)
      modifies buffer
      ensures buffer[..] == BlepWritten(buf, iBuffer, nInit, cBlep, blep, offset, amp)
    {
      var len := buffer.Length;
      var start := iBuffer;
      var n := nInit;
      var outIndex, inIndex := outIndex0, inIndex0;
      for t := n to cBlep
        invariant t == 0 ==> outIndex == start
        invariant t > 0 ==> outIndex == Ahead(start, t - 1, len) + 1
        invariant inIndex == TapAt(blep, offset, t)
        invariant buffer[..] == BlepWritten(buf, start, n, t, blep, offset, amp)
      {
        if outIndex >= len {
          outIndex := 0;
        }
        var f := Lerp(blep.data(inIndex), blep.data(inIndex + 1), frac);
        var v := amp * (1.0 - f);
        assert outIndex == Ahead(start, t, len);
        SlotStep(buf, start, n, t, blep, offset, amp, inIndex, frac, f, v, outIndex);
        ghost var cur := buffer[..];
        buffer[outIndex] := v;
        assert buffer[..] == cur[outIndex := v];
        inIndex := inIndex + blep.kTable;
        outIndex := outIndex + 1;
      }
    }

    /** The first match of generate: advance the phase by dp, wrap it and add
        the corrections of a discontinuity; return the naive wave. */
    method StepPhase(m: Math, waveform: WaveForm, dp: real, pulseWidth: real) returns (wave: real)
      requires Valid() && dp != 0.0
      modifies this`phase, this`nInit, buffer
      ensures Valid()
      ensures State() == PhaseStep(blep, old(State()), waveform, dp, pulseWidth)
      ensures wave == NaiveWave(m, waveform, phase, pulseWidth)
    {
      match waveform {
        case Saw =>
          AdvanceSaw(dp);
          wave := phase;
        case Sine =>
          WrapPhase(dp);
          wave := m.sin(2.0 * Pi * phase);
        case Square =>
          AdvanceSquare(dp, pulseWidth);
          wave := if phase > 0.0 && phase <= pulseWidth then 1.0 else 0.0;
        case UnipolarSquare =>
          WrapPhase(dp);
          wave := if phase > 0.0 && phase <= 0.5 then 1.0 else 0.0;
        case Triangle =>
          WrapPhase(dp);
          wave := if phase > 0.5 then 2.0 - 2.0 * phase else 2.0 * phase;
      }
    }

    /** The phase step of the waveforms without corrections: advance by dp
        and wrap once past 1. */
    method WrapPhase(dp: real)
      modifies this`phase
      ensures phase == Wrap(old(phase) + dp)
    {
      phase := phase + dp;
      if phase > 1.0 {
        phase := phase - 1.0;
      }
    }

    /** The Saw branch of generate's phase step. */
    method AdvanceSaw(dp: real)
      requires Valid() && dp != 0.0
      modifies this`phase, this`nInit, buffer
      ensures Valid()
      ensures State() == SawStep(blep, old(State()), old(phase) + dp, dp)
    {
      phase := phase + dp;
      if phase > 1.0 {
        phase := phase - 1.0;
        AddBlep(phase / dp, 1.0);
      }
    }

    /** The Square branch of generate's phase step: a pulse-width crossing adds a
        rising correction, otherwise a wrap adds a falling one. */
    method AdvanceSquare(dp: real, pulseWidth: real)
      requires Valid() && dp != 0.0
      modifies this`phase, this`nInit, buffer
      ensures Valid()
      ensures State() == SquareStep(blep, old(State()), old(phase) + dp, dp, pulseWidth)
    {
      phase := phase + dp;
      if phase > pulseWidth && phase - dp <= pulseWidth {
        AddBlep((phase - pulseWidth) / dp, 1.0);
      } else if phase > 1.0 {
        phase := phase - 1.0;
        AddBlep(phase / dp, -1.0);
      }
    }

    /** The Saw/Square tail of generate: take the pending correction at i_buffer,
        if there is one, and advance the cursor cyclically. */
    method TakeCorrection() returns (blepValue: real)
      requires Valid()
      modifies this`nInit, this`iBuffer
      ensures Valid()
      ensures old(nInit) > 0 ==> (blepValue == buffer[old(iBuffer)] && nInit == old(nInit) - 1
        && iBuffer == (if old(iBuffer) + 1 >= buffer.Length then 0 else old(iBuffer) + 1))
      ensures old(nInit) == 0 ==> blepValue == 0.0 && nInit == 0 && iBuffer == old(iBuffer)
    {
      blepValue := 0.0;
      if nInit > 0 {
        blepValue := buffer[iBuffer];
        nInit := nInit - 1;
        iBuffer := iBuffer + 1;
        if iBuffer >= buffer.Length {
          iBuffer := 0;
        }
      }
    }

    /** generate: advance the phase, build the naive wave with its corrections and
        return the scaled sample. */
    method Generate(m: Math, waveform: WaveForm, freq: real, amplitude: real,
                    pulseWidth: real, sampleRate: real) returns (out: real)
      requires Valid() && sampleRate != 0.0
      modifies this, buffer
      ensures Valid()
      ensures (State(), out) == GenerateSpec(blep, m, old(State()), waveform, freq, amplitude, pulseWidth, sampleRate)
    {
      if freq <= 0.0 {
        return 0.0;
      }
      var dp := freq / sampleRate;
      assert dp != 0.0;
      var wave := StepPhase(m, waveform, dp, pulseWidth);
      out := FinishSample(waveform, wave, amplitude);
    }

    /** The second match of generate: scale the naive wave, adding the pending
        correction for Saw and Square. */
    method FinishSample(waveform: WaveForm, wave: real, amplitude: real) returns (out: real)
      requires Valid()
      modifies this`nInit, this`iBuffer
      ensures Valid()
      ensures (State(), out) == Finish(waveform, old(State()), wave, amplitude)
    {
      match waveform {
        case Sine =>
          out := Scale(wave, amplitude);
        case Triangle =>
          out := Bipolar(wave, amplitude);
        case UnipolarSquare =>
          out := Scale(wave, amplitude);
        case _ =>
          var blepValue := TakeCorrection();
          var sample := wave + blepValue;
          out := Bipolar(sample, amplitude);
      }
    }

    /** trig: restart the phase at 0. */
    method Trig()
      modifies this`phase
      ensures phase == 0.0
    {
      phase := 0.0;
    }
  }
}
