# synja — a Dafny model of the synthesizer core

synja is a polyphonic subtractive synthesizer written in Rust. It has two
front ends that share most of the signal chain. The VST engine lives in
`src/synth/`. The nih-plug engine lives in the files directly under `src/`.
This project models the core of both, one Dafny module per source file:

| module (file) | source |
|---|---|
| `Numerics` (numerics.dfy) | Rust's float and integer casts, `round`, `clamp`; the transcendental functions as parameters |
| `AudioSlider` (audio_slider.dfy) | src/editor/audio_slider.rs: the value, normalized and position maps of the slider |
| `Editor` (editor.dfy) | src/editor/mod.rs: `lcd_format` and `reset_edit_text` |
| `Envelope` (envelope.dfy) | src/envelope.rs: the ADSR envelope, its coefficients and its state machine |
| `Huovilainen` (huovilainen.dfy) | src/huovilainen.rs: the cached-coefficient Moog ladder filter and its rational tanh |
| `Midi` (midi.dfy) | src/midi.rs: the pitch tables, the fast and slow pitch-to-frequency maps, the velocity curve |
| `Oscillator` (oscillator.dfy) | src/synth/oscillator.rs: the waveforms and the band-limited step correction buffer |
| `Parameters` (parameters.dfy) | src/synth/parameters.rs: the 35 parameters, their ranges and the DAW/plugin maps |
| `Presets` (presets.dfy) | src/synth/presets.rs: conversion between the preset bank and its serialized form |
| `Smoothing` (smoothed.dfy) | `Smoothed` in src/synth/mod.rs |
| `Synth` (synth.dfy) | src/synth/mod.rs: voice allocation and stealing, audio generation, note off, pitch bend |
| `Unison` (unison.dfy) | the unison tables, the glide and the stereo unison mix that both voices share |
| `SynthVoice` (synth_voice.dfy) | src/synth/voice.rs: the VST voice |
| `NihVoice` (voice.dfy) | src/voice.rs: the nih-plug voice |

The code that changes state keeps that form. The envelope, the filter, the
oscillator, the smoothed cells, the slider and both voices are classes whose
methods update their fields. The correction buffer and the filter's stage and
delay lines are arrays. The sample loops are `for` loops over the output
arrays. Each method states its result and the new state of the fields it
writes through functions of its inputs and of the old state; the oscillators
and filters inside a voice are the exception (see Left out). The properties
the source promises are proved about those functions as lemmas. The parameter maps are pure functions.

The model follows the code in several places where its behaviour may
surprise a reader:

- The VST voice passes a detune that already contains the bend to
  `frequncy`, which adds the bend again. The bend therefore counts twice in
  the oscillator frequency (src/synth/voice.rs:193, 99).
- VST `note_on` rebuilds both banks only when `osc1` has a different size. It
  keeps `osc2` whatever its size (src/synth/voice.rs:69-72).
- The nih-plug octave index `octave as usize + 2` wraps on 64 bits, as a
  release build does. A debug build would panic instead
  (src/voice.rs:122).
- `reset_edit_text` subtracts the edit time from the clock with wrap-around
  on u64 (src/editor/mod.rs:457).
- `pitch_bend` weights the most significant data byte by 256 rather than
  MIDI's 128. `Synth.Synth.PitchBend` stores the value as written;
  `Synth.Synth.PitchBendCorrected` stores the MIDI 1.0 value, and the
  functions `BendValueAsWritten` and `BendValue` give the two values (see
  Findings). The rest of the engine reads the bend cell and does not depend
  on which of the two stored it.
- `ParamConfig::map_to_plugin` and `map_to_ui` are the same function. The
  model defines it once, as the range map.

The nih-plug engine's shared mask of changed envelope parameters is a
`u16`. The model represents it as the set of its set bit positions, with
`fetch_and` as set intersection. The audio samples of the oscillators the
voices use, the filter chain and the per-sample parameter values are
inputs of a voice's `generate` (the `Block` datatypes).

## Model

| member | source | states |
|---|---|---|
| Numerics.Round | src/synth/mod.rs:135 | f32::round is within 1/2 of its argument, and halves go away from zero |
| Numerics.RoundInteger | src/synth/parameters.rs:43 | rounding a whole number gives it back |
| Numerics.SaturateI32 | src/synth/mod.rs:135 | a float-to-i32 cast stays within the i32 bounds and is exact inside them |
| Numerics.Trunc | src/midi.rs:28 | `as` on a float truncates toward zero (Midi.PitchInt then saturates it at the i32 bounds) |
| Numerics.TruncToUsize | src/midi.rs:31 | `as usize` on a float truncates and sends negatives to 0 |
| Numerics.I32AsUsize | src/voice.rs:122 | `as usize` on an i32 keeps non-negatives and reinterprets negatives as values at or above 2^64 - 2^31 |
| Numerics.Clamp | src/editor/audio_slider.rs:46 | clamp stays within its bounds, keeps a value inside them and sends a value outside to the nearer bound |
| AudioSlider.ValueFromNormalized | src/editor/audio_slider.rs:183-199 | value_from_normalized lies between the range ends in either orientation; an empty range gives min; an increasing range gives min at or below 0, max at or above 1, and the lerp in between |
| AudioSlider.NormalizedFromValue | src/editor/audio_slider.rs:201-217 | normalized_from_value always lies in [0, 1] and is 0.5 for an empty range |
| AudioSlider.Mirror | src/editor/audio_slider.rs:189-190 | a reversed range reads the position mirrored: value_from_normalized(n, a..=b) equals value_from_normalized(1 - n, b..=a) and normalized_from_value(v, a..=b) equals 1 minus normalized_from_value(v, b..=a), for all inputs |
| AudioSlider.NormalizedOfValue | src/editor/audio_slider.rs:183-217 | for a non-empty range in either orientation and n in [0, 1], normalized_from_value inverts value_from_normalized |
| AudioSlider.IncreasingNormalizedOfValue | src/editor/audio_slider.rs:191-198 | the same round trip for an increasing range, through the lerp and remap_clamp branches |
| AudioSlider.ValueOfNormalized | src/editor/audio_slider.rs:183-217 | for an increasing range, value_from_normalized of normalized_from_value(v) is v clamped to the range |
| AudioSlider.RemapInside | src/editor/audio_slider.rs:215 | strictly inside an increasing range, remap_clamp onto 0..=1 is (v - min) / (max - min), strictly inside (0, 1) |
| AudioSlider.LerpInside | src/editor/audio_slider.rs:197 | lerp at a t strictly inside (0, 1) lands strictly between min and max |
| AudioSlider.Lerp | src/editor/audio_slider.rs:197 | lerp at t in [0, 1] lands between its ends, whichever is the larger |
| AudioSlider.RemapClamp | src/editor/audio_slider.rs:65 | remap_clamp lands between its target ends whatever the orientation of either range |
| AudioSlider.AudioSlider.FromGetSet | src/editor/audio_slider.rs:25-35 | from_get_set stores the range and the closure's value |
| AudioSlider.AudioSlider.GetValue | src/editor/audio_slider.rs:42-47 | get_value is the stored value clamped to [min(start, end), max(start, end)], so it lies in the range in either orientation |
| AudioSlider.AudioSlider.SetValue | src/editor/audio_slider.rs:49-57 | set_value stores the value clamped to the range (step is always None) and changes nothing else |
| AudioSlider.AudioSlider.ValueFromPosition | src/editor/audio_slider.rs:64-67 | value_from_position is value_from_normalized of the position remapped onto 0..=1, and lies in the range |
| Editor.Cells | src/editor/mod.rs:508-510 | the cells a string occupies (characters other than '.', ':' and '\'') are at most its length |
| Editor.Spaces | src/editor/mod.rs:516-519 | the padding is n spaces for n >= 0 and empty otherwise |
| Editor.LcdFormat | src/editor/mod.rs:504-521 | lcd_format returns msg cut right after the character that fills the width-th cell when some non-empty prefix fills it, and otherwise msg padded with spaces up to width cells |
| Editor.CellsOfPrefix | src/editor/mod.rs:506-510 | each further character adds one cell, or none for punctuation |
| Editor.CellsOfConcat | src/editor/mod.rs:506-519 | appended text adds its own cells |
| Editor.CellsOfSpaces | src/editor/mod.rs:516-519 | n padding spaces occupy n cells |
| Editor.CellsMonotone | src/editor/mod.rs:506-510 | a prefix occupies no more cells than the whole |
| Editor.FullIffEnoughCells | src/editor/mod.rs:504-521 | for width >= 1, the early return is taken iff msg has at least width cells (both directions) |
| Editor.ReachWidth | src/editor/mod.rs:506-514 | cells grow by at most one per character, so a prefix reaches every count up to the total |
| Editor.LcdFormatFillsWidth | src/editor/mod.rs:504-521 | for width >= 1 the result always occupies exactly width cells: a cut prefix when msg has enough cells, msg padded otherwise |
| Editor.WrappingSub | src/editor/mod.rs:457 | `now() - t` on u64 as a release build computes it: a - b when b <= a, 2^64 - (b - a) otherwise |
| Editor.SynthUiState.constructor | src/editor/mod.rs:23-26 | the state holds the given edit text |
| Editor.SynthUiState.ResetEditText | src/editor/mod.rs:454-461 | an Editing message whose (wrapping) age exceeds 2000 ms becomes None; any other text is kept |
| Editor.ResetTimeout | src/editor/mod.rs:454-461 | a message set at or before now is cleared exactly when more than 2000 ms have passed; one stamped later than now is cleared too, because the u64 difference wraps |
| Envelope.CalcCoeff | src/envelope.rs:151-156 | calc_coeff is 0 for a non-positive rate and, given the exp/ln laws, strictly inside (0, 1) for a positive one |
| Envelope.Advance | src/envelope.rs:122-149 | one call of process moves at most one stage forward, and Idle and Sustaining change neither stage nor level |
| Envelope.AttackBoundary | src/envelope.rs:124-130 | attack ends exactly when base + level * coeff reaches 1, with the level snapped to exactly 1; otherwise the level is the new value, below 1 |
| Envelope.DecayBoundary | src/envelope.rs:131-137 | decay ends exactly when the new level falls to the sustain level, snapped to it; otherwise the level stays above it |
| Envelope.ReleaseBoundary | src/envelope.rs:138-145 | release ends exactly when the new level falls to 0, snapped to 0; otherwise the level stays above 0 |
| Envelope.AdvanceKeepsLevelInUnit | src/envelope.rs:122-149 | with safe segments one call of process keeps the level in [0, 1] |
| Envelope.ScaledBelow | src/envelope.rs:125 | a level in [0, 1] moves to a value between base and base + coeff |
| Envelope.RunKeepsLevelInUnit | src/envelope.rs:117-149 | with safe segments any number of calls keeps the level in [0, 1] |
| Envelope.RunFromIdle | src/envelope.rs:146 | an Idle envelope never moves, however many calls are made |
| Envelope.RunAppend | src/envelope.rs:117-120 | n + 1 calls are n calls followed by one more process |
| Envelope.RunStartTimeStep | src/envelope.rs:138-145 | the gate-on time after a run is cleared exactly by the step from Releasing to Idle |
| Envelope.ComputedSegmentsSafe | src/envelope.rs:83-92 | the coefficients and bases set_envelope_parameters computes, with a sustain level in [0, 1], map every level in [0, 1] back into [0, 1] at every stage |
| Envelope.DecayBaseBelow | src/envelope.rs:86-88 | decay base plus decay coefficient stays at most 1 |
| Envelope.ZeroTimeStagesEndInOneStep | src/envelope.rs:83-92 | a stage of non-positive length ends in one call: attack with level 1, decay with the sustain level, release with 0 |
| Envelope.AdsrEnvelope.constructor | src/envelope.rs:41-63 | new is Idle at level 0 with no gate-on time, zero parameters, coefficients and bases, and target ratios 0.1 and 0.001 |
| Envelope.AdsrEnvelope.SetEnvelopeParameters | src/envelope.rs:65-93 | the parameters are stored and the three coefficient/base pairs recomputed from them; stage, level and gate-on time are kept, and the level bound is re-established when the laws hold and sustain is in [0, 1] |
| Envelope.AdsrEnvelope.GateOn | src/envelope.rs:95-98 | gate_on moves any stage to Attacking with gate-on time now and keeps the level |
| Envelope.AdsrEnvelope.GateOff | src/envelope.rs:100-107 | gate_off moves Attacking, Decaying and Sustaining to Releasing and keeps Idle and Releasing |
| Envelope.AdsrEnvelope.IsIdle | src/envelope.rs:109-111 | an idle envelope is left exactly as it is by process |
| Envelope.AdsrEnvelope.IsDecaying | src/envelope.rs:113-115 | a decaying envelope's next process either keeps decaying or settles on the sustain level |
| Envelope.AdsrEnvelope.Process | src/envelope.rs:122-149 | process makes exactly one Advance step of stage and level and clears the gate-on time exactly on Releasing to Idle; the level bound is kept |
| Envelope.AdsrEnvelope.Next | src/envelope.rs:117-120 | next is process followed by returning the new level |
| Huovilainen.SqrtOfOnePlusSquare | src/huovilainen.rs:104 | the denominator sqrt(1 + a^2) is positive and its square exceeds a^2 |
| Huovilainen.TanhPolyOdd | src/huovilainen.rs:97-102 | the polynomial x + 0.16489087 x^3 + 0.00985468 x^5 is odd |
| Huovilainen.TanhOdd | src/huovilainen.rs:96-105 | the rational tanh is odd and maps 0 to 0 |
| Huovilainen.Tanh | src/huovilainen.rs:96-105 | the rational tanh stays strictly inside (-1, 1) for every input |
| Huovilainen.Quotient | src/huovilainen.rs:104 | x / sqrt(1 + x^2) stays strictly inside (-1, 1) for every x |
| Huovilainen.QuotientOdd | src/huovilainen.rs:104 | x / sqrt(1 + x^2) is odd in x |
| Huovilainen.QuotientBelowOne | src/huovilainen.rs:104 | a / d with a^2 < d^2 and d > 0 lies strictly inside (-1, 1) |
| Huovilainen.CutoffFraction | src/huovilainen.rs:44-46 | the cutoff clamped to [0, sample_rate / 2] divided by the sample rate lies in [0, 0.5] |
| Huovilainen.CacheStep | src/huovilainen.rs:38-61 | after compute_coeffs the cached key is the given (cutoff, resonance); an equal key changes nothing |
| Huovilainen.RateIsNotPartOfTheKey | src/huovilainen.rs:40-42 | once a pair is cached, a call with the same pair at any other sample rate changes nothing |
| Huovilainen.Acr | src/huovilainen.rs:52 | over the clamped range 0 <= fc <= 0.5, acr lies in (0.93, 1.22) |
| Huovilainen.Fcr | src/huovilainen.rs:51 | over the clamped range 0 <= fc <= 0.5, fcr exceeds 0.6 |
| Huovilainen.Tune | src/huovilainen.rs:54 | a positive fc up to 0.5 gives a tune in (0, 1 / THERMAL), given exp below 1 on negative arguments |
| Huovilainen.RecomputedCoeffsInRange | src/huovilainen.rs:44-60 | a recomputation yields acr in (0.93, 1.22), res_quad = 4 resonance acr, and for a positive cutoff a tune in (0, 1 / THERMAL) |
| Huovilainen.FreshCacheSkipsZeroPair | src/huovilainen.rs:24-36 | a new filter, caching (0, 0) with zero coefficients, skips the recomputation for the pair (0, 0) |
| Huovilainen.StageUpdate | src/huovilainen.rs:74-85 | iteration k of the inner loop keeps the ladder's array lengths (lengths only: the values are given by the definition, and Huovilainen.PassCompensates and Huovilainen.ZeroIsFixed state what they mean) |
| Huovilainen.InnerUpTo | src/huovilainen.rs:74-86 | the inner loop keeps the ladder's array lengths (lengths only: the values are given by the definition, and Huovilainen.PassCompensates and Huovilainen.ZeroIsFixed state what they mean) |
| Huovilainen.InnerKeepsOuterDelays | src/huovilainen.rs:74-86 | the inner loop writes only delay[1..4]: delay[0], delay[4] and delay[5] are unchanged |
| Huovilainen.FirstStage | src/huovilainen.rs:70-73 | the first stage keeps the ladder's array lengths (lengths only: the values are given by the definition, and Huovilainen.PassCompensates and Huovilainen.ZeroIsFixed state what they mean) |
| Huovilainen.Compensate | src/huovilainen.rs:87-89 | the half-sample compensation keeps the ladder's array lengths (lengths only: the values are given by the definition, and Huovilainen.PassCompensates and Huovilainen.ZeroIsFixed state what they mean) |
| Huovilainen.Pass | src/huovilainen.rs:70-89 | one oversampling pass keeps the ladder's array lengths (lengths only: the values are given by the definition, and Huovilainen.PassCompensates and Huovilainen.ZeroIsFixed state what they mean) |
| Huovilainen.PassesUpTo | src/huovilainen.rs:69-90 | any number of passes keeps the ladder's array lengths (lengths only: the values are given by the definition, and Huovilainen.PassCompensates and Huovilainen.ZeroIsFixed state what they mean) |
| Huovilainen.PassCompensates | src/huovilainen.rs:87-89 | each pass sets delay[5] to the average of the new stage[3] and the previous delay[4], and delay[4] to the new stage[3] |
| Huovilainen.ZeroStageUpdate | src/huovilainen.rs:74-85 | an inner iteration maps the all-zero ladder to itself |
| Huovilainen.ZeroInner | src/huovilainen.rs:74-86 | the inner loop maps the all-zero ladder to itself |
| Huovilainen.ZeroPass | src/huovilainen.rs:70-89 | a pass with input 0 maps the all-zero ladder to itself |
| Huovilainen.FixedPointStays | src/huovilainen.rs:69-90 | a ladder state one pass leaves unchanged stays unchanged through any number of passes |
| Huovilainen.ZeroIsFixed | src/huovilainen.rs:65-92 | from the all-zero ladder, silence in gives silence: every value stays 0 |
| Huovilainen.HuovilainenMoog.constructor | src/huovilainen.rs:24-36 | new holds all-zero arrays and caches (0, 0) with zero coefficients |
| Huovilainen.HuovilainenMoog.ComputeCoeffs | src/huovilainen.rs:38-61 | compute_coeffs updates the cache by CacheStep |
| Huovilainen.HuovilainenMoog.RunPass | src/huovilainen.rs:70-89 | one pass on the arrays computes Pass of the old ladder |
| Huovilainen.HuovilainenMoog.RunStage | src/huovilainen.rs:75-85 | one inner iteration on the arrays computes StageUpdate of the old ladder |
| Huovilainen.HuovilainenMoog.Process | src/huovilainen.rs:65-92 | process updates the cache, runs exactly two passes with the cached coefficients, and returns delay[5] |
| Midi.BuildPitchTable | src/midi.rs:10-17 | the PITCH initialiser fills all 512 entries, entry i being 2^((i - 256) / 12) |
| Midi.BuildPow2Table | src/midi.rs:19-25 | the POW2 initialiser fills all 1001 entries, entry i being 2^(i / 12000) |
| Midi.PitchIndex | src/midi.rs:28-33 | the PITCH index (pitch_int + 256) - 69 clamped to 0..=511, with the saturating cast and wrapping i32 sums: always in the table, trunc(pitch) + 187 inside it, 0 below it, 511 above it, and 0 again within 187 of i32::MAX, where the sums wrap |
| Midi.CentsFraction | src/midi.rs:28-29 | (pitch - pitch_int) * 1000 lies in [0, 1000) for a pitch in [0, 2^31) and in (-1000, 0] for a negative pitch above i32::MIN - 1; where `as i32` saturates it reaches 1000 or more above and -1000 or less below |
| Midi.Pow2Index | src/midi.rs:31 | `a as usize` and its successor are inside POW2 exactly for pitches below 2^31; a negative a saturates to 0 |
| Midi.MidiPitchToFreq | src/midi.rs:27-36 | the lookup panics (None) exactly for pitches of 2^31 or more, where POW2[pow2idx + 1] is out of bounds; below that the table approximation is a positive frequency for every non-negative pitch, given 2^y > 0 |
| Midi.MidiPitchToFreqSlow | src/midi.rs:38-40 | the exact form 440 * 2^((pitch - 69) / 12) is positive, and 440 Hz at pitch 69 when 2^0 = 1 |
| Midi.InterpolationWeightInUnit | src/midi.rs:32 | for a pitch in [0, 2^31) the interpolation weight pow2frac lies in [0, 1) |
| Midi.IntegerPitchIsExact | src/midi.rs:27-40 | at an integer pitch whose index is not clamped, the table lookup equals midi_pitch_to_freq_slow exactly |
| Midi.A4IsExact | src/midi.rs:38-40 | pitch 69 maps to exactly 440 Hz in both forms, as the source's tests assert |
| Midi.LowPitchesSaturate | src/midi.rs:33 | integer pitches below the table, down to i32::MIN, give the frequency of the lowest entry |
| Midi.HighPitchesSaturate | src/midi.rs:33 | integer pitches above the table, up to i32::MAX - 187, give the frequency of the highest entry |
| Midi.TopPitchesWrap | src/midi.rs:30-33 | integer pitches within 187 of i32::MAX wrap round to the lowest PITCH entry |
| Midi.WrappingAddI32 | src/midi.rs:30 | an i32 sum with a small constant (the 256 and -69 here), as a release build computes it: the sum when it fits, otherwise the sum moved by 2^32 back into the i32 range |
| Midi.MidiVelocityToAmplitude | src/midi.rs:46-52 | every velocity gives at least b^2, and a MIDI velocity up to 127 at most 1 |
| Midi.VelocityEndpoints | src/midi.rs:46-52 | velocity 127 gives amplitude 1 and velocity 0 gives b^2 |
| Midi.VelocityCurveIncreasing | src/midi.rs:46-52 | the velocity curve is positive and strictly increasing over all u8 velocities |
| Oscillator.FromInt | src/synth/oscillator.rs:29-40 | From<i32> succeeds exactly for 0..4, giving the waveform at that position of the declaration; any other integer panics (None) |
| Oscillator.FromIntOrdinal | src/synth/oscillator.rs:15-40 | decoding inverts the declaration order for every waveform |
| Oscillator.Name | src/synth/oscillator.rs:42-52 | a waveform prints as "Square" exactly when it is Square or UnipolarSquare |
| Oscillator.NamesCollideOnlyForSquares | src/synth/oscillator.rs:42-52 | two waveforms print alike iff they are equal or are Square and UnipolarSquare |
| Oscillator.Lerp | src/synth/oscillator.rs:188-190 | lerp is a at frac 0 and b at frac 1 |
| Oscillator.LerpBetween | src/synth/oscillator.rs:188-190 | with frac in [0, 1] lerp lies between a and b, in either order |
| Oscillator.FRem1 | src/synth/oscillator.rs:71 | `x % 1.0` on a float lies in [0, 1) for x >= 0 and in (-1, 0] for x < 0 |
| Oscillator.Dist | src/synth/oscillator.rs:77-93 | the cyclic distance between two slots of the ring is below its length |
| Oscillator.Ahead | src/synth/oscillator.rs:77-93 | the slot j places after slot i, wrapping at the buffer length, is in the ring and lies j places after i |
| Oscillator.BlepWritten | src/synth/oscillator.rs:76-94 | writing corrections keeps the buffer length (length only: Oscillator.BlepWrittenSlots states which slots get which values) |
| Oscillator.BlepWrittenSlots | src/synth/oscillator.rs:66-96 | add_blep writes exactly the c_blep slots from i_buffer on, wrapping: the first n_init accumulate with +=, the rest are overwritten, every other slot keeps its value |
| Oscillator.AheadOfDist | src/synth/oscillator.rs:77-93 | every slot is reached from i_buffer at its cyclic distance |
| Oscillator.BlepWrittenStep | src/synth/oscillator.rs:80-83 | writing correction t into its slot extends the written prefix by one, and that slot was untouched before |
| Oscillator.TapAtNext | src/synth/oscillator.rs:82 | the table index advances by KTABLE per correction |
| Oscillator.LastTapInTable | src/synth/oscillator.rs:68-90 | the last correction reads furthest into BLEPDATA, and its read of BLEPDATA[in_index + 1] is in bounds exactly when floor(KTABLE * offset) + 1 < 2 KTABLE + BLEPDATA.len() % KTABLE; past that add_blep panics |
| Oscillator.UnitOffsetInTable | src/synth/oscillator.rs:68-90 | for an offset in [0, 1] (in [0, 1) when KTABLE is 1) every table read of add_blep is in bounds, so the model's total table agrees with the program there |
| Oscillator.SawWrapReadsInTable | src/synth/oscillator.rs:115-118 | a Saw wrap with 0 < dp <= 1 from a phase in [0, 1] has its offset in (0, 1] and reads only inside the table |
| Oscillator.OverrunAtLargeOffset | src/synth/oscillator.rs:80 | with KTABLE 64 and 192 entries, a Saw wrap at offset 3.5 / 1.5 (phase 3.5, dp 1.5) reads BLEPDATA[214], past the end, where the program panics |
| Oscillator.SlotStep | src/synth/oscillator.rs:80-93 | one iteration of either loop writes amp * (1 - f) for the interpolated table value f, accumulated or overwritten, and advances the table index by KTABLE |
| Oscillator.AddBlepState | src/synth/oscillator.rs:66-96 | add_blep keeps the cursor and counter bounds |
| Oscillator.SquareStep | src/synth/oscillator.rs:128-134 | the Square phase step keeps the cursor and counter bounds |
| Oscillator.SawStep | src/synth/oscillator.rs:115-119 | the Saw phase step keeps the cursor and counter bounds |
| Oscillator.PhaseStep | src/synth/oscillator.rs:110-161 | the phase step of every waveform keeps the cursor and counter bounds |
| Oscillator.GenerateSpec | src/synth/oscillator.rs:98-181 | one call of generate keeps i_buffer < len and n_init <= c_blep |
| Oscillator.SilentAtNonPositiveFreq | src/synth/oscillator.rs:106-108 | freq <= 0 returns 0.0 and changes nothing |
| Oscillator.NaiveWavesKeepBuffer | src/synth/oscillator.rs:122-127 | Sine, Triangle and UnipolarSquare leave buffer, i_buffer and n_init unchanged |
| Oscillator.GenerateConsumesOne | src/synth/oscillator.rs:163-179 | Saw and Square consume at most one correction per call: with none pending nothing moves, otherwise n_init drops by one and i_buffer advances cyclically (after a fresh add_blep, from c_blep) |
| Oscillator.WrapKeepsPhaseInUnit | src/synth/oscillator.rs:115-160 | for the wrapping waveforms with 0 < dp <= 1, a phase in [0, 1] stays in [0, 1], and a phase reaching exactly 1.0 is kept |
| Oscillator.SquareCanOvershoot | src/synth/oscillator.rs:128-134 | a Square step that crosses the pulse width does not also wrap (phase 0.4, dp 0.7, width 0.5 gives 1.1) |
| Oscillator.UnipolarSquareOutput | src/synth/oscillator.rs:141-150 | the unipolar square outputs 0 or the amplitude |
| Oscillator.TriangleOutputBounded | src/synth/oscillator.rs:151-165 | with amplitude >= 0 and the phase in [0, 1], the triangle output lies in [-amplitude, amplitude] |
| Oscillator.BipolarBound | src/synth/oscillator.rs:165 | (2 w - 1) a lies in [-a, a] for w in [0, 1] and a >= 0 |
| Oscillator.Osc.constructor | src/synth/oscillator.rs:55-62 | new has an all-zero buffer of BLEPLEN / KTABLE slots, both cursors at 0, and a starting phase in [0, 1) |
| Oscillator.Osc.AddBlep | src/synth/oscillator.rs:66-96 | the buffer is exactly BlepWritten of the old buffer, n_init becomes c_blep and i_buffer does not move |
| Oscillator.Osc.AddLoop | src/synth/oscillator.rs:76-84 | the accumulate loop writes the first n_init corrections and leaves the cursor after the last one |
| Oscillator.Osc.CopyLoop | src/synth/oscillator.rs:86-94 | the copy loop writes corrections n_init .. c_blep, completing BlepWritten |
| Oscillator.Osc.StepPhase | src/synth/oscillator.rs:110-161 | the first match advances the state by PhaseStep and returns the naive wave at the new phase |
| Oscillator.Osc.WrapPhase | src/synth/oscillator.rs:122-125 | for Sine, UnipolarSquare and Triangle the phase advances by dp and wraps once past 1, with no correction written |
| Oscillator.Osc.AdvanceSaw | src/synth/oscillator.rs:115-119 | the Saw branch advances the state by SawStep |
| Oscillator.Osc.AdvanceSquare | src/synth/oscillator.rs:128-134 | the Square branch advances the state by SquareStep |
| Oscillator.Osc.TakeCorrection | src/synth/oscillator.rs:168-176 | with a pending correction it returns buffer[i_buffer], decrements n_init and advances i_buffer cyclically; with none it returns 0 and moves nothing |
| Oscillator.Osc.Generate | src/synth/oscillator.rs:98-181 | generate produces exactly GenerateSpec's new state and sample |
| Oscillator.Osc.FinishSample | src/synth/oscillator.rs:163-180 | the second match scales the naive wave, taking the pending correction for Saw and Square, as Finish states |
| Oscillator.Osc.Trig | src/synth/oscillator.rs:183-185 | trig sets the phase to 0 and changes nothing else |
| Parameters.Range | src/synth/parameters.rs:28-34 | range is min..=max for every variant: non-empty for a configured range, with whole-number bounds for a discrete one |
| Parameters.RangeEndpoints | src/synth/parameters.rs:16-47 | the ends of range map to 0 and 1 under map_to_daw, and back under map_to_plugin for a linear or discrete range |
| Parameters.MapToPlugin | src/synth/parameters.rs:36-46 | a Discrete range always gives a whole number, and for t in [0, 1] a non-empty Linear or Discrete range gives a value inside [min, max] |
| Parameters.MapToDaw | src/synth/parameters.rs:16-26 | map_to_daw always lies in [0, 1] for a configured range |
| Parameters.LinearRoundTrip | src/synth/parameters.rs:16-47 | Linear: 0 and 1 map to the bounds, and map_to_plugin inverts map_to_daw on [min, max] |
| Parameters.LinearDawRoundTrip | src/synth/parameters.rs:16-47 | Linear: map_to_daw inverts map_to_plugin on [0, 1] |
| Parameters.LogRoundTrip | src/synth/parameters.rs:16-47 | Logarithmic: map_to_plugin inverts map_to_daw on [min, max], given the laws of log2 and exp2 |
| Parameters.LogDawRoundTrip | src/synth/parameters.rs:16-47 | Logarithmic: map_to_plugin of t in [0, 1] lies in [min, max] and map_to_daw maps it back to t |
| Parameters.InterpolateQuotient | src/synth/parameters.rs:38 | interpolating at the relative position of c in [a, b] gives c back |
| Parameters.InterpolateInverse | src/synth/parameters.rs:17-38 | interpolation on [a, b] stays inside it, and the normalized distance from a recovers t |
| Parameters.Log2Reflects | src/synth/parameters.rs:19-20 | under the log2 law, log2 reflects the order of positive reals |
| Parameters.DiscreteRoundTrip | src/synth/parameters.rs:16-47 | Discrete: map_to_plugin inverts map_to_daw on every integer of the range |
| Parameters.RoundMonotone | src/synth/parameters.rs:43 | f64::round is monotone |
| Parameters.Index | src/synth/parameters.rs:167-169 | index is below 35 for every variant |
| Parameters.FromIndex | src/synth/parameters.rs:175-178 | from_index succeeds exactly for indices below 35; any other index panics (None) |
| Parameters.FromIndexAgreesWithParams | src/synth/parameters.rs:97-142 | PARAMS has 35 entries and from_index(i) is PARAMS[i] for every i < 35 |
| Parameters.IndexOfFromIndex | src/synth/parameters.rs:167-178 | index inverts from_index wherever from_index succeeds |
| Parameters.ParamsInIndexOrder | src/synth/parameters.rs:97-142 | PARAMS lists the variants in index order: PARAMS[i].index() == i |
| Parameters.FromIndexOfIndex | src/synth/parameters.rs:167-178 | from_index inverts index for every variant |
| Parameters.Name | src/synth/parameters.rs:144-148 | every variant's Display name (its Debug name) has 7 to 18 characters, the lengths from_str compares |
| Parameters.FromName | src/synth/parameters.rs:49 | from_str accepts only a variant's exact Display name: whenever it parses, the result's name is the input |
| Parameters.FromNameOfName | src/synth/parameters.rs:144-148 | from_str (the derived EnumString) inverts Display for every variant |
| Parameters.FromNameOfNameFrom0 | src/synth/parameters.rs:144-148 | the same round trip for the variants at indices 0..6 |
| Parameters.FromNameOfNameFrom7 | src/synth/parameters.rs:144-148 | the same round trip for the variants at indices 7..13 |
| Parameters.FromNameOfNameFrom14 | src/synth/parameters.rs:144-148 | the same round trip for the variants at indices 14..20 |
| Parameters.FromNameOfNameFrom21 | src/synth/parameters.rs:144-148 | the same round trip for the variants at indices 21..24 |
| Parameters.FromNameOfNameFrom25 | src/synth/parameters.rs:144-148 | the same round trip for the variants at indices 25..27 |
| Parameters.FromNameOfNameFrom28 | src/synth/parameters.rs:144-148 | the same round trip for the variants at indices 28..31 |
| Parameters.FromNameOfNameFrom32 | src/synth/parameters.rs:144-148 | the same round trip for the variants at indices 32..34 |
| Parameters.LogRangeValid | src/synth/parameters.rs:19-20 | a logarithmic range with 0 < min < max has distinct logarithms, so map_to_daw never divides by 0 |
| Parameters.Config | src/synth/parameters.rs:180-476 | every parameter's default lies inside its range |
| Parameters.ConfigsValid | src/synth/parameters.rs:180-476 | every configured range is non-empty, and every logarithmic one positive |
| Parameters.WaveFormParamsDecode | src/synth/parameters.rs:180-476 | the three waveform parameters map every normalized value in [0, 1] to a whole number that WaveForm::from accepts |
| Presets.Store | src/synth/presets.rs:40-45 | applying one pair keeps the vector at PARAMS.len() entries (length only: Presets.ApplyPairsEntry states the values) |
| Presets.DawValue | src/synth/presets.rs:42 | the stored value map_to_daw(val) of a parameter lies in [0, 1] |
| Presets.ApplyPairs | src/synth/presets.rs:39-46 | applying the pairs in order keeps the vector at PARAMS.len() entries (length only: Presets.ApplyPairsEntry states the values) |
| Presets.Zeros | src/synth/presets.rs:38 | the initial vector has PARAMS.len() zero entries |
| Presets.ApplyPairsEntry | src/synth/presets.rs:38-46 | entry k of the decoded vector is map_to_daw of the value of the last pair naming parameter k, and its initial value when no pair does; unknown names are skipped |
| Presets.LastAtNone | src/synth/presets.rs:39-46 | no pair is found for index k exactly when no pair's name parses to the parameter at k |
| Presets.LastAtIsLast | src/synth/presets.rs:39-46 | the pair found for index k names k and no later pair names k |
| Presets.LastAtWitness | src/synth/presets.rs:39-46 | the same, with the position of that pair returned |
| Presets.DecodedValuesInUnit | src/synth/presets.rs:38-46 | every decoded parameter value lies in [0, 1] |
| Presets.FromSerialized | src/synth/presets.rs:34-53 | from_serialized decodes each serialized preset, in order, keeping its name |
| Presets.DecodePairs | src/synth/presets.rs:38-46 | the inner loop computes the zero vector with every pair applied, parsed by Param::from_str |
| Presets.EncodePairs | src/synth/presets.rs:58-66 | a preset encodes to exactly PARAMS.len() pairs |
| Presets.ToSerialized | src/synth/presets.rs:55-77 | to_serialized writes the current version 1 and, for each preset in order, its name and the encoded pairs |
| Presets.EncodeLoop | src/synth/presets.rs:58-66 | the inner loop names parameter i by Display and gives it map_to_plugin of params[i], for i in index order |
| Presets.EncodedLastAt | src/synth/presets.rs:58-66 | in encoded pairs only pair i names index i |
| Presets.RoundTrip | src/synth/presets.rs:34-77 | to_serialized then from_serialized keeps a preset's name and restores each normalized value in [0, 1] of a Linear or Logarithmic parameter |
| Smoothing.Remaining | src/synth/mod.rs:128-131 | the part of the distance left after k gets, 0.9^k, lies in (0, 1] |
| Smoothing.StepShrinks | src/synth/mod.rs:128-131 | one get leaves 0.9 of the signed distance to the target, so it shrinks by 0.9 and the state stays on its side of the target |
| Smoothing.SmoothNShrinks | src/synth/mod.rs:128-131 | after k gets the distance to the target is 0.9^k of the initial one |
| Smoothing.SettledStays | src/synth/mod.rs:128-131 | a cell at its target stays there, however many reads |
| Smoothing.RemainingDecreases | src/synth/mod.rs:128-131 | 0.9^k strictly decreases with k |
| Smoothing.ReadsDiffer | src/synth/mod.rs:128-131 | a cell away from its target never returns the same state twice |
| Smoothing.Discrete | src/synth/mod.rs:133-135 | get_discrete is within 0.5 of the target (round half away from zero) and saturates to the i32 range |
| Smoothing.DiscreteOfInteger | src/synth/mod.rs:133-135 | a whole-number target within i32 reads back exactly |
| Smoothing.Smoothed.constructor | src/synth/mod.rs:117-121 | Smoothed::default() has state 0 and target 0 |
| Smoothing.Smoothed.Set | src/synth/mod.rs:124-126 | set changes only the target |
| Smoothing.Smoothed.Get | src/synth/mod.rs:128-131 | get moves the state a tenth of the way to the target, returns it and changes nothing else |
| Smoothing.Smoothed.GetDiscrete | src/synth/mod.rs:133-135 | get_discrete returns round(target) as i32 and changes nothing |
| Synth.StateLayout | src/synth/mod.rs:23-25 | NUM_STATES is PARAMS.len() + 1 and STATE_BEND its last cell, after the parameter indices note_on and generate read |
| Synth.FirstIdleIsLowest | src/synth/mod.rs:72-76 | the pool loop finds an idle voice iff there is one, and it is the lowest-index idle voice (both directions) |
| Synth.ScanFindsOldestDecaying | src/synth/mod.rs:64-83 | the scan's decaying record holds a voice iff some decaying voice started before f64::MAX; it is then the oldest decaying voice, the lowest index on ties |
| Synth.ScanFindsOldest | src/synth/mod.rs:62-87 | the scan's playing record is voice 0 at f64::MAX when no voice started before f64::MAX, and otherwise the oldest voice, the lowest index on ties |
| Synth.Chosen | src/synth/mod.rs:58-99 | the voice note_on picks is always one of the pool |
| Synth.ChosenInMono | src/synth/mod.rs:67-70 | in mono mode the pick is voice 0 |
| Synth.ChosenIdle | src/synth/mod.rs:72-76 | in poly mode with an idle voice the pick is the lowest-index idle voice |
| Synth.ChosenDecaying | src/synth/mod.rs:78-94 | in poly mode with every voice playing and some decaying voice started before f64::MAX, the pick is the oldest decaying voice, the lowest index on ties |
| Synth.ChosenOldest | src/synth/mod.rs:84-97 | in poly mode with every voice playing and no such decaying voice, the pick is the oldest voice, the lowest index on ties, or voice 0 when no voice started before f64::MAX |
| Synth.BendValueForms | src/synth/mod.rs:110-115 | the code's value equals the MIDI 1.0 value iff the LSB is 0; it is the MIDI value minus d1 / 16384 |
| Synth.BendValueAsWrittenCounterexample | src/synth/mod.rs:113 | the bytes (127, 63), one step below the centre, give -1/8192 under MIDI 1.0 but -129/16384 as written |
| Synth.BendValueAsWritten | src/synth/mod.rs:113 | the code's value sends (0, 64) to 0 and (0, 0) to -1, and every pair of 7-bit bytes to a value in [-1, 1) |
| Synth.BendValue | src/synth/mod.rs:110-115 | the MIDI 1.0 value sends (0, 64) to 0 and (0, 0) to -1, and every pair of 7-bit bytes to a value in [-1, 1) |
| Synth.BendValueMonotone | src/synth/mod.rs:110-115 | the MIDI 1.0 value is linear in the 14-bit number, one step being 1/8192; the written one is strictly increasing in it |
| Synth.PlayingBefore | src/synth/mod.rs:53 | the number of playing voices among the first k is at most k |
| Synth.PlayingBeforeCounts | src/synth/mod.rs:53 | that number is the size of the set of playing voices among the first k |
| Synth.RankBelowCount | src/synth/mod.rs:53 | a playing voice has fewer playing voices before it than any longer prefix has |
| Synth.NoneBefore | src/synth/mod.rs:53 | with no playing voice among the first k, none is counted |
| Synth.RankedRender | src/synth/mod.rs:53-55 | the loop inputs of a playing voice cover every sample of its block |
| Synth.RankedIsGenerated | src/synth/mod.rs:53-55 | the loop inputs a playing voice's generate computes from the cells as the voices before it left them are its ranked render |
| Synth.RenderedPlaying | src/synth/mod.rs:53-55 | a playing voice adds its ranked render's samples to what the voices before it left in the buffer |
| Synth.RenderedIdle | src/synth/mod.rs:53 | a voice that is not playing adds nothing and is not counted among the playing voices |
| Synth.RenderedSilent | src/synth/mod.rs:44-56 | with no playing voice the cleared output stays silent |
| Synth.RenderedLone | src/synth/mod.rs:44-56 | a lone playing voice is heard exactly as it renders with the cells untouched (rank 0) |
| Synth.RankedBend | src/synth/mod.rs:53-55 | a settled bend cell gives every voice its target; an unsettled one gives no two playing voices the same bend, because each voice's generate reads the cell once more |
| Synth.Synth.constructor | src/synth/mod.rs:34-41 | default builds eight new voices in voice order (idle, no note, both envelopes Idle) and NUM_STATES cells at 0 |
| Synth.Synth.ScanPool | src/synth/mod.rs:72-89 | the poly-mode loop stops at the first idle voice; when there is none it has scanned all eight voices |
| Synth.Synth.SelectVoice | src/synth/mod.rs:72-98 | the poly-mode choice is the first idle voice, else the oldest decaying voice, else the oldest playing one |
| Synth.Synth.Trigger | src/synth/mod.rs:70-96 | voice c receives note_on and no other voice or LFO changes |
| Synth.Synth.NoteOn | src/synth/mod.rs:58-99 | the voice Chosen picks from the voices as they were receives note_on with the UnisonVoices and LfoKeyTrig values; no other voice changes |
| Synth.Synth.GenerateAudio | src/synth/mod.rs:44-56 | the first n samples of both channels are cleared and every playing voice, in pool order, adds its block into them; the rest of the buffer is untouched; idle voices are unchanged; the oscillators' and other cells' new state is not stated (see Left out) |
| Synth.Synth.Clear | src/synth/mod.rs:48-51 | the first n samples of both channels become 0 and the rest of the buffer is untouched |
| Synth.Synth.RunVoices | src/synth/mod.rs:53-55 | the voice loop over a cleared buffer leaves Rendered over the whole pool in it and reads the shared cells once per playing voice |
| Synth.Synth.AddVoice | src/synth/mod.rs:53-55 | one step of the loop adds voice v's term when it is playing and changes nothing when it is not |
| Synth.Synth.PlayVoice | src/synth/mod.rs:54 | a playing voice's generate adds its term, read with the cells after rank + 1 reads |
| Synth.Synth.NoteOff | src/synth/mod.rs:101-108 | every voice whose target note equals the note, playing or not, is gated off; every other voice is unchanged |
| Synth.Synth.PitchBend | src/synth/mod.rs:110-115 | the bend cell's target becomes the code's value of the two data bytes, (d2·256 + d1) / 16384 − 1, and its state is untouched |
| Synth.Synth.PitchBendCorrected | src/synth/mod.rs:110-115 | the bend cell's target becomes the MIDI 1.0 bend of the two data bytes and its state is untouched (corrected; see Findings) |
| Unison.DetunePattern | src/synth/voice.rs:9-18 | row n of UNISON_DETUNE_PATTERN has exactly n entries, so generate's index v < nvoices is in bounds; each lies in [-1, 1], and entry i is minus entry n-1-i, so the unison voices are centred on the note |
| Unison.SpreadPattern | src/synth/voice.rs:20-29 | row n of UNISON_SPREAD_PATTERN has exactly n entries, each -1, 0 or 1, and they sum to 0: as much signal is panned left as right |
| Unison.Glide | src/synth/voice.rs:92-100 | without portamento the note jumps to the target; with 100 * portamento >= 1 one update moves it toward the target without overshooting |
| Unison.GlideN | src/synth/voice.rs:92-100 | with 100 * portamento >= 1 any number of updates keeps the note between its start and the target; the proof uses the contract of the recursive call |
| Unison.GlideNAdd | src/synth/voice.rs:92-100 | a updates followed by b updates are a + b updates |
| Unison.Pow2 | src/synth/voice.rs:104 | the octave multiplier 2.0f64.powf(octave) is positive for every whole octave |
| Unison.Pow2Doubles | src/synth/voice.rs:104 | each octave up doubles the multiplier, below 0 as well as above |
| Unison.CarrierSamples | src/synth/voice.rs:191-203 | a carrier's unison loop yields one sample per oscillator |
| Unison.Accumulate | src/synth/voice.rs:205-214 | one accumulation step is MixStep: a lone oscillator adds the same amount to both channels, otherwise the sample is weighted by 1 - spread·side (left) and 1 + spread·side (right) |
| Unison.MixNext | src/synth/voice.rs:190-215 | one more unison sample extends the mix by one accumulation step |
| Unison.CarrierMixIsMix | src/synth/voice.rs:190-215 | the unison loop, which glides the note before every frequency, mixes exactly the carrier's samples |
| Unison.MixSides | src/synth/voice.rs:205-214 | with several oscillators the channels are the plain sum minus (left) and plus (right) spread times the pattern-weighted sum |
| Unison.SideStep | src/synth/voice.rs:208-213 | one weighted step keeps the sum / weighted-sum form |
| Unison.OneVoiceIsCentred | src/synth/voice.rs:205-206 | with one oscillator both channels carry its sample unchanged |
| Unison.MixIsBalanced | src/synth/voice.rs:205-214 | left plus right is always twice the plain sum of the samples, whatever the spread |
| Unison.DotOfConstant | src/synth/voice.rs:208-213 | a pattern-weighted sum of equal samples is the sample times the pattern's sum |
| Unison.BalancedPatternCentres | src/synth/voice.rs:205-214 | equal samples mixed with a zero-sum pattern are equally loud in both channels |
| Unison.EqualSamplesAreCentred | src/synth/voice.rs:205-214 | equal samples from all unison oscillators, at any spread, come out centred |
| SynthVoice.NoteOnEffect | src/synth/voice.rs:68-90 | after note_on the voice is playing, its current note (the glide state) is kept, and a repeated identical note_on changes nothing more |
| SynthVoice.NoteOffEffect | src/synth/voice.rs:83-90 | note_off leaves an idle voice idle and puts a playing voice's amp envelope in release; doing it twice is doing it once |
| SynthVoice.StepsCount | src/synth/voice.rs:168-247 | each sample makes 2·n glide updates (n per carrier), so i samples make 2·n·i |
| SynthVoice.BlockRender | src/synth/voice.rs:163-166 | the loop inputs of a generate call with n <= 7 oscillators take the rows of both pattern tables for n, which cover the bank and the block |
| SynthVoice.Samples | src/synth/voice.rs:168-285 | the voice's output over the first len samples has one stereo sample per index, sample j being the voice's sample j |
| SynthVoice.SampleGlide | src/synth/voice.rs:189-229 | a sample that starts after Steps(n, i) glide updates ends after Steps(n, i + 1) |
| SynthVoice.NewBank | src/synth/voice.rs:70-71 | a bank of n fresh oscillators |
| SynthVoice.Voice.constructor | src/synth/voice.rs:48-66 | Voice::new: no note, no bend, velocity and time 0, empty banks, both envelopes idle, a fresh LFO |
| SynthVoice.Voice.NoteOn | src/synth/voice.rs:68-81 | target note, velocity and time stored, both envelopes attack, the LFO restarts only with lfo_trig; both banks are rebuilt with `unison` fresh oscillators exactly when `osc1` has another size, and kept otherwise |
| SynthVoice.Voice.NoteOff | src/synth/voice.rs:83-86 | both envelopes are gated off |
| SynthVoice.Voice.IsPlaying | src/synth/voice.rs:88-90 | a voice is playing exactly when note_off would leave it releasing, that is, when its amp envelope is not idle |
| SynthVoice.Voice.GetOscillatorSemitone | src/synth/voice.rs:92-100 | the note makes one glide update toward the target and the result is note + bend + detune |
| SynthVoice.Voice.Frequncy | src/synth/voice.rs:102-106 | one glide update, then the semitone's frequency times 2^octave |
| SynthVoice.Voice.MixCarrier | src/synth/voice.rs:189-215 | a carrier's unison loop makes n glide updates and leaves the carrier's mix of its n samples |
| SynthVoice.Voice.Generate | src/synth/voice.rs:113-286 | generate reads the bend once, uses portamento 0 when PolyMode is 2 and the scaled value otherwise, makes the key-tracking glide, then adds each sample's output to both channels; the envelope stages end as the block leaves them, the buffer beyond `samples` is untouched |
| SynthVoice.Voice.ReadShared | src/synth/voice.rs:126-132 | the bend cell is read once into the voice; outside poly mode 2 the portamento cell is read once and scaled by the sample rate over 44100, in poly mode 2 it is untouched and the portamento is 0 |
| SynthVoice.Voice.RenderBlock | src/synth/voice.rs:153-285 | after the reads: the key-tracking glide, the pattern rows for the bank size, and the sample loop adding the voice's samples into both channels; the envelope stages end as the block leaves them |
| SynthVoice.Voice.GenerateLoop | src/synth/voice.rs:168-285 | sample i of both channels gains the voice's sample i; the note ends after 2·n updates per sample; nothing past `samples` changes |
| SynthVoice.Voice.RenderSample | src/synth/voice.rs:189-256 | one sample: both carriers' unison loops, their sum through the chain, and 2·n further glide updates |
| NihVoice.PhaseOscillator.constructor | src/voice.rs:67-69 | Oscillator::new, with the phase it starts at |
| NihVoice.PhaseOscillator.SetPhase | src/voice.rs:87 | set_phase stores the given phase |
| NihVoice.PhaseOscillator.Trig | src/voice.rs:91 | trig restarts the phase at 0 |
| NihVoice.NewBank | src/voice.rs:67-68 | `(0..MAX_UNISON).map(\|_\| Oscillator::new())`: as many fresh, pairwise distinct oscillators as phases given, each at its phase |
| NihVoice.EnvChange.constructor | src/voice.rs:71 | the shared AtomicU16 mask, as the set of its set bits |
| NihVoice.EnvChange.FetchAnd | src/voice.rs:160 | fetch_and returns the old mask and leaves old mask AND the argument |
| NihVoice.BitSetIsMember | src/voice.rs:159-160 | `bits & bit == bit` with `bit = 1u16 << id` holds exactly when bit id is set |
| NihVoice.EnvBitCleared | src/voice.rs:160 | after `fetch_and(!bit)` voice id's bit is clear |
| NihVoice.EnvBitOthersKept | src/voice.rs:158-160 | clearing voice id's bit keeps every other voice's bit, so a change is seen once by each voice |
| NihVoice.OctaveIndexInBounds | src/voice.rs:121-122 | `octave as usize + 2` (wrapping on 64 bits) indexes OCTIAVE_MULTIPLIER in bounds exactly for octaves -2 ..= 2, and is then octave + 2 |
| NihVoice.OctaveTable | src/voice.rs:120-122 | the table entry for octave k in -2 ..= 2 is 2^k |
| NihVoice.OctaveMultiplierOf | src/voice.rs:121-122 | the multiplier looked up for an octave in -2 ..= 2 is 2^octave |
| NihVoice.EnvAfterStep | src/voice.rs:320-321 | each next call advances an envelope by one process step and forgets the gate time when a release ends |
| NihVoice.SampleStepsCount | src/voice.rs:233-316 | each sample makes 1 + 2·n glide updates (key tracking, then n per carrier), so i samples make (1 + 2·n)·i |
| NihVoice.SampleGlide | src/voice.rs:237-316 | a sample that starts after SampleSteps(n, i) glide updates ends after SampleSteps(n, i + 1): one for key tracking and n per carrier |
| NihVoice.Samples | src/voice.rs:233-358 | the voice's output over the first len samples of the block has one stereo sample per index, sample j being the voice's sample j |
| NihVoice.BlockRender | src/voice.rs:179-182 | the loop inputs take the pattern rows for the voice's unison count |
| NihVoice.GenerateRender | src/voice.rs:145-182 | generate's loop inputs: bend 0, portamento 0 in poly mode and scaled to the sample rate otherwise, the envelopes after the parameter check, the pattern rows for the unison count |
| NihVoice.IdleVoiceIsSilent | src/voice.rs:320-357 | an idle envelope at level 0 makes the voice add nothing |
| NihVoice.PolyModeSnaps | src/voice.rs:152-156 | in poly mode the note is at the target after the first glide update |
| NihVoice.EnvLevelInUnit | src/voice.rs:320-321 | with safe segments the envelope levels a voice multiplies by stay in [0, 1] |
| NihVoice.Voice.constructor | src/voice.rs:57-75 | Voice::new: no note, no bend, velocity and time 0, unison 1, two banks of MAX_UNISON fresh oscillators, a fresh LFO, two fresh filters and two idle envelopes carrying the voice's id, sharing the given mask |
| NihVoice.Voice.NoteOn | src/voice.rs:77-98 | osc1's phases are set from start_phases (osc2 keeps its own), target note, unison, velocity and time stored, the LFO restarts only with lfo_trig, both envelopes attack from the current level |
| NihVoice.Voice.NoteOff | src/voice.rs:100-103 | both envelopes are gated off |
| NihVoice.Voice.IsPlaying | src/voice.rs:105-107 | a voice that is not playing keeps its amp envelope's stage, level and gate-on time however many samples are rendered |
| NihVoice.Voice.GetOscillatorSemitone | src/voice.rs:109-117 | the note makes one glide update toward the target and the result is note + bend + detune |
| NihVoice.Voice.Frequency | src/voice.rs:119-127 | one glide update, then the semitone's frequency times the octave's table entry, 2^octave |
| NihVoice.Voice.MixCarrier | src/voice.rs:258-316 | a carrier's unison loop makes n glide updates and leaves the carrier's mix of its n samples |
| NihVoice.Voice.Generate | src/voice.rs:134-359 | generate sets bend to 0, clears voice id's mask bit and loads new envelope parameters exactly when it was set, then adds each sample's output to output[c][block_start + i]; the note and envelopes end after the block's steps; nothing outside the block of the output changes; the oscillators' and filters' new state is not stated (see Left out) |
| NihVoice.Voice.RenderBlock | src/voice.rs:177-358 | everything after the parameter check, on the envelopes as they are |
| NihVoice.Voice.Prepare | src/voice.rs:145-175 | bend becomes 0, voice id's mask bit is taken, and both envelopes get the block's parameters exactly when it was set, keeping stage, level and gate-on time |
| NihVoice.Voice.UpdateEnvelopes | src/voice.rs:158-175 | the mask bit is taken and both envelopes get the block's parameters exactly when it was set |
| NihVoice.Voice.TakeEnvChange | src/voice.rs:159-160 | the test is true exactly when the bit was set, and the bit is cleared |
| NihVoice.Voice.GenerateLoop | src/voice.rs:233-358 | sample i of the block gains the voice's sample i, the note and both envelopes end after len samples, nothing else in the output changes; the oscillators' and filters' new state is not stated (see Left out) |
| NihVoice.Voice.Step | src/voice.rs:233-358 | one pass of the sample loop keeps the loop invariant: one more sample rendered and added into the block range, the rest of the output untouched |
| NihVoice.Voice.AddSample | src/voice.rs:356-357 | sample i is added into both channels at block_start + i, extending the added range by one and leaving every other index as it was |
| NihVoice.Voice.RenderSample | src/voice.rs:234-356 | one sample: the mix, one step of each envelope, the filter and the gain give the voice's sample i, and the note and envelopes advance by one sample |
| NihVoice.Voice.MixSample | src/voice.rs:237-324 | the key-tracking glide, both carriers' unison loops and their sum |
| NihVoice.Voice.StepEnvelopes | src/voice.rs:320-321 | one next call of each envelope, returning their new levels |

## Left out

- src/synth/envelope.rs, src/synth/midi.rs, src/synth/blep.rs, src/oscillator.rs and the module holding `SynthParams` and `MAX_BLOCK_SIZE` are not part of this model. The VST voice keeps only its envelopes' stages, and the stages after a block are inputs. The nih-plug oscillators are reduced to their phase. The BLEP table is an input with its length relation as a precondition. `MAX_BLOCK_SIZE` is the parameter `maxBlockSize`.
- Logging: the `debug!` calls of note_on and note_off (src/synth/mod.rs:59, :102) and the `info!` for an unparsable parameter name (src/synth/presets.rs:44) have no effect on the state and are left out.
- src/lib.rs (host callbacks, parameter transfer, logging, bank files), the editor layout and widget callbacks, slider painting and input, and src/editor/frame_history.rs: plugin and GUI glue outside the core.
- src/synth/huovilainen.rs: the same ladder recursion with library tanh and no cache. It adds only floating-point behaviour.
- Floating point: f32 and f64 values are reals. Rounding error, NaN and infinities are not modelled. The `as f32` casts are identities.
- exp, ln, exp2, log2, sqrt, sin and `freq_to_midi_pitch_fast` are uninterpreted functions (`Numerics.Math`). A member that needs one of their laws takes it as a precondition.
- Concurrency: `fetch_and` is a sequential read-modify-write, and the editor's mutex and `Arc` sharing are left out.
- Clocks and randomness: `Instant::now`, the system clock and the random initial oscillator phases are inputs.
- nih-plug parameter reads (`.value()`, `smoothed.next_block`) are the per-sample values given in a block.
- The oscillators' sample values in the voices, and the LFO's waveform, are inputs. `note_amplitude` is folded into those sample values.
- The filter audio inside a voice's `generate` is an input of the block. The filter itself is modelled in `Huovilainen`.
- NihVoice.Voice.Generate: requires id < 16, since `1u16 << id` overflows the mask beyond that.
- NihVoice.Voice.Generate: requires unison <= 7 (MaxUnison), because src/voice.rs:181-182 index the detune and spread pattern tables by the unison count and panic past their last row; the model leaves that panic out.
- NihVoice.Voice.RenderBlock: requires unison <= 7 (MaxUnison), for the same panic of the pattern tables at src/voice.rs:181-182.
- NihVoice.Voice.Generate: requires both octaves in -2 ..= 2, because any other octave indexes `OCTIAVE_MULTIPLIER` out of bounds and panics.
- NihVoice.Voice.RenderBlock: requires both octaves in -2 ..= 2, for the same `OCTIAVE_MULTIPLIER` panic.
- NihVoice.Voice.MixCarrier: requires the carrier's octave in -2 ..= 2, for the same `OCTIAVE_MULTIPLIER` panic.
- Oscillator.AddBlepState: the table is a total function, so a correction is computed even where add_blep reads `BLEPDATA[in_index + 1]` past the end and panics (src/synth/oscillator.rs:80, 90). That happens once floor(KTABLE * offset) + 1 reaches 2 KTABLE + BLEPDATA.len() % KTABLE (Oscillator.LastTapInTable): from an offset of 2 - 1/KTABLE on when KTABLE divides BLEPDATA.len(), and from an offset of 3 on in every case. For offsets in [0, 1] the reads are in bounds (Oscillator.UnitOffsetInTable).
- Oscillator.Osc.AddBlep: the same unmodelled panic on reading the table past its end; the buffer is still BlepWritten of the old one there.
- Oscillator.Osc.AddLoop: the same unmodelled panic in the accumulate loop (src/synth/oscillator.rs:80).
- Oscillator.Osc.CopyLoop: the same unmodelled panic in the copy loop (src/synth/oscillator.rs:90).
- Oscillator.GenerateSpec: defined for every dp, but with dp > 1 the Saw wrap lowers the phase by only 1 per sample, so the phase and the offset phase / dp grow until add_blep panics (Oscillator.OverrunAtLargeOffset); dp > 1 is reachable, since note 127 at octave +2 or +3 is above 44.1 kHz. The model yields a sample there. For 0 < dp <= 1 the Saw reads stay in the table (Oscillator.SawWrapReadsInTable).
- Oscillator.Osc.Generate: the same unmodelled add_blep panic for dp > 1; the method equals GenerateSpec there.
- Midi.MidiPitchToFreq: the panic of the POW2 lookup for pitches of 2^31 or more is modelled as None, but a debug build also panics earlier, on the overflow of `pitch_int + 256` from 2^31 - 256 on; the model follows the release build, whose wrap Midi.PitchIndex states.
- Midi.LowPitchesSaturate: stops at i32::MIN, because below it `as i32` saturates, a is then -1000 or less, and the weight pow2frac = a extrapolates beyond POW2[0] instead of reading it.
- Midi.HighPitchesSaturate: stops at i32::MAX - 187, because above it the sums wrap (Midi.TopPitchesWrap).
- NihVoice.PitchToFreq: gives 0 Hz for a pitch of 2^31 or more, where midi_pitch_to_freq panics; rendering does not model that panic.
- NihVoice.Voice.Frequency: requires the octave in -2 ..= 2, since any other octave indexes `OCTIAVE_MULTIPLIER` out of bounds and panics (NihVoice.OctaveIndexInBounds).
- Presets.RoundTrip: covers Linear and Logarithmic parameters only. A Discrete parameter comes back rounded to its grid (Parameters.DiscreteRoundTrip).
- Synth.Synth.GenerateAudio: states each voice's output through `Rendered` and the bend and portamento cells after the block, but does not restate each voice's new note and bend (those follow from SynthVoice.Voice.Generate). The frame lets every voice's LFO and oscillators and every `Smoothed` cell change, as the code does, but the contract does not state the oscillators' new state or the other cells' new state: their values are inputs of the block.
- Synth.Synth.RunVoices: the same unstated new state of the LFOs, oscillators and `Smoothed` cells other than bend and portamento, over the voices run so far.
- Synth.Synth.AddVoice: the same unstated new state of one voice's LFO and oscillators and of the other `Smoothed` cells.
- Synth.Synth.PlayVoice: the same unstated new state of one playing voice's LFO and oscillators and of the other `Smoothed` cells.
- SynthVoice.Voice.MixCarrier: the frame lets the LFO and every unison oscillator change (phase, correction buffer, cursors), as the code's `generate` calls do, but the contract does not state their new state, because the oscillators' samples are inputs of the block.
- SynthVoice.Voice.Generate: the frame lets the LFO and every unison oscillator change (phase, correction buffer, cursors), as the code's `generate` calls do, but the contract does not state their new state. The cells in `cells` may change too, and their new state is not stated either.
- SynthVoice.Voice.Generate: requires |osc1| <= 7 (MaxUnison): src/synth/voice.rs:163-166 index the pattern tables by the bank size and panic past row 7, and the model leaves that panic out.
- SynthVoice.Voice.RenderBlock: the frame lets the LFO and every unison oscillator change (phase, correction buffer, cursors), as the code's `generate` calls do, but the contract does not state their new state, because the oscillators' samples are inputs of the block.
- SynthVoice.Voice.GenerateLoop: the frame lets the LFO and every unison oscillator change (phase, correction buffer, cursors), as the code's `generate` calls do, but the contract does not state their new state, because the oscillators' samples are inputs of the block.
- SynthVoice.Voice.RenderSample: the frame lets the LFO and every unison oscillator change (phase, correction buffer, cursors), as the code's `generate` calls do, but the contract does not state their new state, because the oscillators' samples are inputs of the block.
- NihVoice.Voice.MixCarrier: the frame lets the voice's oscillators change, as `generate` advances them, but the contract does not state their new phases, because their samples are inputs of the block.
- NihVoice.Voice.MixSample: the same unstated new phases of the oscillators.
- NihVoice.Voice.Generate: the frame lets the LFO, the unison oscillators and both `HuovilainenMoog` filters (stage, tanh and delay arrays, cached coefficients) change, as the code does, but the contract does not state their new state, because the oscillator samples and the filter output are inputs of the block.
- NihVoice.Voice.RenderBlock: the same unstated new state of the LFO, oscillators and filters.
- NihVoice.Voice.GenerateLoop: the same unstated new state of the LFO, oscillators and filters.
- NihVoice.Voice.Step: the same unstated new state of the LFO, oscillators and filters, for one sample.
- NihVoice.Voice.RenderSample: the same unstated new state of the LFO, oscillators and filters, for one sample.
- `freq_to_midi_pitch` and the pitch-error sweep of src/midi.rs:75-84: these are float accuracy checks, not logic.

## Findings

| source | as written | input that shows it | evidently intended | confidence | as-written member | corrected member |
|---|---|---|---|---|---|---|
| src/synth/mod.rs:110-115 | the bend is (d2·256 + d1) / 16384 − 1: the MSB is weighted by 256 | data bytes (d1, d2) = (127, 63), one step below the centre, give −129/16384 instead of −1/8192; each LSB step moves the value by only half a 14-bit step, and values jump at every MSB step | MIDI 1.0 Pitch Bend Change: the 14-bit value d2·128 + d1, centred on 0x2000, gives (d2·128 + d1) / 8192 − 1 | not executed | Synth.BendValueAsWritten, Synth.BendValueAsWrittenCounterexample, Synth.BendValueForms, Synth.Synth.PitchBend | Synth.BendValue, Synth.BendValueMonotone, Synth.Synth.PitchBendCorrected |
