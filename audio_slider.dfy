/** The editor's audio slider (src/editor/audio_slider.rs): the maps between a
    slider value and its normalized position in [0, 1], which mirror a reversed
    range, and the clamping access to the value behind the slider. */
module AudioSlider {
  import opened Numerics

  /** egui's lerp over start..=end: (1 - t) * start + t * end. For t in [0, 1]
      it lands between its ends, whichever end is the larger. */
  function Lerp(start: real, end: real, t: real): (r: real)
    ensures 0.0 <= t <= 1.0 ==> Numerics.Min(start, end) <= r <= Numerics.Max(start, end)
  {
    var d := end - start;
    assert 0.0 <= t <= 1.0 ==> Numerics.Min(start, end) <= start + t * d <= Numerics.Max(start, end) by {
      if 0.0 <= t <= 1.0 {
        if start <= end {
          MulNonNeg(t, d);
          MulNonNeg(1.0 - t, d);
        } else {
          MulNonNeg(t, -d);
          MulNonNeg(1.0 - t, -d);
        }
      }
    }
    (1.0 - t) * start + t * end
  }

  /** egui's remap_clamp of x from from0..=from1 onto to0..=to1: a reversed source
      range is mirrored, values outside the source range go to an end, and the
      rest are mapped linearly. The result always lies between the target ends. */
  function RemapClamp(x: real, from0: real, from1: real, to0: real, to1: real): (r: real)
    ensures Numerics.Min(to0, to1) <= r <= Numerics.Max(to0, to1)
    decreases if from1 < from0 then 1 else 0
  {
    if from1 < from0 then RemapClamp(x, from1, from0, to1, to0)
    else if x <= from0 then to0
    else if from1 <= x then to1
    else
      var t := (x - from0) / (from1 - from0);
      assert 0.0 <= t by {
        assert t * (from1 - from0) == x - from0;
        PositiveFactor(t, from1 - from0);
      }
      if 1.0 <= t then to1 else Lerp(to0, to1, t)
  }

  /** value_from_normalized: the slider value at normalized position n. It lies
      in the range whatever its orientation; min == max gives min, and for
      min < max the ends of [0, 1] give the ends of the range. */
  function ValueFromNormalized(n: real, min: real, max: real): (r: real)
    ensures Numerics.Min(min, max) <= r <= Numerics.Max(min, max)
    ensures min == max ==> r == min
    ensures min < max && n <= 0.0 ==> r == min
    ensures min < max && 1.0 <= n ==> r == max
    ensures min < max && 0.0 < n < 1.0 ==> r == Lerp(min, max, n)
    decreases if min > max then 1 else 0
  {
    if min == max then min
    else if min > max then ValueFromNormalized(1.0 - n, max, min)
    else if n <= 0.0 then min
    else if n >= 1.0 then max
    else Lerp(min, max, Clamp(n, 0.0, 1.0))
  }

  /** normalized_from_value: the normalized position of slider value v. It
      always lies in [0, 1], and is 0.5 for an empty range. */
  function NormalizedFromValue(v: real, min: real, max: real): (r: real)
    ensures 0.0 <= r <= 1.0
    ensures min == max ==> r == 0.5
    decreases if min > max then 1 else 0
  {
    if min == max then 0.5
    else if min > max then 1.0 - NormalizedFromValue(v, max, min)
    else if v <= min then 0.0
    else if v >= max then 1.0
    else RemapClamp(v, min, max, 0.0, 1.0)
  }

  /** A strictly-inside t lerps strictly inside min..max. */
  lemma LerpInside(min: real, max: real, t: real)
    requires min < max && 0.0 < t < 1.0
    ensures min < Lerp(min, max, t) < max
    ensures Lerp(min, max, t) == min + t * (max - min)
  {
    var d := max - min;
    var u := 1.0 - t;
    MulPositive(t, d);
    MulPositive(u, d);
    assert u * d + t * d == d;
    assert min + t * d < max;
    assert Lerp(min, max, t) == min + t * d;
  }

  /** Inside an increasing range remap_clamp onto 0..=1 is (v - min) / (max - min). */
  lemma RemapInside(v: real, min: real, max: real)
    requires min < v < max
    ensures RemapClamp(v, min, max, 0.0, 1.0) == (v - min) / (max - min)
    ensures 0.0 < (v - min) / (max - min) < 1.0
  {
    var d := max - min;
    var t := (v - min) / d;
    assert t * d == v - min;
    PositiveFactor(t, d);
    assert (1.0 - t) * d == max - v;
    PositiveFactor(1.0 - t, d);
    assert Lerp(0.0, 1.0, t) == t;
  }

  /** Reading the range backwards mirrors the position: this holds for every
      range, not only the reversed ones the definition treats. */
  lemma Mirror(n: real, v: real, a: real, b: real)
    ensures ValueFromNormalized(n, a, b) == ValueFromNormalized(1.0 - n, b, a)
    ensures NormalizedFromValue(v, a, b) == 1.0 - NormalizedFromValue(v, b, a)
  {
    if a < b {
      assert 1.0 - (1.0 - n) == n;
    }
  }

  /** For a non-empty range and n in [0, 1], the position of the value at n is n. */
  lemma NormalizedOfValue(n: real, min: real, max: real)
    requires min != max && 0.0 <= n <= 1.0
    ensures NormalizedFromValue(ValueFromNormalized(n, min, max), min, max) == n
  {
    if min < max {
      IncreasingNormalizedOfValue(n, min, max);
    } else {
      IncreasingNormalizedOfValue(1.0 - n, max, min);
    }
  }

  lemma IncreasingNormalizedOfValue(n: real, min: real, max: real)
    requires min < max && 0.0 <= n <= 1.0
    ensures NormalizedFromValue(ValueFromNormalized(n, min, max), min, max) == n
  {
    if 0.0 < n < 1.0 {
      var v := Lerp(min, max, n);
      LerpInside(min, max, n);
      RemapInside(v, min, max);
      var d := max - min;
      assert v - min == n * d;
      assert (v - min) / d == n;
    }
  }

  /** For an increasing range the value at the position of v is v clamped to the range. */
  lemma ValueOfNormalized(v: real, min: real, max: real)
    requires min < max
    ensures ValueFromNormalized(NormalizedFromValue(v, min, max), min, max) == Clamp(v, min, max)
  {
    if min < v < max {
      RemapInside(v, min, max);
      var d := max - min;
      var t := (v - min) / d;
      assert NormalizedFromValue(v, min, max) == t;
      assert t * d == v - min;
      LerpInside(min, max, t);
      assert ValueFromNormalized(t, min, max) == Lerp(min, max, t);
    }
  }

  /** AudioSlider: the value range and the value behind the get/set closure.
      The step is always None (from_get_set is the only constructor). */
  class AudioSlider {
    const rangeStart: real
    const rangeEnd: real
    /** The value the get/set closure reads and writes. */
    var stored: real

    /** from_get_set over rangeStart..=rangeEnd, with the closure's current value. */
    constructor FromGetSet(rangeStart: real, rangeEnd: real, stored: real)
      ensures this.rangeStart == rangeStart && this.rangeEnd == rangeEnd && this.stored == stored
    {
      this.rangeStart := rangeStart;
      this.rangeEnd := rangeEnd;
      this.stored := stored;
    }

    /** get_value: the stored value clamped to the range, in either orientation. */
    method GetValue() returns (v: real)
      ensures v == Clamp(stored, Numerics.Min(rangeStart, rangeEnd), Numerics.Max(rangeStart, rangeEnd))
      ensures Numerics.Min(rangeStart, rangeEnd) <= v <= Numerics.Max(rangeStart, rangeEnd)
    {
      var start := rangeStart;
      var end := rangeEnd;
      v := Clamp(stored, Numerics.Min(start, end), Numerics.Max(start, end));
    }

    /** set_value: the value clamped to the range is stored unrounded. */
    method SetValue(value: real)
      modifies this`stored
      ensures stored == Clamp(value, Numerics.Min(rangeStart, rangeEnd), Numerics.Max(rangeStart, rangeEnd))
    {
      var start := rangeStart;
      var end := rangeEnd;
      stored := Clamp(value, Numerics.Min(start, end), Numerics.Max(start, end));
    }

    /** value_from_position: the mouse position clamped into the position range,
        normalized, and mapped onto the slider range. */
    method ValueFromPosition(position: real, position0: real, position1: real) returns (v: real)
      ensures v == ValueFromNormalized(RemapClamp(position, position0, position1, 0.0, 1.0), rangeStart, rangeEnd)
      ensures Numerics.Min(rangeStart, rangeEnd) <= v <= Numerics.Max(rangeStart, rangeEnd)
    {
      var normalized := RemapClamp(position, position0, position1, 0.0, 1.0);
      v := ValueFromNormalized(normalized, rangeStart, rangeEnd);
    }
  }
}
