/** The one-pole parameter cell of the VST engine (Smoothed in src/synth/mod.rs):
    writes set a target, and every continuous read moves the state a tenth of
    the way towards it before returning the state. */
module Smoothing {
  import opened Numerics

  /** FILTER_FACTOR: the fraction of the distance a read covers. */
  const FilterFactor: real := 0.1

  /** The state after one get. */
  function SmoothStep(state: real, target: real): real
  {
    state + (target - state) * FilterFactor
  }

  /** The state after k gets with an unchanged target. */
  function SmoothN(state: real, target: real, k: nat): real
    decreases k
  {
    if k == 0 then state else SmoothStep(SmoothN(state, target, k - 1), target)
  }

  /** 0.9^k: the part of the distance to the target left after k gets. */
  function Remaining(k: nat): (r: real)
    ensures 0.0 < r <= 1.0
    decreases k
  {
    if k == 0 then 1.0 else 0.9 * Remaining(k - 1)
  }

  /** A get keeps the state on the same side of the target and shrinks the
      distance to it by exactly the factor 0.9. */
  lemma StepShrinks(state: real, target: real)
    ensures target - SmoothStep(state, target) == 0.9 * (target - state)
    ensures Abs(target - SmoothStep(state, target)) == 0.9 * Abs(target - state)
    ensures state <= target ==> state <= SmoothStep(state, target) <= target
    ensures target <= state ==> target <= SmoothStep(state, target) <= state
  {
  }

  /** After k gets the distance to the target is 0.9^k of the initial one. */
  lemma {:induction false} SmoothNShrinks(state: real, target: real, k: nat)
    ensures target - SmoothN(state, target, k) == Remaining(k) * (target - state)
    decreases k
  {
    if k > 0 {
      SmoothNShrinks(state, target, k - 1);
      var prev := SmoothN(state, target, k - 1);
      StepShrinks(prev, target);
      var r, d := Remaining(k - 1), target - state;
      assert 0.9 * (r * d) == (0.9 * r) * d;
    }
  }

  /** A settled cell stays settled. */
  lemma {:induction false} SettledStays(target: real, k: nat)
    ensures SmoothN(target, target, k) == target
    decreases k
  {
    if k > 0 {
      SettledStays(target, k - 1);
    }
  }

  /** 0.9^k strictly decreases with k. */
  lemma {:induction false} RemainingDecreases(j: nat, k: nat)
    requires j < k
    ensures Remaining(k) < Remaining(j)
    decreases k
  {
    if j < k - 1 {
      RemainingDecreases(j, k - 1);
    }
  }

  /** A cell away from its target never repeats a state: reads j and k give
      different values whenever j != k. */
  lemma ReadsDiffer(state: real, target: real, j: nat, k: nat)
    requires state != target && j != k
    ensures SmoothN(state, target, j) != SmoothN(state, target, k)
  {
    SmoothNShrinks(state, target, j);
    SmoothNShrinks(state, target, k);
    if j < k {
      RemainingDecreases(j, k);
    } else {
      RemainingDecreases(k, j);
    }
    var d := target - state;
    var e := Remaining(j) - Remaining(k);
    assert e * d != 0.0;
    assert Remaining(j) * d - Remaining(k) * d == e * d;
  }

  /** get_discrete: the target rounded half away from zero, cast to i32 (saturating). */
  function Discrete(target: real): (r: int)
    ensures I32Min <= r <= I32Max
    ensures I32Min as real <= target <= I32Max as real ==> -0.5 <= target - r as real <= 0.5
  {
    SaturateI32(Round(target))
  }

  /** A whole-number target within i32 reads back exactly. */
  lemma DiscreteOfInteger(k: int)
    requires I32Min <= k <= I32Max
    ensures Discrete(k as real) == k
  {
    RoundInteger(k);
  }

  class Smoothed {
    var state: real
    var target: real

    /** Smoothed::default(). */
    constructor ()
      ensures state == 0.0 && target == 0.0
    {
      state := 0.0;
      target := 0.0;
    }

    /** set: only the target changes. */
    method Set(value: real)
      modifies this`target
      ensures target == value
    {
      target := value;
    }

    /** get: the state moves a tenth of the way to the target and is returned. */
    method Get() returns (r: real)
      modifies this`state
      ensures state == SmoothStep(old(state), target) && r == state
    {
      state := state + (target - state) * FilterFactor;
      r := state;
    }

    /** get_discrete: reads the target, changes nothing. */
    method GetDiscrete() returns (r: int)
      ensures r == Discrete(target)
      ensures I32Min as real <= target <= I32Max as real ==> -0.5 <= target - r as real <= 0.5
    {
      r := SaturateI32(Round(target));
    }
  }
}
