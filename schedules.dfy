/** The schedule builders of the snowball demonstration: MakeStepDown, the
    in-place step-down of the knock-out ratios, and numpy's arange, which the
    Python demonstrations use to lay out the price grid (the JavaScript one
    uses numjs's arange, which agrees for a positive step). Ratios and prices are
    reals; floating-point rounding is not modelled. */
module Schedules {
  import opened Fields

  /** How many times Python's `for i in range(n)` runs: never when n is negative. */
  function RangeLen(n: int): (k: nat)
    ensures n >= 0 ==> k == n
    ensures n <= 0 ==> k == 0
  {
    if n < 0 then 0 else n
  }

  // ---------------------------------------------------------------- MakeStepDown

  /** How many entries stay at the default ratio before the step-down begins. */
  function FlatCount(observeStart: int, stepdownStart: int): nat {
    RangeLen(stepdownStart - observeStart - 1)
  }

  /** How many entries the step-down block has (`stepdown_times`). */
  function StepCount(duration: int, stepdownStart: int): nat {
    RangeLen(duration - stepdownStart + 2)
  }

  /** The ratio at position p of the schedule: the default ratio in the flat
      block, then the default ratio lowered by stepdownRatio per position of
      the step-down block. */
  function StepDownAt(p: int, flat: nat, defaultRatio: real, stepdownRatio: real): real {
    if p < flat then defaultRatio else defaultRatio - stepdownRatio * (p - flat) as real
  }

  /** The schedule MakeStepDown returns. */
  ghost function StepDown(duration: int, observeStart: int, defaultRatio: real,
                          stepdownStart: int, stepdownRatio: real): seq<real>
  {
    var flat := FlatCount(observeStart, stepdownStart);
    seq(flat + StepCount(duration, stepdownStart),
        p => StepDownAt(p, flat, defaultRatio, stepdownRatio))
  }

  /** MakeStepDown: appends the default ratio once per month before the
      step-down starts, then one entry per step-down month, each lower than
      the last by stepdownRatio. */
  method MakeStepDown(duration: int, observeStart: int, defaultRatio: real,
                      stepdownStart: int, stepdownRatio: real)
    returns (stepdown: seq<real>)
    ensures stepdown == StepDown(duration, observeStart, defaultRatio, stepdownStart, stepdownRatio)
  {
    stepdown := [];
    var stepdownTimes := duration - stepdownStart + 2;
    var flat := FlatCount(observeStart, stepdownStart);
    var i := 0;
    while i < stepdownStart - observeStart - 1
      invariant 0 <= i <= flat
      invariant |stepdown| == i
      invariant forall p :: 0 <= p < i ==> stepdown[p] == defaultRatio
    {
      stepdown := stepdown + [defaultRatio];
      i := i + 1;
    }
    i := 0;
    while i < stepdownTimes
      invariant 0 <= i <= StepCount(duration, stepdownStart)
      invariant |stepdown| == flat + i
      invariant forall p :: 0 <= p < flat + i ==>
                  stepdown[p] == StepDownAt(p, flat, defaultRatio, stepdownRatio)
    {
      stepdown := stepdown + [defaultRatio - stepdownRatio * i as real];
      i := i + 1;
    }
  }

  /** The schedule's length: max(0, stepdownStart - observeStart - 1) entries
      at the default ratio plus max(0, duration - stepdownStart + 2) step-down
      entries. */
  lemma StepDownLength(duration: int, observeStart: int, defaultRatio: real,
                       stepdownStart: int, stepdownRatio: real)
    ensures var s := StepDown(duration, observeStart, defaultRatio, stepdownStart, stepdownRatio);
            var flat := stepdownStart - observeStart - 1;
            var times := duration - stepdownStart + 2;
            |s| == (if flat > 0 then flat else 0) + (if times > 0 then times else 0)
  {
  }

  /** The values: the flat block holds the default ratio, and entry i of the
      step-down block is defaultRatio - stepdownRatio * i, so that block also
      starts at the default ratio. */
  lemma StepDownValues(duration: int, observeStart: int, defaultRatio: real,
                       stepdownStart: int, stepdownRatio: real)
    ensures var s := StepDown(duration, observeStart, defaultRatio, stepdownStart, stepdownRatio);
            var flat := if stepdownStart - observeStart - 1 > 0 then stepdownStart - observeStart - 1 else 0;
            && (forall p :: 0 <= p < flat ==> s[p] == defaultRatio)
            && (forall p :: flat <= p < |s| ==> s[p] == defaultRatio - stepdownRatio * (p - flat) as real)
  {
  }

  /** When the step-down starts after the first observation and at most two
      months past the end, the schedule has one entry per observation month,
      observeStart through duration. */
  lemma StepDownCoversObservations(duration: int, observeStart: int, defaultRatio: real,
                                   stepdownStart: int, stepdownRatio: real)
    requires observeStart < stepdownStart <= duration + 2
    ensures |StepDown(duration, observeStart, defaultRatio, stepdownStart, stepdownRatio)|
            == duration - observeStart + 1
  {
  }

  /** With a non-negative step the schedule never goes up. */
  lemma {:induction false} StepDownNonIncreasing(duration: int, observeStart: int, defaultRatio: real,
                                                 stepdownStart: int, stepdownRatio: real)
    requires stepdownRatio >= 0.0
    ensures var s := StepDown(duration, observeStart, defaultRatio, stepdownStart, stepdownRatio);
            forall p, q :: 0 <= p <= q < |s| ==> s[q] <= s[p]
  {
    var flat := FlatCount(observeStart, stepdownStart);
    var s := StepDown(duration, observeStart, defaultRatio, stepdownStart, stepdownRatio);
    forall p, q | 0 <= p <= q < |s| ensures s[q] <= s[p] {
      NonIncreasingAt(p, q, flat, defaultRatio, stepdownRatio);
    }
  }

  lemma NonIncreasingAt(p: int, q: int, flat: nat, defaultRatio: real, stepdownRatio: real)
    requires stepdownRatio >= 0.0 && 0 <= p <= q
    ensures StepDownAt(q, flat, defaultRatio, stepdownRatio) <= StepDownAt(p, flat, defaultRatio, stepdownRatio)
  {
    if q >= flat {
      MulMonotone(stepdownRatio, if p >= flat then (p - flat) as real else 0.0, (q - flat) as real);
      assert stepdownRatio * 0.0 == 0.0;
    }
  }

  lemma MulMonotone(k: real, x: real, y: real)
    requires k >= 0.0 && x <= y
    ensures k * x <= k * y
  {
  }

  // ------------------------------------------------------- knock_o_rate step-down

  /** The knock-out ratio schedule the snowball demonstration builds: n
      observation dates, entry i at knockORatio lowered by i * knockOSteps. */
  ghost function LinearStepDown(n: nat, knockORatio: real, knockOSteps: real): seq<real> {
    seq(n, i => knockORatio - i as real * knockOSteps)
  }

  /** The loop over knock_o_rate: entry i is lowered by i * knockOSteps, in
      place; the array keeps its length and iteration i touches entry i only. */
  method StepDownInPlace(rate: array<real>, knockOSteps: real)
    modifies rate
    ensures forall i :: 0 <= i < rate.Length ==> rate[i] == old(rate[i]) - i as real * knockOSteps
  {
    var i := 0;
    while i < rate.Length
      invariant 0 <= i <= rate.Length
      invariant forall p :: 0 <= p < i ==> rate[p] == old(rate[p]) - p as real * knockOSteps
      invariant forall p :: i <= p < rate.Length ==> rate[p] == old(rate[p])
    {
      ghost var before := rate[..];
      rate[i] := rate[i] - i as real * knockOSteps;
      assert forall p :: 0 <= p < rate.Length && p != i ==> rate[p] == before[p];
      i := i + 1;
    }
  }

  /** `np.array([1.0] * n) * knock_o_ratio`, then the step-down loop; returns
      the list assigned to config.knock_o_rate. */
  method BuildKnockORate(n: nat, knockORatio: real, knockOSteps: real) returns (rates: seq<real>)
    ensures rates == LinearStepDown(n, knockORatio, knockOSteps)
  {
    var rate := new real[n](_ => 1.0 * knockORatio);
    assert forall i :: 0 <= i < n ==> rate[i] == knockORatio;
    StepDownInPlace(rate, knockOSteps);
    rates := rate[..];
    assert forall i :: 0 <= i < n ==> rates[i] == LinearStepDown(n, knockORatio, knockOSteps)[i];
  }

  /** With a zero step, as in the demonstration, every entry is knockORatio;
      with a positive step the schedule falls strictly. */
  lemma LinearStepDownShape(n: nat, knockORatio: real, knockOSteps: real)
    ensures var s := LinearStepDown(n, knockORatio, knockOSteps);
            && |s| == n
            && (knockOSteps == 0.0 ==> forall i :: 0 <= i < n ==> s[i] == knockORatio)
            && (knockOSteps > 0.0 ==> forall i, j :: 0 <= i < j < n ==> s[j] < s[i])
  {
    var s := LinearStepDown(n, knockORatio, knockOSteps);
    if knockOSteps > 0.0 {
      forall i, j | 0 <= i < j < n ensures s[j] < s[i] {
        MulStrict(knockOSteps, i as real, j as real);
      }
    }
  }

  lemma MulStrict(k: real, x: real, y: real)
    requires k > 0.0 && x < y
    ensures x * k < y * k
  {
  }

  // ------------------------------------------------------------------- arange

  /** How many points numpy's arange(start, stop, step) yields:
      ceil((stop - start) / step), and none when that is negative. */
  function ArangeLen(start: real, stop: real, step: real): nat
    requires step != 0.0
  {
    var n := -((start - stop) / step).Floor;
    if n < 0 then 0 else n
  }

  /** numpy's arange(start, stop, step): start, start + step, ... up to but
      excluding stop; None for a zero step, where numpy raises. */
  function Arange(start: real, stop: real, step: real): (r: Option<seq<real>>)
    ensures r.Some? <==> step != 0.0
    ensures r.Some? ==> |r.value| == ArangeLen(start, stop, step)
                        && forall i :: 0 <= i < |r.value| ==> r.value[i] == start + i as real * step
  {
    if step == 0.0 then None
    else Some(seq(ArangeLen(start, stop, step), i => start + i as real * step))
  }

  /** The demonstrations ask for arange(lo, hi + step, step) so that both
      bounds are included: when hi - lo is k whole steps the result has k + 1
      points, from lo up to hi, strictly ascending. */
  lemma ArangeIncludesBounds(lo: real, hi: real, step: real, k: nat)
    requires step > 0.0 && hi - lo == k as real * step
    ensures var r := Arange(lo, hi + step, step);
            && r.Some?
            && |r.value| == k + 1
            && r.value[0] == lo && r.value[k] == hi
            && forall i, j :: 0 <= i < j <= k ==> r.value[i] < r.value[j]
  {
    var q := (lo - (hi + step)) / step;
    assert lo - (hi + step) == -((k + 1) as real) * step;
    assert q == -((k + 1) as real);
    var r := Arange(lo, hi + step, step).value;
    forall i, j | 0 <= i < j <= k ensures r[i] < r[j] {
      MulStrict(step, i as real, j as real);
    }
  }
}
