/**
 * The linear parameter ramp shared by both processors: `currentTime_` in the delay and
 * `sizeCurrent_` in the reverb move once per sample by a fixed step toward the value the
 * control currently asks for.
 */
module Ramp {

  /** The per-sample increment, `0.000005f` in both processors. */
  const Step: real := 0.000005

  /** One sample of the ramp: up by `Step` when below the target, down when above. */
  function Next(current: real, target: real): real
  {
    if current < target then current + Step
    else if current > target then current - Step
    else current
  }

  /** The ramp after `k` samples toward a fixed target. */
  function Iterate(current: real, target: real, k: nat): real
  {
    if k == 0 then current else Next(Iterate(current, target, k - 1), target)
  }

  /** Lower end of the interval the ramp never leaves while the target stays put. */
  function Low(current: real, target: real): real
  {
    if current < target - Step then current else target - Step
  }

  /** Upper end of that interval. */
  function High(current: real, target: real): real
  {
    if current > target + Step then current else target + Step
  }

  /**
   * A step moves by exactly `Step` toward the target, or not at all when the ramp has
   * reached it; it never jumps by more than `Step`.
   */
  lemma NextMovesTowardTarget(current: real, target: real)
    ensures var r := Next(current, target);
            (current < target ==> r - current == Step) &&
            (current > target ==> current - r == Step) &&
            (current == target ==> r == current) &&
            -Step <= r - current <= Step
  {
  }

  /** A step never takes the ramp farther from the target than it was. */
  lemma NextNeverOvershootsBeyondStep(current: real, target: real)
    ensures var r := Next(current, target);
            (current <= target ==> r <= target + Step) &&
            (current >= target ==> r >= target - Step) &&
            (current < target - Step ==> current < r < target) &&
            (current > target + Step ==> target < r < current)
  {
  }

  /** While the target does not move, the ramp stays inside `[Low, High]` and that interval only shrinks. */
  lemma NextStaysInBand(current: real, target: real)
    ensures var r := Next(current, target);
            Low(current, target) <= r <= High(current, target) &&
            Low(current, target) <= Low(r, target) &&
            High(r, target) <= High(current, target)
  {
  }

  /** Far from the target, `k` samples move the ramp by exactly `k` steps: a linear ramp. */
  lemma {:induction false} IterateIsLinear(current: real, target: real, k: nat)
    requires current + k as real * Step <= target
    ensures Iterate(current, target, k) == current + k as real * Step
  {
    if k > 0 {
      IterateIsLinear(current, target, k - 1);
    }
  }

  /** The mirror image: ramping down. */
  lemma {:induction false} IterateIsLinearDown(current: real, target: real, k: nat)
    requires target <= current - k as real * Step
    ensures Iterate(current, target, k) == current - k as real * Step
  {
    if k > 0 {
      IterateIsLinearDown(current, target, k - 1);
    }
  }

  /** A ramp that has reached its target stays there. */
  lemma {:induction false} SettledStaysPut(target: real, k: nat)
    ensures Iterate(target, target, k) == target
  {
    if k > 0 {
      SettledStaysPut(target, k - 1);
    }
  }
}
