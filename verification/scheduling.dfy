// The reserved interactive slice: how an instance's mutation budget is divided.
module Scheduling {
  import opened Options
  import opened ClaimSpec

  const DEFAULT_SLICE_FRACTION: real := 0.2

  function Ceil(x: real): int { -((-x).Floor) }

  // None is the thrown configuration error.
  function ParseSliceFraction(raw: Option<real>): Option<real> {
    if raw.None? then Some(DEFAULT_SLICE_FRACTION)
    else if raw.value < 0.0 || raw.value > 1.0 then None
    else raw
  }

  // At least one slot, at most all of them.
  function SlotsFor(n: int, x: real): int { Min(n, Max(1, Ceil(x))) }

  function ComputeInteractiveSlots(mutationConcurrency: int, fraction: real): int {
    if mutationConcurrency <= 1 then 0
    else if fraction <= 0.0 then 0
    else SlotsFor(mutationConcurrency, mutationConcurrency as real * fraction)
  }

  function BatchSlots(mutationConcurrency: int, fraction: real): int {
    mutationConcurrency - ComputeInteractiveSlots(mutationConcurrency, fraction)
  }

  lemma CeilIsLeast(x: real, k: int)
    ensures k as real >= x <==> k >= Ceil(x)
  {
  }

  // The configured fraction is taken when it lies between 0 and 1, and 0.2 stands for
  // none. A positive one on a budget of two or more reserves the least whole number of
  // slots that covers it, never none and never more than the budget; batch work keeps
  // the most that fits in the rest.
  lemma SliceIsLeastCover(n: int, raw: Option<real>, k: int)
    ensures ParseSliceFraction(raw).None? <==> raw.Some? && !(0.0 <= raw.value <= 1.0)
    ensures ParseSliceFraction(raw).Some? ==> ParseSliceFraction(raw).value == if raw.Some? then raw.value else 0.2
    ensures n >= 2 && ParseSliceFraction(raw).Some? && ParseSliceFraction(raw).value > 0.0 ==>
      var f := ParseSliceFraction(raw).value;
      && 1 <= ComputeInteractiveSlots(n, f) <= n
      && (k >= ComputeInteractiveSlots(n, f) <==> k as real >= n as real * f)
      && (k <= BatchSlots(n, f) <==> k as real <= n as real * (1.0 - f))
  {
    if n >= 2 && ParseSliceFraction(raw).Some? && ParseSliceFraction(raw).value > 0.0 {
      LeastCover(n, ParseSliceFraction(raw).value, k);
    }
  }

  lemma LeastCover(n: int, f: real, k: int)
    requires n >= 2 && 0.0 < f <= 1.0
    ensures 1 <= ComputeInteractiveSlots(n, f) <= n
    ensures k >= ComputeInteractiveSlots(n, f) <==> k as real >= n as real * f
    ensures k <= BatchSlots(n, f) <==> k as real <= n as real * (1.0 - f)
  {
    var x := n as real * f;
    Scale(n as real, f);
    assert ComputeInteractiveSlots(n, f) == SlotsFor(n, x);
    CoverOf(n, x, k);
    Rest(n as real, f);
  }

  lemma CoverOf(n: int, x: real, k: int)
    requires 0.0 < x <= n as real
    ensures 1 <= SlotsFor(n, x) <= n
    ensures k >= SlotsFor(n, x) <==> k as real >= x
    ensures k <= n - SlotsFor(n, x) <==> k as real <= n as real - x
  {
    CeilIsLeast(x, k);
    CeilIsLeast(x, n - k);
    CeilIsLeast(x, n);
    CeilIsLeast(x, 0);
  }

  lemma Rest(a: real, f: real)
    ensures a * (1.0 - f) == a - a * f
  {
  }

  lemma Scale(a: real, f: real)
    requires a > 0.0 && 0.0 < f <= 1.0
    ensures 0.0 < a * f <= a
  {
  }

  // With nothing to divide, or no reservation asked for, batch has the whole budget.
  lemma NoSlice(n: int, f: real)
    ensures BatchSlots(n, f) == n <==> n <= 1 || f <= 0.0
  {
  }
}
