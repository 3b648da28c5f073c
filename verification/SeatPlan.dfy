/** How seats are scaled at Google: at most 100 more per call. The provisioning loop and the licence-change
    step list are two planners for the same walk. */
module SeatPlan {

  const MAX_PER_CALL: nat := 100

  function Least(a: nat, b: nat): nat {
    if a < b then a else b
  }

  // ---- The walk of the provisioning loop ----

  /** The totals asked for, one per call, from `current` up to `target`. */
  function Climb(current: nat, target: nat): seq<nat>
    decreases target - current
  {
    if current >= target then []
    else
      var next := Least(current + MAX_PER_CALL, target);
      [next] + Climb(next, target)
  }

  function LastOr(xs: seq<nat>, otherwise: nat): nat {
    if xs == [] then otherwise else xs[|xs| - 1]
  }

  /** One subscription at Google, with the calls made on it. */
  class Subscription {
    var seats: nat
    ghost var calls: seq<nat>

    constructor (seats: nat)
      ensures this.seats == seats && calls == []
    {
      this.seats, calls := seats, [];
    }

    method ChangeSeats(n: nat)
      modifies this
      ensures seats == n && calls == old(calls) + [n]
    {
      seats := n;
      calls := calls + [n];
    }
  }

  /** How many of `n` calls reach Google when call number `failsAt` raises, applied or not. */
  function Through(n: nat, failsAt: nat, applied: bool): (c: nat)
    ensures c <= n
  {
    if failsAt >= n then n else if applied then failsAt + 1 else failsAt
  }

  /** `_scale_seats`, whose call number `failsAt` raises: without effect, or with its reply lost. */
  method ScaleSeats(sub: Subscription, current: nat, target: nat, failsAt: nat, applied: bool) returns (completed: bool)
    requires sub.seats == current
    modifies sub
    ensures completed <==> |Climb(current, target)| <= failsAt
    ensures var made := Climb(current, target)[..Through(|Climb(current, target)|, failsAt, applied)];
            sub.calls == old(sub.calls) + made && sub.seats == LastOr(made, current)
    ensures completed && current <= target ==> sub.seats == target
  {
    var currentSeats := current;
    var n := 0;
    ghost var plan := Climb(current, target);
    while currentSeats < target
      invariant n <= |plan| && n <= failsAt && plan[n..] == Climb(currentSeats, target)
      invariant sub.calls == old(sub.calls) + plan[..n]
      invariant sub.seats == currentSeats == LastOr(plan[..n], current)
      invariant current <= target ==> currentSeats <= target
      decreases target - currentSeats
    {
      if n == failsAt && !applied {
        return false;
      }
      var nextTarget := Least(currentSeats + MAX_PER_CALL, target);
      assert plan[n] == nextTarget && plan[..n] + [plan[n]] == plan[..n + 1];
      sub.ChangeSeats(nextTarget);
      if n == failsAt {
        return false;
      }
      currentSeats := nextTarget;
      n := n + 1;
    }
    assert plan[..|plan|] == plan;
    completed := true;
  }

  // ---- The step list of a licence change ----

  /** Python's range(start, stop, step). */
  function Range(start: nat, stop: nat, step: nat): seq<nat>
    requires step > 0
    decreases stop - start
  {
    if start >= stop then [] else [start] + Range(start + step, stop, step)
  }

  /** `_resize`: increases in steps, reductions in one. */
  function ResizeSteps(current: nat, target: nat): seq<nat> {
    if target < current then [target] else Range(current + MAX_PER_CALL, target, MAX_PER_CALL) + [target]
  }

  /** `_resize`, whose call number `failsAt` raises: without effect, or with its reply lost. */
  method Resize(sub: Subscription, current: nat, target: nat, failsAt: nat, applied: bool) returns (completed: bool)
    modifies sub
    ensures completed <==> |ResizeSteps(current, target)| <= failsAt
    ensures var made := ResizeSteps(current, target)[..Through(|ResizeSteps(current, target)|, failsAt, applied)];
            sub.calls == old(sub.calls) + made && sub.seats == LastOr(made, old(sub.seats))
    ensures completed ==> sub.seats == target
  {
    var steps := ResizeSteps(current, target);
    for i := 0 to |steps|
      invariant i <= failsAt && sub.calls == old(sub.calls) + steps[..i]
      invariant sub.seats == LastOr(steps[..i], old(sub.seats))
    {
      if i == failsAt && !applied {
        return false;
      }
      assert steps[..i + 1] == steps[..i] + [steps[i]];
      sub.ChangeSeats(steps[i]);
      if i == failsAt {
        return false;
      }
    }
    completed := true;
  }

  /** The two planners make the very same calls. */
  lemma {:induction false} PlannersAgree(current: nat, target: nat)
    requires current < target
    ensures ResizeSteps(current, target) == Climb(current, target)
    decreases target - current
  {
    if current + MAX_PER_CALL < target {
      PlannersAgree(current + MAX_PER_CALL, target);
    } else {
      assert Climb(target, target) == [];
    }
  }

  /** Every call asks for more than the one before, by at most 100; the last asks for the target; and there
      are as few calls as the limit allows. */
  lemma {:induction false} ClimbIsSteady(current: nat, target: nat)
    requires current < target
    ensures var plan := Climb(current, target);
            && plan != [] && plan[|plan| - 1] == target
            && |plan| == (target - current + 99) / 100
            && current < plan[0] <= current + 100
            && forall i :: 0 <= i < |plan| - 1 ==> plan[i] < plan[i + 1] <= plan[i] + 100
    decreases target - current
  {
    if current + MAX_PER_CALL < target {
      ClimbIsSteady(current + MAX_PER_CALL, target);
      var plan, rest := Climb(current, target), Climb(current + MAX_PER_CALL, target);
      assert plan[1..] == rest;
      assert forall i :: 0 < i < |plan| ==> plan[i] == rest[i - 1];
    } else {
      assert Climb(target, target) == [];
    }
  }
}
