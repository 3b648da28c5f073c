/** Several attempts of one job alive at once, all scaling the same subscription to the same target. Each goes by
    what it last read or asked for itself; replies may be lost. When do seats go down? */
module Overlap {
  import opened SeatPlan
  import opened Text

  /** `beliefs[k]` is what attempt k takes the seats to be. `last` is the attempt whose call reached Google last,
      and `seen` counts the attempts that had begun by then. */
  datatype State = State(target: nat, seats: nat, beliefs: seq<nat>, last: Option<nat>, seen: nat)

  datatype Step =
    | Begin                           // another attempt lists the subscriptions
    | Ask(k: nat, answered: bool)     // change_seats; without an answer it is made again

  /** What attempt k asks for next. */
  function NextTotal(s: State, k: nat): nat
    requires k < |s.beliefs|
  {
    Least(s.beliefs[k] + MAX_PER_CALL, s.target)
  }

  predicate Next(s: State, t: State, step: Step) {
    match step
    case Begin => t == s.(beliefs := s.beliefs + [s.seats])
    case Ask(k, answered) =>
      && k < |s.beliefs| && s.beliefs[k] < s.target
      && t == s.(seats := NextTotal(s, k), last := Some(k), seen := |s.beliefs|,
                 beliefs := if answered then s.beliefs[k := NextTotal(s, k)] else s.beliefs)
  }

  predicate Init(s: State) {
    s.beliefs == [] && s.last.None? && s.seen == 0
  }

  ghost predicate IsRun(run: seq<State>, steps: seq<Step>) {
    && |run| == |steps| + 1
    && Init(run[0])
    && forall i {:trigger steps[i]} :: 0 <= i < |steps| ==> Next(run[i], run[i + 1], steps[i])
  }

  /** An attempt that began since the last call is right; the one that called last is right or calls the same
      again. */
  predicate Inv(s: State) {
    && s.seen <= |s.beliefs|
    && (forall k :: s.seen <= k < |s.beliefs| ==> s.beliefs[k] == s.seats)
    && (s.last.None? ==> s.seen == 0)
    && (s.last.Some? ==>
          s.last.value < s.seen && (s.beliefs[s.last.value] == s.seats || NextTotal(s, s.last.value) == s.seats))
  }

  lemma KeepInv(s: State, t: State, step: Step)
    requires Inv(s) && Next(s, t, step)
    ensures Inv(t)
  {
  }

  lemma {:induction false} RunInv(run: seq<State>, steps: seq<Step>, i: nat)
    requires IsRun(run, steps) && i < |run|
    ensures Inv(run[i])
  {
    if i > 0 {
      RunInv(run, steps, i - 1);
      assert Next(run[i - 1], run[i], steps[i - 1]);
      KeepInv(run[i - 1], run[i], steps[i - 1]);
    }
  }

  /** Every call asks for the next total of its own attempt's climb, and moves the attempt on exactly when it is
      answered. */
  lemma AsksByClimb(run: seq<State>, steps: seq<Step>, i: nat)
    requires IsRun(run, steps) && i < |steps| && steps[i].Ask?
    ensures steps[i].k < |run[i].beliefs| && Climb(run[i].beliefs[steps[i].k], run[i].target) != []
    ensures var next := Climb(run[i].beliefs[steps[i].k], run[i].target)[0];
            && run[i + 1].seats == next
            && run[i + 1].beliefs[steps[i].k] == if steps[i].answered then next else run[i].beliefs[steps[i].k]
  {
    assert Next(run[i], run[i + 1], steps[i]);
  }

  /** A call takes seats away exactly when it lands on a higher call of another attempt, made after its own attempt
      had begun. */
  lemma ShrinksIff(run: seq<State>, steps: seq<Step>, i: nat)
    requires IsRun(run, steps) && i < |steps|
    ensures run[i + 1].seats < run[i].seats <==>
              && steps[i].Ask? && run[i].last.Some? && run[i].last.value != steps[i].k && steps[i].k < run[i].seen
              && NextTotal(run[i], steps[i].k) < run[i].seats
  {
    RunInv(run, steps, i);
    assert Next(run[i], run[i + 1], steps[i]);
  }

  /** What `last`, `seen` and the seats say really happened: at m an attempt's call put the seats where they are,
      and no call has followed. */
  lemma {:induction false} LastCall(run: seq<State>, steps: seq<Step>, i: nat) returns (m: nat)
    requires IsRun(run, steps) && i < |run| && run[i].last.Some?
    ensures m < i && steps[m].Ask? && steps[m].k == run[i].last.value && |run[m].beliefs| == run[i].seen
    ensures steps[m].k < |run[m].beliefs| && NextTotal(run[m], steps[m].k) == run[i].seats
    ensures forall n :: m < n < i ==> steps[n].Begin?
  {
    assert Next(run[i - 1], run[i], steps[i - 1]);
    m := i - 1;
    if steps[i - 1].Begin? {
      m := LastCall(run, steps, i - 1);
    }
  }

  /** While attempts take turns, each calling only until the next begins, seats never go down. */
  lemma TakingTurnsNeverShrinks(run: seq<State>, steps: seq<Step>, i: nat)
    requires IsRun(run, steps) && i < |steps|
    requires forall m :: 0 <= m <= i && steps[m].Ask? ==> steps[m].k == |run[m].beliefs| - 1
    ensures run[i + 1].seats >= run[i].seats
  {
    ShrinksIff(run, steps, i);
    if run[i + 1].seats < run[i].seats {
      var m := LastCall(run, steps, i);
      BeliefsGrow(run, steps, m, i);
    }
  }

  lemma {:induction false} BeliefsGrow(run: seq<State>, steps: seq<Step>, i: nat, j: nat)
    requires IsRun(run, steps) && i <= j < |run|
    ensures |run[i].beliefs| <= |run[j].beliefs|
    decreases j
  {
    if i < j {
      BeliefsGrow(run, steps, i, j - 1);
      assert Next(run[j - 1], run[j], steps[j - 1]);
    }
  }
}
