/** One licence change of a domain: the reservation, the resize at Google with its retries, and the way back. */
module LicenceChange {
  import opened Quota
  import opened SeatPlan

  const MAX_TRIES: nat := 6

  /** An attempt of `_resize` whose call number `at` raises; `applied` when Google did make the change and only
      the reply was lost. An attempt that is not listed succeeds. */
  datatype Failure = Failure(at: nat, transient: bool, applied: bool)

  predicate Fails(n: nat, failures: seq<Failure>, attempt: nat) {
    attempt < |failures| && failures[attempt].at < n
  }

  /** The calls of one attempt that reach Google, of the `n` it would make. */
  function Count(n: nat, failures: seq<Failure>, attempt: nat): (c: nat)
    ensures c <= n
  {
    if Fails(n, failures, attempt) then Through(n, failures[attempt].at, failures[attempt].applied) else n
  }

  predicate TriesAgain(n: nat, failures: seq<Failure>, attempt: nat) {
    Fails(n, failures, attempt) && failures[attempt].transient && attempt + 1 < MAX_TRIES
  }

  /** For each attempt, how many of its calls reach Google. */
  function Tries(n: nat, failures: seq<Failure>, attempt: nat): (counts: seq<nat>)
    requires attempt < MAX_TRIES
    ensures counts != [] && forall i :: 0 <= i < |counts| ==> counts[i] <= n
    decreases MAX_TRIES - attempt
  {
    [Count(n, failures, attempt)] + (if TriesAgain(n, failures, attempt) then Tries(n, failures, attempt + 1) else [])
  }

  function LastTry(n: nat, failures: seq<Failure>, attempt: nat): (last: nat)
    requires attempt < MAX_TRIES
    ensures attempt <= last < MAX_TRIES && !TriesAgain(n, failures, last)
    decreases MAX_TRIES - attempt
  {
    if TriesAgain(n, failures, attempt) then LastTry(n, failures, attempt + 1) else attempt
  }

  /** The calls made in all: every attempt starts over from the first step. */
  function Calls(steps: seq<nat>, counts: seq<nat>): seq<nat>
    requires forall i :: 0 <= i < |counts| ==> counts[i] <= |steps|
  {
    if counts == [] then [] else steps[..counts[0]] + Calls(steps, counts[1..])
  }

  function AllTries(current: nat, target: nat, failures: seq<Failure>): seq<nat> {
    Tries(|ResizeSteps(current, target)|, failures, 0)
  }

  function AllCalls(current: nat, target: nat, failures: seq<Failure>): seq<nat> {
    Calls(ResizeSteps(current, target), AllTries(current, target, failures))
  }

  /** The last attempt raises too. */
  predicate GivesUp(current: nat, target: nat, failures: seq<Failure>) {
    var n := |ResizeSteps(current, target)|;
    Fails(n, failures, LastTry(n, failures, 0))
  }

  lemma {:induction false} TriesUpTo(n: nat, failures: seq<Failure>, attempt: nat)
    requires attempt < 6
    ensures attempt + |Tries(n, failures, attempt)| - 1 == LastTry(n, failures, attempt) <= 5
    ensures forall a :: attempt <= a < LastTry(n, failures, attempt) ==> TriesAgain(n, failures, a)
    decreases 6 - attempt
  {
    if TriesAgain(n, failures, attempt) {
      TriesUpTo(n, failures, attempt + 1);
    }
  }

  lemma {:induction false} TriesCount(n: nat, failures: seq<Failure>, attempt: nat, k: nat)
    requires attempt < 6 && k < |Tries(n, failures, attempt)|
    ensures Tries(n, failures, attempt)[k] == Count(n, failures, attempt + k)
    decreases 6 - attempt
  {
    if k > 0 {
      TriesCount(n, failures, attempt + 1, k - 1);
    }
  }

  /** At most six attempts; another one is made exactly after one that failed temporarily; and each gets its calls
      through up to the failing one, that included if only its reply was lost. */
  lemma AttemptsSay(current: nat, target: nat, failures: seq<Failure>)
    ensures var n, counts := |ResizeSteps(current, target)|, AllTries(current, target, failures);
            var last := |counts| - 1;
            && 0 <= last <= 5
            && (forall a :: 0 <= a < last ==> a < |failures| && failures[a].at < n && failures[a].transient)
            && (GivesUp(current, target, failures) <==> last < |failures| && failures[last].at < n)
            && (GivesUp(current, target, failures) && last < 5 ==> !failures[last].transient)
            && forall a :: 0 <= a <= last ==>
                 counts[a] == if a < |failures| && failures[a].at < n
                              then failures[a].at + (if failures[a].applied then 1 else 0) else n
  {
    var n, counts := |ResizeSteps(current, target)|, AllTries(current, target, failures);
    TriesUpTo(n, failures, 0);
    forall a | 0 <= a < |counts| - 1 ensures a < |failures| && failures[a].at < n && failures[a].transient {
      assert TriesAgain(n, failures, a);
    }
    forall a | 0 <= a < |counts| ensures counts[a] == Count(n, failures, a) {
      TriesCount(n, failures, 0, a);
    }
  }

  lemma {:induction false} CallsAppend(steps: seq<nat>, counts: seq<nat>, c: nat)
    requires c <= |steps| && forall i :: 0 <= i < |counts| ==> counts[i] <= |steps|
    ensures Calls(steps, counts + [c]) == Calls(steps, counts) + steps[..c]
  {
    if counts == [] {
      assert (counts + [c])[1..] == [];
    } else {
      CallsAppend(steps, counts[1..], c);
      assert (counts + [c])[1..] == counts[1..] + [c];
    }
  }

  /** `made` attempts lie behind; `all` there will be. */
  ghost predicate Behind(
    current: nat, target: nat, failures: seq<Failure>, attempt: nat, made: seq<nat>, all: seq<nat>)
  {
    var n := |ResizeSteps(current, target)|;
    && attempt < MAX_TRIES
    && all == made + Tries(n, failures, attempt)
    && LastTry(n, failures, 0) == LastTry(n, failures, attempt)
    && forall i :: 0 <= i < |made| ==> made[i] <= n
  }

  lemma NextTry(current: nat, target: nat, failures: seq<Failure>, attempt: nat, made: seq<nat>, all: seq<nat>)
    returns (more: seq<nat>)
    requires Behind(current, target, failures, attempt, made, all)
    ensures var n := |ResizeSteps(current, target)|;
            && more == made + [Count(n, failures, attempt)] && more[..|more| - 1] == made
            && (if TriesAgain(n, failures, attempt) then Behind(current, target, failures, attempt + 1, more, all)
                else all == more && LastTry(n, failures, 0) == attempt)
  {
    var n := |ResizeSteps(current, target)|;
    var c := Count(n, failures, attempt);
    more := made + [c];
    if TriesAgain(n, failures, attempt) {
      var later := Tries(n, failures, attempt + 1);
      assert Tries(n, failures, attempt) == [c] + later;
      assert made + ([c] + later) == more + later;
    } else {
      assert Tries(n, failures, attempt) == [c];
    }
  }

  /** The calls and the seats after some attempts on a subscription that had `calls` and `seats` before. */
  ghost predicate After(sub: Subscription, calls: seq<nat>, seats: nat, steps: seq<nat>, counts: seq<nat>)
    reads sub
    requires forall i :: 0 <= i < |counts| ==> counts[i] <= |steps|
  {
    sub.calls == calls + Calls(steps, counts) && sub.seats == LastOr(Calls(steps, counts), seats)
  }

  method OneTry(sub: Subscription, current: nat, target: nat, failsAt: nat, applied: bool,
                ghost calls: seq<nat>, ghost seats: nat, ghost made: seq<nat>) returns (completed: bool)
    requires forall i :: 0 <= i < |made| ==> made[i] <= |ResizeSteps(current, target)|
    requires After(sub, calls, seats, ResizeSteps(current, target), made)
    modifies sub
    ensures var n := |ResizeSteps(current, target)|;
            && completed == (n <= failsAt)
            && After(sub, calls, seats, ResizeSteps(current, target), made + [Through(n, failsAt, applied)])
    ensures completed ==> sub.seats == target
  {
    CallsAppend(ResizeSteps(current, target), made, Through(|ResizeSteps(current, target)|, failsAt, applied));
    completed := Resize(sub, current, target, failsAt, applied);
  }

  /** call_with_retry around _resize. */
  method ResizeWithRetry(sub: Subscription, current: nat, target: nat, failures: seq<Failure>) returns (completed: bool)
    modifies sub
    ensures completed <==> !GivesUp(current, target, failures)
    ensures After(sub, old(sub.calls), old(sub.seats), ResizeSteps(current, target), AllTries(current, target,
              failures))
    ensures completed ==> sub.seats == target
  {
    ghost var all, made: seq<nat> := AllTries(current, target, failures), [];
    for attempt := 0 to MAX_TRIES
      invariant attempt < MAX_TRIES && Behind(current, target, failures, attempt, made, all)
      invariant After(sub, old(sub.calls), old(sub.seats), ResizeSteps(current, target), made)
    {
      var failsAt := if attempt < |failures| then failures[attempt].at else |ResizeSteps(current, target)|;
      var applied := attempt < |failures| && failures[attempt].applied;
      made := NextTry(current, target, failures, attempt, made, all);
      completed := OneTry(sub, current, target, failsAt, applied, old(sub.calls), old(sub.seats), made[..|made| - 1]);
      if completed || !failures[attempt].transient || attempt == MAX_TRIES - 1 {
        return;
      }
    }
  }

  // ---- What retries do to the seats ----

  predicate NonDecreasing(xs: seq<nat>) {
    forall i, j :: 0 <= i < j < |xs| ==> xs[i] <= xs[j]
  }

  lemma {:induction false} CallsFromSteps(steps: seq<nat>, counts: seq<nat>, most: nat)
    requires most <= |steps| && forall i :: 0 <= i < |counts| ==> counts[i] <= most
    ensures forall i :: 0 <= i < |counts| ==> counts[i] <= |steps|
    ensures forall i :: 0 <= i < |Calls(steps, counts)| ==> Calls(steps, counts)[i] in steps[..most]
    ensures Calls(steps, counts) != [] ==> steps != [] && Calls(steps, counts)[0] == steps[0]
    ensures Calls(steps, counts) == [] <==> forall i :: 0 <= i < |counts| ==> counts[i] == 0
  {
    if counts != [] {
      CallsFromSteps(steps, counts[1..], most);
      assert forall i :: 0 < i < |counts| ==> counts[i] == counts[1..][i - 1];
      assert forall i :: 0 <= i < counts[0] ==> steps[..counts[0]][i] == steps[..most][i];
    }
  }

  lemma Glue(xs: seq<nat>, ys: seq<nat>)
    requires NonDecreasing(xs)
    ensures NonDecreasing(xs + ys) <==> NonDecreasing(ys) && (xs == [] || ys == [] || xs[|xs| - 1] <= ys[0])
  {
    var all := xs + ys;
    if NonDecreasing(all) {
      forall i, j | 0 <= i < j < |ys| ensures ys[i] <= ys[j] {
        assert all[|xs| + i] <= all[|xs| + j];
      }
      assert xs != [] && ys != [] ==> all[|xs| - 1] <= all[|xs|];
    }
    if NonDecreasing(ys) && (xs == [] || ys == [] || xs[|xs| - 1] <= ys[0]) {
      forall i, j | 0 <= i < j < |all| ensures all[i] <= all[j] {
        assert i < |xs| ==> xs[i] <= xs[|xs| - 1];
        assert j >= |xs| ==> ys[0] <= ys[j - |xs|];
      }
    }
  }

  /** An attempt got two calls through and a later one started over. */
  predicate StartsOver(counts: seq<nat>) {
    exists i, j :: 0 <= i < j < |counts| && counts[i] >= 2 && counts[j] >= 1
  }

  lemma {:induction false} ClimbsUnless(steps: seq<nat>, counts: seq<nat>)
    requires forall i :: 0 <= i < |counts| ==> counts[i] <= |steps|
    requires forall i, j :: 0 <= i < j < |steps| ==> steps[i] < steps[j]
    ensures NonDecreasing(Calls(steps, counts)) <==> !StartsOver(counts)
  {
    if counts != [] {
      var c, later := counts[0], Calls(steps, counts[1..]);
      ClimbsUnless(steps, counts[1..]);
      CallsFromSteps(steps, counts[1..], |steps|);
      StartsOverSplits(counts);
      Glue(steps[..c], later);
    }
  }

  lemma StartsOverSplits(counts: seq<nat>)
    requires counts != []
    ensures StartsOver(counts) <==>
              StartsOver(counts[1..]) || (counts[0] >= 2 && exists j :: 0 < j < |counts| && counts[j] != 0)
  {
    var rest := counts[1..];
    if StartsOver(counts) {
      var i, j :| 0 <= i < j < |counts| && counts[i] >= 2 && counts[j] >= 1;
      assert rest[j - 1] == counts[j] && (i > 0 ==> rest[i - 1] == counts[i]);
    }
    if StartsOver(rest) {
      var i, j :| 0 <= i < j < |rest| && rest[i] >= 2 && rest[j] >= 1;
      assert counts[i + 1] == rest[i] && counts[j + 1] == rest[j];
    }
  }

  /** While licences are added, the seats at Google never go down exactly when no attempt of which two calls
      reached Google is followed by one of which a call does: a retry starts over from the first step. */
  lemma IncreaseClimbsIff(current: nat, target: nat, failures: seq<Failure>)
    requires current < target
    ensures NonDecreasing(AllCalls(current, target, failures)) <==> !StartsOver(AllTries(current, target, failures))
  {
    PlannersAgree(current, target);
    ClimbIsSteady(current, target);
    StepsRise(ResizeSteps(current, target));
    ClimbsUnless(ResizeSteps(current, target), AllTries(current, target, failures));
  }

  lemma {:induction false} StepsRise(steps: seq<nat>)
    requires forall i :: 0 <= i < |steps| - 1 ==> steps[i] < steps[i + 1]
    ensures forall i, j :: 0 <= i < j < |steps| ==> steps[i] < steps[j]
  {
    if steps != [] {
      var front := steps[..|steps| - 1];
      StepsRise(front);
      assert forall i :: 0 <= i < |front| ==> steps[i] <= front[|front| - 1];
    }
  }

  /** Ten seats to 310: the third call fails once, and the retry takes a hundred seats away again. */
  lemma RetryShrinks()
    ensures AllCalls(10, 310, [Failure(2, true, false)]) == [110, 210, 110, 210, 310]
  {
    PlannersAgree(10, 310);
    assert Climb(310, 310) == [] && Climb(210, 310) == [310] && Climb(110, 310) == [210, 310];
    var steps, counts := ResizeSteps(10, 310), [2, 3];
    assert steps == [110, 210, 310];
    assert Tries(3, [Failure(2, true, false)], 1) == [3];
    assert AllTries(10, 310, [Failure(2, true, false)]) == counts;
    assert counts[1..] == [3] && counts[1..][1..] == [];
    assert Calls(steps, [3]) == steps[..3];
  }

  /** The step to 310 is applied and its reply lost; the next try fails for good after two calls. Google is left
      with a hundred seats fewer than it had. */
  lemma LostReplyShrinks()
    ensures AllCalls(10, 310, [Failure(2, true, true), Failure(2, false, false)]) == [110, 210, 310, 110, 210]
  {
    PlannersAgree(10, 310);
    assert Climb(310, 310) == [] && Climb(210, 310) == [310] && Climb(110, 310) == [210, 310];
    var failures := [Failure(2, true, true), Failure(2, false, false)];
    var steps, counts := ResizeSteps(10, 310), [3, 2];
    assert steps == [110, 210, 310];
    assert Tries(3, failures, 1) == [2];
    assert AllTries(10, 310, failures) == counts;
    assert counts[1..] == [2] && counts[1..][1..] == [];
    assert steps[..3] == steps && steps[..2] == [110, 210];
    assert Calls(steps, [2]) == steps[..2];
  }

  predicate SomeThrough(counts: seq<nat>) {
    exists i :: 0 <= i < |counts| && counts[i] > 0
  }

  /** The last attempt of which a call reached Google went all the way. */
  predicate EndsAtTarget(n: nat, counts: seq<nat>) {
    exists i :: 0 <= i < |counts| && counts[i] == n && forall j :: i < j < |counts| ==> counts[j] == 0
  }

  lemma {:induction false} LastCall(steps: seq<nat>, counts: seq<nat>) returns (i: nat)
    requires SomeThrough(counts) && forall i :: 0 <= i < |counts| ==> counts[i] <= |steps|
    ensures i < |counts| && counts[i] > 0 && forall j :: i < j < |counts| ==> counts[j] == 0
    ensures Calls(steps, counts) != [] && Calls(steps, counts)[|Calls(steps, counts)| - 1] == steps[counts[i] - 1]
  {
    var n := |counts| - 1;
    assert counts == counts[..n] + [counts[n]];
    CallsAppend(steps, counts[..n], counts[n]);
    if counts[n] > 0 {
      i := n;
    } else {
      i := LastCall(steps, counts[..n]);
    }
  }

  lemma {:induction false} ResizeEnds(current: nat, target: nat)
    requires current != target
    ensures var steps := ResizeSteps(current, target);
            && steps != [] && steps[|steps| - 1] == target
            && forall i :: 0 <= i < |steps| - 1 ==> current < steps[i] < target
  {
    var steps := ResizeSteps(current, target);
    if current < target {
      PlannersAgree(current, target);
      ClimbIsSteady(current, target);
      StepsRise(steps);
      assert forall i :: 0 <= i < |steps| - 1 ==> steps[0] <= steps[i] < steps[|steps| - 1];
    }
  }

  /** What Google has after all attempts: what it had, if no call reached it, and otherwise something else, which
      is the target exactly when the last attempt that reached it went all the way. */
  lemma SeatsLeft(current: nat, target: nat, failures: seq<Failure>)
    requires current != target
    ensures var calls, counts := AllCalls(current, target, failures), AllTries(current, target, failures);
            && (calls == [] <==> !SomeThrough(counts))
            && (calls != [] ==> calls[|calls| - 1] != current)
            && (calls != [] && current < target ==> current < calls[|calls| - 1] <= target)
            && (calls != [] ==> (calls[|calls| - 1] == target <==>
                                 EndsAtTarget(|ResizeSteps(current, target)|, counts)))
  {
    var steps, counts := ResizeSteps(current, target), AllTries(current, target, failures);
    CallsFromSteps(steps, counts, |steps|);
    ResizeEnds(current, target);
    if SomeThrough(counts) {
      var i := LastCall(steps, counts);
      OneLast(counts, i);
    }
  }

  lemma OneLast(counts: seq<nat>, i: nat)
    requires i < |counts| && counts[i] > 0 && forall j :: i < j < |counts| ==> counts[j] == 0
    ensures forall n: nat :: n > 0 ==> (EndsAtTarget(n, counts) <==> counts[i] == n)
  {
  }

  /** A reduction, or an increase that one call can make, happens at Google entirely or not at all; and not at
      all exactly when every attempt failed without effect. */
  lemma SmallChangeIsAtomic(current: nat, target: nat, failures: seq<Failure>)
    requires current != target <= current + MAX_PER_CALL
    ensures var calls := AllCalls(current, target, failures);
            && (forall i :: 0 <= i < |calls| ==> calls[i] == target)
            && (calls == [] <==> !SomeThrough(AllTries(current, target, failures)))
            && (calls == [] ==> GivesUp(current, target, failures) && !failures[LastTry(1, failures, 0)].applied)
  {
    var steps := ResizeSteps(current, target);
    assert steps == [target];
    CallsFromSteps(steps, AllTries(current, target, failures), 1);
    LastCounts(1, failures, 0);
  }

  lemma {:induction false} LastCounts(n: nat, failures: seq<Failure>, attempt: nat)
    requires attempt < MAX_TRIES
    ensures var counts := Tries(n, failures, attempt);
            counts[|counts| - 1] == Count(n, failures, LastTry(n, failures, attempt))
    decreases MAX_TRIES - attempt
  {
    if TriesAgain(n, failures, attempt) {
      LastCounts(n, failures, attempt + 1);
    }
  }

  // ---- The licence change ----

  /** Which calls raise or meet contention. `limit` is the cap of the domain's plan when the plan mix is on. */
  datatype Faults = Faults(
    limited: bool, limit: nat, reducible: bool, reserveContended: bool, reserveRaises: bool,
    failures: seq<Failure>, giveBackRaises: bool, lowerRaises: bool)

  datatype Exit = Unchanged | Changed | Raised(status: nat) | GoogleFailed

  /** The plan's rules let the change through. */
  predicate PlanAllows(current: nat, target: nat, f: Faults) {
    !(f.limited && target > f.limit) && (target < current ==> f.reducible)
  }

  /** The change is asked of Google. `reserve` is what the reservation of an increase answered. */
  predicate ReachesGoogle(current: nat, target: nat, f: Faults, reserve: ReserveAnswer) {
    target != current && PlanAllows(current, target, f) && (target > current ==> reserve.Reserved?)
  }

  /** The failures that leave the partner's counter and Google apart, each at the guard of its branch: a
      finished reduction whose counter is not lowered; a given-up change of which some call reached Google;
      and, when even giving back raises, one that Google did not end up with. */
  predicate LeavesDrift(current: nat, target: nat, f: Faults, reserve: ReserveAnswer) {
    var counts := AllTries(current, target, f.failures);
    && ReachesGoogle(current, target, f, reserve)
    && if !GivesUp(current, target, f.failures) then target < current && f.lowerRaises
       else if target > current && f.giveBackRaises then !EndsAtTarget(|ResizeSteps(current, target)|, counts)
       else SomeThrough(counts)
  }

  /** What the counter goes down by after the resize: an increase that was given up, or a finished reduction. */
  function Lowering(current: nat, target: nat, f: Faults): nat {
    if GivesUp(current, target, f.failures) then (if target > current && !f.giveBackRaises then target - current else 0)
    else if target < current && !f.lowerRaises then current - target
    else 0
  }

  /** What the call asks the counter to go down by. */
  function AmountLowered(current: nat, target: nat, f: Faults, reserve: ReserveAnswer): nat {
    if ReachesGoogle(current, target, f, reserve) then Lowering(current, target, f) else 0
  }

  /** The reservation of an increase: with nobody else at the counter it succeeds exactly when the seats fit. */
  method Reserve(partner: Partner, delta: nat, f: Faults) returns (reserve: ReserveAnswer)
    requires partner.Valid()
    modifies partner
    ensures partner.Valid() && partner.cut == old(partner.cut) && partner.others >= old(partner.others)
    ensures reserve.ReserveRaises? <==> f.reserveRaises
    ensures reserve.Contended? <==> !f.reserveRaises && f.reserveContended
    ensures delta > 0 && !f.reserveRaises && !f.reserveContended && partner.others == old(partner.others) ==>
              reserve == if old(partner.used) + delta <= old(partner.cap) then Reserved else TooMany
    ensures partner.mine == old(partner.mine) + if reserve.Reserved? then delta else 0
  {
    partner.OthersRun();
    if f.reserveRaises {
      return ReserveRaises;
    }
    if f.reserveContended {
      return Contended;
    }
    var reserved := partner.Change(delta, true);
    return if reserved then Reserved else TooMany;
  }

  /** Lowers the counter; the clamp at zero cuts off what the amount exceeds it by. */
  method Lower(partner: Partner, amount: nat) returns (ghost usedThen: nat)
    requires partner.Valid()
    modifies partner
    ensures partner.Valid() && partner.others >= old(partner.others)
    ensures partner.Moved(old(partner.mine), old(partner.cut)) == -(amount as int)
    ensures partner.cut - old(partner.cut) == if amount > usedThen then amount - usedThen else 0
    ensures amount > 0 ==> partner.used == if amount > usedThen then 0 else usedThen - amount
  {
    partner.OthersRun();
    usedThen := partner.used;
    if amount > 0 {
      var _ := partner.Change(-(amount as int), false);
    }
  }

  /** From the first call to Google on. */
  method ResizeAndSettle(sub: Subscription, partner: Partner, target: nat, f: Faults)
    returns (exit: Exit, ghost usedThen: nat)
    requires partner.Valid() && sub.seats != target
    modifies sub, partner
    ensures partner.Valid() && partner.others >= old(partner.others)
    ensures var gaveUp := GivesUp(old(sub.seats), target, f.failures);
            exit == if (if gaveUp then target > old(sub.seats) && f.giveBackRaises
                        else target < old(sub.seats) && f.lowerRaises) then Raised(500)
                    else if gaveUp then GoogleFailed else Changed
    ensures !GivesUp(old(sub.seats), target, f.failures) ==> sub.seats == target
    ensures sub.seats == old(sub.seats) <==> !SomeThrough(AllTries(old(sub.seats), target, f.failures))
    ensures sub.seats == target <==> EndsAtTarget(|ResizeSteps(old(sub.seats), target)|,
                                                  AllTries(old(sub.seats), target, f.failures))
    ensures var lowered := Lowering(old(sub.seats), target, f);
            && partner.Moved(old(partner.mine), old(partner.cut)) == -(lowered as int)
            && partner.cut - old(partner.cut) == (if lowered > usedThen then lowered - usedThen else 0)
            && (lowered > 0 ==> partner.used == if lowered > usedThen then 0 else usedThen - lowered)
  {
    var current := sub.seats;
    SeatsLeft(current, target, f.failures);
    var completed := ResizeWithRetry(sub, current, target, f.failures);
    var lowered := 0;
    if completed {
      exit := Changed;
      if target < current && f.lowerRaises {
        exit := Raised(500);
      } else if target < current {
        lowered := current - target;
      }
    } else {
      exit := GoogleFailed;
      if target > current && f.giveBackRaises {
        exit := Raised(500);
      } else if target > current {
        lowered := target - current;
      }
    }
    usedThen := Lower(partner, lowered);
  }

  /** Amid the partner's other threads. The counter moves by what Google changed, but for what the clamp at zero
      cuts off, exactly when no listed failure was met; and the clamp cuts off what the amount to be lowered
      exceeds the counter by, at that moment. Success means that both went all the way. With nobody else at the
      counter an increase gets its seats exactly when they fit. */
  method ChangeLicences(sub: Subscription, partner: Partner, target: nat, f: Faults)
    returns (exit: Exit, ghost reserve: ReserveAnswer, ghost usedThen: nat)
    requires partner.Valid()
    modifies sub, partner
    ensures partner.Valid()
    ensures exit.Unchanged? <==> target == old(sub.seats)
    ensures exit.Changed? <==> ReachesGoogle(old(sub.seats), target, f, reserve)
                               && !GivesUp(old(sub.seats), target, f.failures)
                               && !(target < old(sub.seats) && f.lowerRaises)
    ensures exit.GoogleFailed? <==> ReachesGoogle(old(sub.seats), target, f, reserve)
                                    && GivesUp(old(sub.seats), target, f.failures)
                                    && !(target > old(sub.seats) && f.giveBackRaises)
    ensures exit == Raised(400) <==>
              || (target != old(sub.seats) && f.limited && target > f.limit)
              || (target < old(sub.seats) && !f.reducible)
              || (target > old(sub.seats) && reserve.TooMany?)
    ensures exit == Raised(503) <==> reserve.Contended?
    ensures exit.Raised? ==> exit.status in {400, 500, 503}
    ensures reserve.Contended? ==> f.reserveContended && !f.reserveRaises
    ensures exit == Raised(500) ==>
              || (target > old(sub.seats) && (f.reserveRaises || f.giveBackRaises))
              || (target < old(sub.seats) && f.lowerRaises)
    ensures && target > old(sub.seats) && !(f.limited && target > f.limit)
            && !f.reserveRaises && !f.reserveContended && partner.others == old(partner.others) ==>
              reserve == if old(partner.used) + target - old(sub.seats) <= old(partner.cap) then Reserved else TooMany
    ensures exit.Changed? ==>
              sub.seats == target && partner.Moved(old(partner.mine), old(partner.cut)) == target - old(sub.seats)
    ensures !exit.Changed? ==>
              var moved := partner.Moved(old(partner.mine), old(partner.cut));
              moved == 0 || (target > old(sub.seats) && f.giveBackRaises && moved == target - old(sub.seats))
    ensures partner.Moved(old(partner.mine), old(partner.cut)) == sub.seats - old(sub.seats) <==>
              !LeavesDrift(old(sub.seats), target, f, reserve)
    ensures var lowered := AmountLowered(old(sub.seats), target, f, reserve);
            && partner.cut - old(partner.cut) == (if lowered > usedThen then lowered - usedThen else 0)
            && (lowered > 0 ==> partner.used == if lowered > usedThen then 0 else usedThen - lowered)
    ensures !ReachesGoogle(old(sub.seats), target, f, reserve) ==>
              sub.calls == old(sub.calls) && partner.mine == old(partner.mine)
  {
    var current := sub.seats;
    reserve, usedThen := ReserveRaises, 0;
    if target == current {
      return Unchanged, reserve, usedThen;
    }
    if (f.limited && target > f.limit) || (target < current && !f.reducible) {
      return Raised(400), reserve, usedThen;
    }
    if target > current {
      var answer := Reserve(partner, target - current, f);
      reserve := answer;
      match answer {
        case Reserved =>
        case TooMany => return Raised(400), reserve, usedThen;
        case Contended => return Raised(503), reserve, usedThen;
        case ReserveRaises => return Raised(500), reserve, usedThen;
      }
    }
    exit, usedThen := ResizeAndSettle(sub, partner, target, f);
  }

  /** Nothing fails, and yet quota and Google part: a flexible domain with ten seats is reduced to two while the
      counter stands at three. Google goes down by eight, the counter by three. */
  lemma OverReductionIsCut(f: Faults, cap: int)
    requires f == Faults(false, 0, true, false, false, [], false, false)
    ensures AllCalls(10, 2, f.failures) == [2] && !LeavesDrift(10, 2, f, Reserved)
    ensures AmountLowered(10, 2, f, Reserved) == 8 && Adjust(3, cap, -8, false) == NowUsed(0)
  {
    assert ResizeSteps(10, 2) == [2];
    assert AllTries(10, 2, []) == [1];
    assert [1][1..] == [] && [2][..1] == [2];
  }

  /** Nothing is lost at Google, and yet they part: fifty seats are reserved and refused, and in between the
      counter was lowered to twenty by others. Only twenty of the fifty can be given back. */
  lemma GiveBackIsCut(f: Faults, cap: int)
    requires f == Faults(false, 0, true, false, false, [Failure(0, false, false)], false, false)
    ensures AllCalls(10, 60, f.failures) == [] && GivesUp(10, 60, f.failures) && !LeavesDrift(10, 60, f, Reserved)
    ensures AmountLowered(10, 60, f, Reserved) == 50 && Adjust(20, cap, -50, false) == NowUsed(0)
  {
    assert ResizeSteps(10, 60) == [60];
    assert AllTries(10, 60, f.failures) == [0];
    assert [0][1..] == [];
  }

  /** Ten seats to 60: the first call is applied and its reply lost, and five more tries fail without effect.
      Google keeps sixty seats, the fifty are given back, and the partner is told that the change failed. */
  lemma LostReplyDrifts(f: Faults)
    requires !f.limited && !f.giveBackRaises
    requires f.failures == [Failure(0, true, true)] + seq(5, _ => Failure(0, true, false))
    ensures AllCalls(10, 60, f.failures) == [60] && GivesUp(10, 60, f.failures) && LeavesDrift(10, 60, f, Reserved)
  {
    assert ResizeSteps(10, 60) == [60];
    LostAndFailed(f.failures, 1);
    var rest := Tries(1, f.failures, 1);
    assert AllTries(10, 60, f.failures) == [1] + rest;
    assert ([1] + rest)[0] == 1 && ([1] + rest)[1..] == rest;
    NothingThrough([60], rest);
    assert LastTry(1, f.failures, 0) == LastTry(1, f.failures, 1);
  }

  lemma {:induction false} LostAndFailed(failures: seq<Failure>, attempt: nat)
    requires |failures| == MAX_TRIES && 0 < attempt < MAX_TRIES
    requires forall i :: 0 < i < MAX_TRIES ==> failures[i] == Failure(0, true, false)
    ensures !SomeThrough(Tries(1, failures, attempt)) && LastTry(1, failures, attempt) == MAX_TRIES - 1
    decreases MAX_TRIES - attempt
  {
    if attempt + 1 < MAX_TRIES {
      LostAndFailed(failures, attempt + 1);
      var rest := Tries(1, failures, attempt + 1);
      assert Tries(1, failures, attempt) == [0] + rest;
      assert forall i :: 0 < i < |rest| + 1 ==> ([0] + rest)[i] == rest[i - 1];
    }
  }

  lemma {:induction false} NothingThrough(steps: seq<nat>, counts: seq<nat>)
    requires !SomeThrough(counts) && forall i :: 0 <= i < |counts| ==> counts[i] <= |steps|
    ensures Calls(steps, counts) == []
  {
    CallsFromSteps(steps, counts, |steps|);
  }
}
