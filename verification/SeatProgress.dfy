/** When an attempt of the seat workflow ends, and how. */
module SeatProgress {
  import opened SeatWorkflow
  import opened SeatPlan
  import opened Text

  // ---- What an attempt fails for ----

  lemma FailsFor(s: State, t: State, step: Step, start: nat)
    requires Inv(s, start) && Next(s, t, step) && t.pc.Failed?
    ensures step.GivesUp? || (step.Call? && s.req.licences < start)
  {
  }

  /** An attempt fails only because a call failed for good, or because fewer licences are asked for than the
      domain had seats before the first attempt. */
  lemma FailedOnlyFor(run: seq<State>, steps: seq<Step>, i: nat)
    requires IsRun(run, steps) && i < |run| && run[i].pc.Failed?
    ensures i > 0 && (steps[i - 1].GivesUp? || run[0].req.licences < SeatsIn(run[0]))
  {
    assert i > 0;
    RunInv(run, steps, i - 1);
    assert Next(run[i - 1], run[i], steps[i - 1]);
    FailsFor(run[i - 1], run[i], steps[i - 1], SeatsIn(run[0]));
  }

  // ---- Calls are always possible, and few ----

  /** The scaling calls from `current` seats on. */
  function Scalings(current: nat, licences: nat): nat {
    if current < licences then (licences - current + 99) / 100 else 0
  }

  /** At most so many calls until the attempt ends. */
  function CallsLeft(licences: nat, pc: Pc): nat {
    match pc
    case FindCustomer => 10 + Scalings(0, licences)
    case CreateCustomer => 9 + Scalings(0, licences)
    case ListSubs(_) => 8 + Scalings(0, licences)
    case ReadBefore(_, _) => 7 + Scalings(0, licences)
    case WriteBefore(_, _) => 6 + Scalings(0, licences)
    case CreateSub(_, _) => 5 + Scalings(0, licences)
    case GetSub(_, _) => 4 + Scalings(0, licences)
    case Scaling(_, current, _) => 3 + Scalings(current, licences)
    case Record(_) => 2
    case Rest(_) => 1
    case _ => 0
  }

  /** A living attempt can make its next call. */
  lemma CanCall(s: State, start: nat) returns (t: State)
    requires Inv(s, start) && Alive(s.pc)
    ensures Next(s, t, Call)
  {
    var req, w, g := s.req, s.world, s.world.google;
    match s.pc
    case FindCustomer =>
      var c := CustomerOf(g, req.domain);
      t := s.(pc := if c.Some? then ListSubs(c.value) else CreateCustomer);
    case CreateCustomer =>
      CustomerCreated(g, req);
      var h := WithCustomer(g, req.domain);
      t := State(req, w.(google := h), ListSubs(CustomerOf(h, req.domain).value));
    case ListSubs(c) =>
      var u := SubOf(g, c, req.sku);
      t := s.(pc := ReadBefore(c, if u.Some? then Some(Found(u.value, g.subs[u.value].seats)) else None));
    case ReadBefore(c, found) =>
      t := s.(pc := if w.job.seatsBefore.Some? then Proceed(req, c, found, w.job.seatsBefore.value)
                    else WriteBefore(c, found));
    case WriteBefore(c, found) =>
      var before := if found.Some? then found.value.seats else 0;
      t := State(req, w.(job := w.job.(seatsBefore := Some(before))), Proceed(req, c, found, before));
    case CreateSub(c, before) =>
      var existing, first := SubOf(g, c, req.sku), Least(req.licences, MAX_PER_CALL);
      t := State(req, w.(google := WithSub(g, c, req.sku, first)),
                 if existing.Some? then GetSub(existing.value, before) else Scaling(|g.subs|, first, before));
    case GetSub(u, before) =>
      t := s.(pc := Scaling(u, g.subs[u].seats, before));
    case Scaling(u, current, before) =>
      if current < req.licences {
        var next := Least(current + MAX_PER_CALL, req.licences);
        t := State(req, w.(google := WithSeats(g, u, next)), Scaling(u, next, before));
      } else {
        t := s.(pc := Record(Charge(req, before)));
      }
    case Record(charge) => t := State(req, w.(job := w.job.(licencesAdded := Some(charge))), Rest(charge));
    case Rest(charge) => t := s.(pc := Completed(charge));
  }

  lemma FewerScalings(current: nat, more: nat, licences: nat)
    requires current <= more
    ensures Scalings(more, licences) <= Scalings(current, licences)
    ensures current < licences && more == Least(current + 100, licences) ==>
              Scalings(more, licences) < Scalings(current, licences)
  {
  }

  lemma ScalingShrinks(s: State, t: State)
    requires Next(s, t, Call) && (s.pc.CreateSub? || s.pc.GetSub? || s.pc.Scaling?)
    ensures CallsLeft(s.req.licences, t.pc) < CallsLeft(s.req.licences, s.pc) && !t.pc.Down?
  {
    match s.pc
    case Scaling(u, current, _) =>
      if current < s.req.licences {
        FewerScalings(current, Least(current + 100, s.req.licences), s.req.licences);
      }
    case CreateSub(_, _) =>
      FewerScalings(0, Least(100, s.req.licences), s.req.licences);
    case GetSub(u, _) =>
      FewerScalings(0, t.pc.current, s.req.licences);
  }

  lemma ProceedShrinks(req: Request, customer: nat, found: Option<Found>, before: nat)
    ensures var pc := Proceed(req, customer, found, before);
            CallsLeft(req.licences, pc) <= 5 + Scalings(0, req.licences) && !pc.Down?
  {
    if found.Some? {
      FewerScalings(0, found.value.seats, req.licences);
    }
  }

  lemma CallShrinks(s: State, t: State)
    requires Next(s, t, Call)
    ensures CallsLeft(s.req.licences, t.pc) < CallsLeft(s.req.licences, s.pc) && !t.pc.Down?
  {
    match s.pc
    case ReadBefore(c, found) =>
      if s.world.job.seatsBefore.Some? {
        ProceedShrinks(s.req, c, found, s.world.job.seatsBefore.value);
      }
    case WriteBefore(c, found) =>
      ProceedShrinks(s.req, c, found, if found.Some? then found.value.seats else 0);
    case CreateSub(_, _) => ScalingShrinks(s, t);
    case GetSub(_, _) => ScalingShrinks(s, t);
    case Scaling(_, _, _) => ScalingShrinks(s, t);
    case _ =>
  }

  /** From step i on the attempt that is resumed there makes its calls, and every one is answered. */
  predicate OneAttempt(steps: seq<Step>, i: nat) {
    && i < |steps| && steps[i].Resume?
    && forall m :: i < m < |steps| ==> steps[m].Call?
  }

  lemma {:induction false} AttemptShrinks(run: seq<State>, steps: seq<Step>, i: nat, j: nat)
    requires IsRun(run, steps) && OneAttempt(steps, i) && i < j < |run|
    ensures run[j].req == run[0].req && !run[j].pc.Down?
    ensures j - i - 1 + CallsLeft(run[0].req.licences, run[j].pc) <= 10 + (run[0].req.licences + 99) / 100
    decreases j
  {
    RunInv(run, steps, j - 1);
    RunInv(run, steps, j);
    assert Next(run[j - 1], run[j], steps[j - 1]);
    if i + 1 < j {
      AttemptShrinks(run, steps, i, j - 1);
      CallShrinks(run[j - 1], run[j]);
    }
  }

  /** A call that adds seats asks for the next total of the climb: from nothing when it creates the subscription,
      otherwise from the seats the attempt knows of. */
  lemma AddsByClimb(s: State, t: State, step: Step, start: nat)
    requires Inv(s, start) && Next(s, t, step) && AddsSeats(s, step)
    ensures var from := if s.pc.CreateSub? then 0 else s.pc.current;
            && Climb(from, s.req.licences) != [] && SeatsIn(t) == Climb(from, s.req.licences)[0]
            && SeatsIn(t) == (if from + 100 < s.req.licences then from + 100 else s.req.licences)
            && (step.Call? ==> t.pc.Scaling? && t.pc.current == SeatsIn(t))
  {
    match s.pc
    case CreateSub(c, _) => SubCreated(s.world.google, s.req, c, Least(s.req.licences, 100));
    case Scaling(sub, current, _) =>
      SeatsChanged(s.world.google, s.req, sub, Least(current + 100, s.req.licences));
  }

  // ---- Results ----

  /** Whatever came before: an attempt whose calls are all answered makes at most 10 + ceil(licences / 100) of
      them; as long as it lives the next one is possible; and once it has ended it has completed exactly when
      the licences asked for are at least the seats there were before the first attempt. */
  lemma AnsweredAttemptEnds(run: seq<State>, steps: seq<Step>, i: nat)
    requires IsRun(run, steps) && OneAttempt(steps, i)
    ensures |steps| - i - 1 <= 10 + (run[0].req.licences + 99) / 100
    ensures var last := run[|steps|];
            if Alive(last.pc) then exists t :: Next(last, t, Call)
            else if run[0].req.licences >= SeatsIn(run[0]) then last.pc.Completed?
            else last.pc.Failed?
  {
    var last := run[|steps|];
    AttemptShrinks(run, steps, i, |steps|);
    RunInv(run, steps, |steps|);
    if Alive(last.pc) {
      var t := CanCall(last, SeatsIn(run[0]));
    } else if run[0].req.licences >= SeatsIn(run[0]) {
      if last.pc.Failed? {
        FailedOnlyFor(run, steps, |steps|);
      }
    } else {
      ReductionRefused(run, steps, |steps|);
    }
  }

  /** The calls of a living attempt, made and answered to its end. */
  lemma {:induction false} CallOn(run: seq<State>, steps: seq<Step>, i: nat)
    returns (whole: seq<State>, all: seq<Step>)
    requires IsRun(run, steps) && OneAttempt(steps, i)
    ensures IsRun(whole, all) && OneAttempt(all, i) && steps <= all && run <= whole && !Alive(whole[|all|].pc)
    decreases CallsLeft(run[|steps|].req.licences, run[|steps|].pc)
  {
    var last := run[|steps|];
    if Alive(last.pc) {
      RunInv(run, steps, |steps|);
      var t := CanCall(last, SeatsIn(run[0]));
      CallShrinks(last, t);
      assert (run + [t])[|steps| + 1] == t && (run + [t])[|steps|] == last;
      assert IsRun(run + [t], steps + [Call]);
      whole, all := CallOn(run + [t], steps + [Call], i);
    } else {
      whole, all := run, steps;
    }
  }

  /** However often a job has been killed: from every moment at which no attempt is alive, one more attempt can
      bring it to its end, with the seats, the one subscription and the charge of `CompletedExactly`. */
  lemma CanStillComplete(run: seq<State>, steps: seq<Step>) returns (whole: seq<State>, all: seq<Step>)
    requires IsRun(run, steps) && run[|steps|].pc.Down? && run[0].req.licences >= SeatsIn(run[0])
    ensures IsRun(whole, all) && steps <= all && run <= whole && OneAttempt(all, |steps|)
    ensures whole[|all|].pc.Completed?
    ensures SeatsIn(whole[|all|]) == run[0].req.licences
    ensures whole[|all|].pc.charge == run[0].req.licences - SeatsIn(run[0])
  {
    var t := run[|steps|].(pc := FindCustomer);
    assert IsRun(run + [t], steps + [Resume]);
    whole, all := CallOn(run + [t], steps + [Resume], |steps|);
    AnsweredAttemptEnds(whole, all, |steps|);
    CompletedExactly(whole, all, |all|);
    RunInv(whole, all, |all|);
  }
}
