/** Idempotency keys: one record per key, claimed by creating it, forgotten by a conditional delete.
    Any number of requests claim and forget concurrently; every store call is one step. */
module Idempotency {
  import opened Shared
  import opened Text

  type Id = nat // the result a request would produce: a fresh job or batch id

  datatype Phase =
    | WillClaim
    | WillReadExisting(forgetsBefore: nat)     // the create was refused; how often the key was forgotten by then
    | Answered(claimed: bool, id: Id, at: nat) // claim() returned; `at` counts the events there were
    | ForgetStart
    | ForgetSaw(seen: Option<Id>, version: nat)
    | ForgetOver

  datatype Thread = Thread(id: Id, phase: Phase)

  datatype Event = Won(id: Id) | Forgot(id: Id)

  datatype State = State(record: Option<Id>, version: nat, threads: seq<Thread>, nextId: Id, events: seq<Event>)

  datatype Step =
    | Begin
    | BeginForget(id: Id)
    | Create(k: nat)
    | ReadExisting(k: nat)
    | LookToForget(k: nat)
    | Drop(k: nat)

  function At(s: State, k: nat, phase: Phase): State
    requires k < |s.threads|
  {
    s.(threads := s.threads[k := s.threads[k].(phase := phase)])
  }

  function Forgets(events: seq<Event>): nat {
    if events == [] then 0 else Forgets(events[..|events| - 1]) + (if events[|events| - 1].Forgot? then 1 else 0)
  }

  ghost predicate Next(s: State, t: State, step: Step) {
    match step
    case Begin => t == s.(threads := s.threads + [Thread(s.nextId, WillClaim)], nextId := s.nextId + 1)
    case BeginForget(id) => t == s.(threads := s.threads + [Thread(id, ForgetStart)])
    case Create(k) =>
      && k < |s.threads| && s.threads[k].phase.WillClaim?
      && t == if s.record.None? then
                At(s, k, Answered(true, s.threads[k].id, |s.events| + 1))
                .(record := Some(s.threads[k].id), version := s.version + 1,
                  events := s.events + [Won(s.threads[k].id)])
              else At(s, k, WillReadExisting(Forgets(s.events)))
    case ReadExisting(k) =>
      && k < |s.threads| && s.threads[k].phase.WillReadExisting?
      && t == At(s, k, Answered(false, if s.record.Some? then s.record.value else s.threads[k].id, |s.events|))
    case LookToForget(k) =>
      && k < |s.threads| && s.threads[k].phase.ForgetStart?
      && t == At(s, k, ForgetSaw(s.record, s.version))
    case Drop(k) =>
      && k < |s.threads| && s.threads[k].phase.ForgetSaw?
      && var me := s.threads[k];
         t == if me.phase.seen == Some(me.id) && s.record.Some? && s.version == me.phase.version then
                At(s, k, ForgetOver).(record := None, version := s.version + 1, events := s.events + [Forgot(me.id)])
              else At(s, k, ForgetOver)
  }

  ghost predicate Init(s: State) {
    s.record.None? && s.threads == [] && s.events == []
  }

  ghost predicate IsRun(run: seq<State>, steps: seq<Step>) {
    && |run| == |steps| + 1
    && Init(run[0])
    && forall i {:trigger steps[i]} :: 0 <= i < |steps| ==> Next(run[i], run[i + 1], steps[i])
  }

  // ---- What the history of a key looks like ----

  /** What is claimed and not forgotten after these events. */
  function Current(events: seq<Event>): Option<Id> {
    if events == [] || events[|events| - 1].Forgot? then None else Some(events[|events| - 1].id)
  }

  /** Claims and forgets alternate: a claim only wins when nothing is claimed, a forget takes back exactly
      the claim before it. */
  ghost predicate Alternate(events: seq<Event>) {
    forall p {:trigger events[p]} :: 0 <= p < |events| ==>
      match events[p]
      case Won(_) => p > 0 ==> events[p - 1].Forgot?
      case Forgot(id) => p > 0 && events[p - 1] == Won(id)
  }

  /** An answer is the key's claim as it stood when it was given; only a request whose refused create was
      followed by a forget is told its own id without having claimed. */
  ghost predicate ThreadOk(s: State, th: Thread) {
    match th.phase
    case WillReadExisting(n) =>
      n <= Forgets(s.events) && (s.record.None? ==> n < Forgets(s.events))
    case Answered(claimed, id, at) =>
      && at <= |s.events|
      && (claimed ==> id == th.id && at > 0 && s.events[at - 1] == Won(id))
      && (!claimed ==> Current(s.events[..at]) == Some(id)
                       || (id == th.id && Current(s.events[..at]) == None && Forgets(s.events[..at]) > 0))
    case ForgetSaw(seen, v) => v <= s.version && (v == s.version ==> seen == s.record)
    case _ => true
  }

  ghost predicate Inv(s: State) {
    && Alternate(s.events) && s.record == Current(s.events)
    && forall k :: 0 <= k < |s.threads| ==> ThreadOk(s, s.threads[k])
  }

  lemma Appended(events: seq<Event>, e: Event)
    ensures (events + [e])[..|events|] == events
    ensures Forgets(events + [e]) == Forgets(events) + (if e.Forgot? then 1 else 0)
  {
    assert (events + [e])[..|events|] == events;
  }

  /** What a write does: one event more, or none. */
  lemma EventsGrow(s: State, t: State, step: Step)
    requires Inv(s) && Next(s, t, step)
    ensures s.version <= t.version && (t.version == s.version ==> t.record == s.record)
    ensures |s.events| <= |t.events| && forall at :: 0 <= at <= |s.events| ==> t.events[..at] == s.events[..at]
    ensures Forgets(s.events) <= Forgets(t.events)
    ensures t.record.None? && s.record.Some? ==> Forgets(s.events) < Forgets(t.events)
  {
    if t.events != s.events {
      Appended(s.events, t.events[|s.events|]);
    }
    forall at | 0 <= at <= |s.events| ensures t.events[..at] == s.events[..at] {
    }
  }

  lemma BystanderStays(s: State, t: State, step: Step, k: nat)
    requires Inv(s) && Next(s, t, step) && k < |s.threads| && t.threads[k] == s.threads[k]
    ensures ThreadOk(t, t.threads[k])
  {
    EventsGrow(s, t, step);
    assert ThreadOk(s, s.threads[k]);
    if s.threads[k].phase.Answered? && s.threads[k].phase.at > 0 {
      var at := s.threads[k].phase.at;
      assert t.events[..at][at - 1] == s.events[..at][at - 1];
    }
  }

  lemma ReaderStays(s: State, t: State, k: nat)
    requires Inv(s) && Next(s, t, ReadExisting(k))
    ensures ThreadOk(t, t.threads[k])
  {
    assert ThreadOk(s, s.threads[k]);
    assert t.events[..|t.events|] == s.events;
  }

  lemma CreatorStays(s: State, t: State, k: nat)
    requires Inv(s) && Next(s, t, Create(k))
    ensures ThreadOk(t, t.threads[k])
  {
  }

  lemma ThreadStays(s: State, t: State, step: Step, k: nat)
    requires Inv(s) && Next(s, t, step) && k < |t.threads|
    ensures ThreadOk(t, t.threads[k])
  {
    if k < |s.threads| && t.threads[k] == s.threads[k] {
      BystanderStays(s, t, step, k);
    } else {
      match step
      case Begin =>
      case BeginForget(_) =>
      case Create(_) => CreatorStays(s, t, k);
      case ReadExisting(_) => ReaderStays(s, t, k);
      case LookToForget(_) =>
      case Drop(_) => assert t.threads[k].phase.ForgetOver?;
    }
  }

  lemma KeepInv(s: State, t: State, step: Step)
    requires Inv(s) && Next(s, t, step)
    ensures Inv(t)
  {
    forall k | 0 <= k < |t.threads| ensures ThreadOk(t, t.threads[k]) {
      ThreadStays(s, t, step, k);
    }
    if step.Drop? {
      assert ThreadOk(s, s.threads[step.k]);
    }
    assert forall p :: 0 <= p < |s.events| ==> t.events[p] == s.events[p];
  }

  lemma {:induction false} RunInv(run: seq<State>, steps: seq<Step>, i: nat)
    requires IsRun(run, steps) && i < |run|
    ensures Inv(run[i])
  {
    if i > 0 {
      RunInv(run, steps, i - 1);
      assert Next(run[i - 1], run[i], steps[i - 1]);
      KeepInv(run[i - 1], run[i], steps[i - 1]);
    }
  }

  // ---- Ids are fresh ----

  predicate Asks(p: Phase) {
    p.WillClaim? || p.WillReadExisting? || p.Answered?
  }

  /** Asking threads have ids of their own. */
  ghost predicate OwnIds(s: State) {
    && (forall k :: 0 <= k < |s.threads| && Asks(s.threads[k].phase) ==> s.threads[k].id < s.nextId)
    && (forall k, l :: 0 <= k < l < |s.threads| && Asks(s.threads[k].phase) && Asks(s.threads[l].phase) ==>
          s.threads[k].id != s.threads[l].id)
  }

  /** An asking thread whose id is among the winners has been told that it claimed. */
  ghost predicate WinnerTold(events: seq<Event>, th: Thread) {
    Asks(th.phase) && Won(th.id) in events ==> th.phase.Answered? && th.phase.claimed
  }

  ghost predicate Fresh(s: State) {
    && OwnIds(s)
    && (forall id: Id :: Won(id) in s.events ==> id < s.nextId)
    && (forall k :: 0 <= k < |s.threads| ==> WinnerTold(s.events, s.threads[k]))
  }

  lemma KeepOwnIds(s: State, t: State, step: Step)
    requires OwnIds(s) && Next(s, t, step)
    ensures OwnIds(t)
  {
  }

  lemma KeepWinnersTold(s: State, t: State, step: Step, k: nat)
    requires Fresh(s) && Next(s, t, step) && k < |t.threads|
    ensures WinnerTold(t.events, t.threads[k])
  {
    if k < |s.threads| {
      assert WinnerTold(s.events, s.threads[k]);
      if step.Create? && step.k != k && Asks(s.threads[k].phase) {
        assert s.threads[k].id != s.threads[step.k].id;
      }
    }
  }

  lemma KeepFresh(s: State, t: State, step: Step)
    requires Fresh(s) && Next(s, t, step)
    ensures Fresh(t)
  {
    KeepOwnIds(s, t, step);
    forall k | 0 <= k < |t.threads| ensures WinnerTold(t.events, t.threads[k]) {
      KeepWinnersTold(s, t, step, k);
    }
  }

  lemma {:induction false} RunFresh(run: seq<State>, steps: seq<Step>, i: nat)
    requires IsRun(run, steps) && i < |run|
    ensures Fresh(run[i])
  {
    if i > 0 {
      RunFresh(run, steps, i - 1);
      assert Next(run[i - 1], run[i], steps[i - 1]);
      KeepFresh(run[i - 1], run[i], steps[i - 1]);
    }
  }

  // ---- Results ----

  ghost predicate ForgottenIn(events: seq<Event>, first: nat, last: nat)
    requires last <= |events|
  {
    exists f :: first <= f < last && events[f].Forgot?
  }

  /** A create that finds no record claims the key with the request's own id, and any other is refused. */
  lemma AbsentKeyIsClaimed(s: State, t: State, k: nat)
    requires Next(s, t, Create(k))
    ensures if s.record.None? then t.record == Some(s.threads[k].id) && t.threads[k].phase.Answered?
                                   && t.threads[k].phase.claimed && t.threads[k].phase.id == s.threads[k].id
            else t.record == s.record && t.threads[k].phase.WillReadExisting?
  {
  }

  /** A forget that saw the record as it is, and that nobody gets ahead of, removes it exactly when it is the
      request's own claim. */
  lemma OwnClaimIsForgotten(s: State, t: State, k: nat)
    requires Inv(s) && Next(s, t, Drop(k)) && s.threads[k].phase.version == s.version
    ensures t.record == if s.record == Some(s.threads[k].id) then None else s.record
  {
    assert ThreadOk(s, s.threads[k]);
  }

  /** Until it is forgotten, a claim stays the last event: nobody else wins. */
  lemma ClaimStands(events: seq<Event>, w: nat, last: nat)
    requires Alternate(events) && w < last <= |events| && events[w].Won? && !ForgottenIn(events, w, last)
    ensures w == last - 1
  {
    var next := if w + 1 < last then events[w + 1] else events[w];
    assert w + 1 < last ==> next.Forgot?;
  }

  /** At every moment at most one claim stands, the record is it, and two claims of a key never win without
      a forget of the first in between. */
  lemma OneWinner(run: seq<State>, steps: seq<Step>, i: nat, p: nat, q: nat)
    requires IsRun(run, steps) && i < |run| && p < q < |run[i].events|
    requires run[i].events[p].Won? && run[i].events[q].Won?
    ensures run[i].record == Current(run[i].events)
    ensures run[i].events[p + 1] == Forgot(run[i].events[p].id) && p + 1 < q
  {
    RunInv(run, steps, i);
    assert run[i].events[q].Won? && run[i].events[p + 1] == run[i].events[p + 1];
  }

  /** Every request answered after a winning claim, with no forget since, is told the winner's id, and is told
      that it claimed exactly when that id is its own. */
  lemma SameResultForAll(run: seq<State>, steps: seq<Step>, i: nat, k: nat, w: nat)
    requires IsRun(run, steps) && i < |run| && k < |run[i].threads| && run[i].threads[k].phase.Answered?
    requires w < run[i].threads[k].phase.at <= |run[i].events| && run[i].events[w].Won?
    requires !ForgottenIn(run[i].events, w, run[i].threads[k].phase.at)
    ensures run[i].threads[k].phase.id == run[i].events[w].id
    ensures run[i].threads[k].phase.claimed <==> run[i].threads[k].id == run[i].events[w].id
  {
    RunInv(run, steps, i);
    RunFresh(run, steps, i);
    var th := run[i].threads[k];
    assert ThreadOk(run[i], th);
    ClaimStands(run[i].events, w, th.phase.at);
  }

  /** Exactly one: two requests told that they claimed, since the same winning claim and with no forget in
      between, are the same request. */
  lemma OneClaimant(run: seq<State>, steps: seq<Step>, i: nat, k: nat, l: nat, w: nat)
    requires IsRun(run, steps) && i < |run| && k < |run[i].threads| && l < |run[i].threads|
    requires forall x | x in {k, l} :: run[i].threads[x].phase.Answered? && run[i].threads[x].phase.claimed
    requires w < |run[i].events| && run[i].events[w].Won?
    requires forall x | x in {k, l} ::
               w < run[i].threads[x].phase.at <= |run[i].events|
               && !ForgottenIn(run[i].events, w, run[i].threads[x].phase.at)
    ensures k == l
  {
    RunFresh(run, steps, i);
    SameResultForAll(run, steps, i, k, w);
    SameResultForAll(run, steps, i, l, w);
  }

  /** At least one: whenever a claim won, a request was told so. */
  lemma {:induction false} WinnerIsTold(run: seq<State>, steps: seq<Step>, i: nat, w: nat) returns (k: nat)
    requires IsRun(run, steps) && i < |run| && w < |run[i].events| && run[i].events[w].Won?
    ensures k < |run[i].threads| && run[i].threads[k].phase == Answered(true, run[i].events[w].id, w + 1)
  {
    assert Next(run[i - 1], run[i], steps[i - 1]);
    if w < |run[i - 1].events| {
      k := WinnerIsTold(run, steps, i - 1, w);
    } else {
      k := steps[i - 1].k;
    }
  }

  /** A request whose create was refused is told its own id exactly when nothing is claimed at its read, and
      that needs a forget after its create was refused. */
  lemma OwnIdWithoutClaim(run: seq<State>, steps: seq<Step>, i: nat, k: nat)
    requires IsRun(run, steps) && i < |steps| && steps[i] == ReadExisting(k)
    ensures k < |run[i].threads| && run[i + 1].threads[k].phase.Answered?
    ensures run[i + 1].threads[k].phase.id == run[i].threads[k].id <==> run[i].record.None?
    ensures run[i].record.None? ==> Forgets(run[i].events) > run[i].threads[k].phase.forgetsBefore
  {
    RunInv(run, steps, i);
    RunFresh(run, steps, i);
    assert Next(run[i], run[i + 1], steps[i]);
    assert ThreadOk(run[i], run[i].threads[k]);
  }

  ghost predicate Reachable(s: State) {
    exists run, steps :: IsRun(run, steps) && run[|steps|] == s
  }

  lemma Onward(s: State, t: State, step: Step)
    requires Reachable(s) && Next(s, t, step)
    ensures Reachable(t)
  {
    var run, steps :| IsRun(run, steps) && run[|steps|] == s;
    assert IsRun(run + [t], steps + [step]);
  }

  /** The first request has claimed, and the second one's create is refused. */
  const REFUSED := State(Some(0), 1, [Thread(0, Answered(true, 0, 1)), Thread(1, WillReadExisting(0))], 2, [Won(0)])

  lemma RefusedIsReachable()
    ensures Reachable(REFUSED)
  {
    var s0 := State(None, 0, [], 0, []);
    var s1 := s0.(threads := [Thread(0, WillClaim)], nextId := 1);
    var s2 := s1.(threads := [Thread(0, WillClaim), Thread(1, WillClaim)], nextId := 2);
    var s3 := REFUSED.(threads := [Thread(0, Answered(true, 0, 1)), Thread(1, WillClaim)]);
    assert IsRun([s0], []);
    Onward(s0, s1, Begin);
    Onward(s1, s2, Begin);
    Onward(s2, s3, Create(0));
    Onward(s3, REFUSED, Create(1));
  }

  /** It happens: the first request takes its claim back, and the second is told its own id although nothing
      is claimed. */
  lemma ToldItsOwnId()
    ensures exists s: State ::
              && Reachable(s) && s.record.None?
              && |s.threads| == 3 && s.threads[1] == Thread(1, Answered(false, 1, 2))
  {
    var first, second := REFUSED.threads[0], REFUSED.threads[1];
    var s5 := REFUSED.(threads := [first, second, Thread(0, ForgetStart)]);
    var s6 := REFUSED.(threads := [first, second, Thread(0, ForgetSaw(Some(0), 1))]);
    var s7 := State(None, 2, [first, second, Thread(0, ForgetOver)], 2, [Won(0), Forgot(0)]);
    var s8 := s7.(threads := [first, Thread(1, Answered(false, 1, 2)), Thread(0, ForgetOver)]);
    RefusedIsReachable();
    Onward(REFUSED, s5, BeginForget(0));
    Onward(s5, s6, LookToForget(2));
    Onward(s6, s7, Drop(2));
    Onward(s7, s8, ReadExisting(1));
  }

  // ---- The calls themselves, run by one thread while the others do as they like ----

  /** True exactly when this call created the record; otherwise the id of a record that was there, or, if it
      was there and has gone, the caller's own. */
  method Claim(key: SharedCell<Id>, id: Id) returns (claimed: bool, result: Id, ghost at: nat)
    requires key.Valid()
    modifies key
    ensures key.Valid() && old(key.history) <= key.history && old(|key.history|) <= at + 1 <= |key.history|
    ensures claimed <==> old(key.doc).None?
    ensures claimed ==>
              at + 1 < |key.history| && key.history[at].None? && key.history[at + 1] == Some(id) && result == id
    ensures !claimed ==> result == if key.history[at].Some? then key.history[at].value else id
    ensures !claimed && key.history[at].None? ==> at >= old(|key.history|)
    ensures key.saves == old(key.saves) + (if claimed then 1 else 0)
    ensures if claimed then |key.history| == old(|key.history|) + 1 else key.Foreign(old(|key.history|))
  {
    at := |key.history| - 1;
    claimed := key.SetIfVersion(id, None);
    if claimed {
      return true, id, at;
    }
    key.OthersRun();
    var existing, _ := key.GetVersioned();
    at := |key.history| - 1;
    result := if existing.Some? then existing.value else id;
  }

  /** Takes back only the caller's own claim. */
  method Forget(key: SharedCell<Id>, id: Id) returns (ghost at: nat)
    requires key.Valid()
    modifies key
    ensures key.Valid() && old(key.history) <= key.history && old(|key.history|) <= at + 1 <= |key.history|
    ensures key.Foreign(old(|key.history|))
    ensures key.saves == old(key.saves) || key.saves == old(key.saves) + 1
    ensures key.saves > old(key.saves) ==>
              at + 1 < |key.history| && key.history[at] == Some(id) && key.history[at + 1].None?
    ensures key.saves == old(key.saves) ==> |key.history| > old(|key.history|) || key.history[at] != Some(id)
  {
    var current, version := key.GetVersioned();
    at := |key.history| - 1;
    if current == Some(id) {
      key.OthersRun();
      ghost var before := key.history;
      at := |before| - 1;
      var gone := key.DeleteIfVersion(version);
      assert gone ==> key.history[at] == before[at] == current;
    }
  }
}
