/** Group commit serves one queue's callers in the order in which they arrived. */
module Arrival {
  import opened Text
  import opened Values
  import opened Batching
  import opened GroupCommit

  /** The calls of a queue that may still take effect, in the order in which they will. */
  ghost function Open(server: Server): seq<CallId> {
    (if server.workers != [] && (server.workers[0].Reading? || server.workers[0].Swapping?)
     then server.workers[0].batch else []) + server.line.pending
  }

  ghost predicate PlacedAt(log: seq<Entry>, id: CallId, p: nat) {
    p < |log| && log[p].Update? && log[p].id == id
  }

  ghost predicate FirstIn(ids: seq<CallId>, a: CallId, b: CallId) {
    forall i, j :: 0 <= i < |ids| && 0 <= j < |ids| && ids[i] == a && ids[j] == b ==> i < j
  }

  /** `a` takes effect before `b`, if both do. */
  ghost predicate Ahead(log: seq<Entry>, open: seq<CallId>, a: CallId, b: CallId) {
    && FirstIn(open, a, b)
    && (forall q :: PlacedAt(log, b, q) ==> a !in open)
    && (forall p, q :: PlacedAt(log, a, p) && PlacedAt(log, b, q) ==> p < q)
  }

  /** A batch that is given up is no longer open. */
  lemma RestAhead(log: seq<Entry>, batch: seq<CallId>, rest: seq<CallId>, a: CallId, b: CallId)
    requires Ahead(log, batch + rest, a, b)
    ensures Ahead(log, rest, a, b)
  {
    var open := batch + rest;
    assert forall i :: 0 <= i < |rest| ==> open[|batch| + i] == rest[i];
  }

  lemma PlacedInGrown(log: seq<Entry>, batch: seq<CallId>, ops: seq<Op>, missing: Option<Doc>, id: CallId, p: nat)
    requires |batch| == |ops| && PlacedAt(log + Entries(batch, ops, missing), id, p)
    ensures if p < |log| then PlacedAt(log, id, p) else p - |log| < |batch| && batch[p - |log|] == id
  {
  }

  lemma NotBehind(batch: seq<CallId>, rest: seq<CallId>, a: CallId, b: CallId, j: nat)
    requires FirstIn(batch + rest, a, b) && j < |batch| && batch[j] == b
    ensures a !in rest
  {
    forall i | 0 <= i < |rest| ensures rest[i] != a {
      assert (batch + rest)[|batch| + i] == rest[i] && (batch + rest)[j] == b;
    }
  }

  /** A batch takes effect, and leaves the calls behind it open. */
  lemma BatchAhead(log: seq<Entry>, batch: seq<CallId>, ops: seq<Op>, missing: Option<Doc>, rest: seq<CallId>,
                   a: CallId, b: CallId)
    requires |batch| == |ops| && Ahead(log, batch + rest, a, b)
    ensures Ahead(log + Entries(batch, ops, missing), rest, a, b)
  {
    var open, grown := batch + rest, log + Entries(batch, ops, missing);
    RestAhead(log, batch, rest, a, b);
    forall q: nat | PlacedAt(grown, b, q) ensures a !in rest {
      PlacedInGrown(log, batch, ops, missing, b, q);
      if q >= |log| {
        NotBehind(batch, rest, a, b, q - |log|);
      }
    }
    forall p: nat, q: nat | PlacedAt(grown, a, p) && PlacedAt(grown, b, q) ensures p < q {
      PlacedInGrown(log, batch, ops, missing, a, p);
      PlacedInGrown(log, batch, ops, missing, b, q);
      if p >= |log| {
        assert open[p - |log|] == a;
        if q >= |log| {
          assert open[q - |log|] == b;
        }
      }
    }
  }

  /** A new call joins at the end. */
  lemma JoinAhead(log: seq<Entry>, open: seq<CallId>, id: CallId, a: CallId, b: CallId)
    requires Ahead(log, open, a, b) && id != a && (id == b ==> b !in open && forall q :: !PlacedAt(log, b, q))
    ensures Ahead(log, open + [id], a, b)
  {
  }

  /** Entries of other calls do not matter. */
  lemma OthersAhead(log: seq<Entry>, grown: seq<Entry>, open: seq<CallId>, a: CallId, b: CallId)
    requires Ahead(log, open, a, b) && log <= grown
    requires forall p :: |log| <= p < |grown| && grown[p].Update? ==> grown[p].id != a && grown[p].id != b
    ensures Ahead(grown, open, a, b)
  {
    forall p: nat, id | PlacedAt(grown, id, p) && (id == a || id == b) ensures PlacedAt(log, id, p) {
    }
  }

  // ---- Every step keeps the order of arrival ----

  ghost predicate InTurn(s: State, sv: ServerId, a: CallId, b: CallId) {
    sv in s.servers && Ahead(s.order.log, Open(s.servers[sv]), a, b)
  }

  lemma ReadInTurn(s: State, t: State, sv: ServerId, k: nat, raises: bool, a: CallId, b: CallId)
    requires sv in s.servers && ServerOk(s, sv) && DoRead(s, t, sv, k, raises) && InTurn(s, sv, a, b)
    ensures InTurn(t, sv, a, b)
  {
    var server, w := s.servers[sv], s.servers[sv].workers[k];
    assert k == 0 && Open(server) == w.batch + server.line.pending;
    if raises {
      RestAhead(s.order.log, w.batch, server.line.pending, a, b);
      assert Open(t.servers[sv]) == server.line.pending;
    } else if Changes(s.doc, server.missing, OpsIn(s.calls, w.batch)) {
      assert Open(t.servers[sv]) == Open(server);
    } else {
      BatchAhead(s.order.log, w.batch, OpsIn(s.calls, w.batch), server.missing, server.line.pending, a, b);
      assert Open(t.servers[sv]) == server.line.pending;
    }
  }

  lemma SwapInTurn(s: State, t: State, sv: ServerId, k: nat, raises: bool, a: CallId, b: CallId)
    requires sv in s.servers && ServerOk(s, sv) && DoSwap(s, t, sv, k, raises) && InTurn(s, sv, a, b)
    ensures InTurn(t, sv, a, b)
  {
    var server, w := s.servers[sv], s.servers[sv].workers[k];
    assert k == 0 && Open(server) == w.batch + server.line.pending;
    RestAhead(s.order.log, w.batch, server.line.pending, a, b);
    BatchAhead(s.order.log, w.batch, OpsIn(s.calls, w.batch), server.missing, server.line.pending, a, b);
    if t.servers[sv].workers[0].Reading? {
      assert Open(t.servers[sv]) == Open(server);
    } else {
      assert Open(t.servers[sv]) == server.line.pending;
    }
  }

  lemma QueueStepInTurn(s: State, t: State, step: Step, sv: ServerId, a: CallId, b: CallId)
    requires sv in s.servers && ServerOk(s, sv) && Next(s, t, step) && IsWork(step, sv) && InTurn(s, sv, a, b)
    requires !step.Read? && !step.Swap?
    ensures InTurn(t, sv, a, b)
  {
    assert step.k == 0 && |s.servers[sv].workers| == 1;
    assert Open(t.servers[sv]) == Open(s.servers[sv]);
  }

  lemma OpenIsHeld(server: Server, i: nat)
    requires i < |Open(server)|
    ensures Open(server)[i] in Held(server)
  {
    var n := |Open(server)| - |server.line.pending|;
    if i < n {
      assert Held(server)[|server.line.pending| + i] == Open(server)[i];
    } else {
      assert Held(server)[i - n] == Open(server)[i];
    }
  }

  /** A call that has not been made is nowhere. */
  lemma NowhereYet(s: State, sv: ServerId, id: CallId)
    requires Inv(s) && sv in s.servers && id !in s.calls
    ensures id !in Open(s.servers[sv]) && forall q :: !PlacedAt(s.order.log, id, q)
  {
    var server := s.servers[sv];
    assert ServerOk(s, sv);
    forall i | 0 <= i < |Open(server)| ensures Open(server)[i] != id {
      OpenIsHeld(server, i);
    }
  }

  lemma JoinedOpen(s: State, t: State, step: Step, sv: ServerId)
    requires sv in s.servers && ShapeOk(s.servers[sv]) && Next(s, t, step) && IsCall(step, sv)
    ensures sv in t.servers && Open(t.servers[sv]) == Open(s.servers[sv]) + [step.id]
    ensures t.order.log == s.order.log && step.id !in s.calls
  {
  }

  lemma CallInTurn(s: State, t: State, step: Step, sv: ServerId, a: CallId, b: CallId)
    requires Inv(s) && Next(s, t, step) && IsCall(step, sv) && InTurn(s, sv, a, b) && a in s.calls
    ensures InTurn(t, sv, a, b)
  {
    assert ServerOk(s, sv);
    JoinedOpen(s, t, step, sv);
    NowhereYet(s, sv, step.id);
    JoinAhead(s.order.log, Open(s.servers[sv]), step.id, a, b);
  }

  /** What another server commits are its own calls. */
  lemma OthersEntry(s: State, t: State, step: Step, sv: ServerId, p: nat)
    requires ServersOk(s) && Next(s, t, step) && !IsWork(step, sv)
    requires |s.order.log| <= p < |t.order.log| && t.order.log[p].Update?
    ensures t.order.log[p].id in s.calls && s.calls[t.order.log[p].id].server != sv
  {
    NewEntries(s, t, step, p);
    var o := step.sv;
    assert ServerOk(s, o) && step.k == 0;
    var server := s.servers[o];
    var batch := server.workers[0].batch;
    assert t.order.log[p].id == batch[p - |s.order.log|];
    assert Held(server)[|server.line.pending| + p - |s.order.log|] == batch[p - |s.order.log|];
  }

  lemma OthersInTurn(s: State, t: State, step: Step, sv: ServerId, a: CallId, b: CallId)
    requires ServersOk(s) && Next(s, t, step) && !IsWork(step, sv) && !IsCall(step, sv) && InTurn(s, sv, a, b)
    requires a in s.calls && s.calls[a].server == sv && (b in s.calls ==> s.calls[b].server == sv)
    ensures InTurn(t, sv, a, b)
  {
    OthersAddNoWork(s, t, step, sv);
    OrderGrows(s, t, step);
    forall p | |s.order.log| <= p < |t.order.log| && t.order.log[p].Update?
      ensures t.order.log[p].id != a && t.order.log[p].id != b
    {
      OthersEntry(s, t, step, sv, p);
    }
    OthersAhead(s.order.log, t.order.log, Open(s.servers[sv]), a, b);
  }

  lemma StepInTurn(s: State, t: State, step: Step, sv: ServerId, a: CallId, b: CallId)
    requires Inv(s) && Next(s, t, step) && InTurn(s, sv, a, b)
    requires a in s.calls && s.calls[a].server == sv && (b in s.calls ==> s.calls[b].server == sv)
    ensures InTurn(t, sv, a, b)
  {
    assert ServerOk(s, sv);
    if IsCall(step, sv) {
      CallInTurn(s, t, step, sv, a, b);
    } else if !IsWork(step, sv) {
      OthersInTurn(s, t, step, sv, a, b);
    } else if step.Read? {
      ReadInTurn(s, t, sv, step.k, step.raises, a, b);
    } else if step.Swap? {
      SwapInTurn(s, t, sv, step.k, step.raises, a, b);
    } else {
      QueueStepInTurn(s, t, step, sv, a, b);
    }
  }

  lemma FirstCallInTurn(s: State, sv: ServerId, a: CallId, b: CallId)
    requires Inv(s) && a in s.calls && s.calls[a].server == sv && b !in s.calls
    ensures InTurn(s, sv, a, b)
  {
    assert ServerOk(s, sv);
    NowhereYet(s, sv, b);
  }

  lemma {:induction false} RunInTurn(run: seq<State>, steps: seq<Step>, c: nat, i: nat, sv: ServerId, a: CallId,
                                     b: CallId)
    requires IsRun(run, steps) && c <= i < |run|
    requires a in run[c].calls && run[c].calls[a].server == sv && b !in run[c].calls
    ensures a in run[i].calls && run[i].calls[a].server == sv
    ensures (b in run[i].calls && run[i].calls[b].server != sv) || InTurn(run[i], sv, a, b)
    decreases i
  {
    if i == c {
      RunInv(run, steps, c);
      FirstCallInTurn(run[c], sv, a, b);
    } else {
      RunInTurn(run, steps, c, i - 1, sv, a, b);
      RunInv(run, steps, i - 1);
      var s, t, step := run[i - 1], run[i], steps[i - 1];
      assert Next(s, t, step);
      CallKept(s, t, step, a);
      if b in s.calls && s.calls[b].server != sv {
        CallKept(s, t, step, b);
      } else {
        StepInTurn(s, t, step, sv, a, b);
      }
    }
  }

  /** Waiting updates are applied in arrival order: of two calls of one server, the one that was made first comes
      first in the order of effects, if both have taken effect. */
  lemma ArrivalOrder(run: seq<State>, steps: seq<Step>, c: nat, i: nat, a: CallId, b: CallId, p: nat, q: nat)
    requires IsRun(run, steps) && c <= i < |run|
    requires a in run[c].calls && b !in run[c].calls
    requires b in run[i].calls && run[i].calls[b].server == run[c].calls[a].server
    requires p < |run[i].order.log| && run[i].order.log[p].Update? && run[i].order.log[p].id == a
    requires q < |run[i].order.log| && run[i].order.log[q].Update? && run[i].order.log[q].id == b
    ensures p < q
  {
    RunInTurn(run, steps, c, i, run[c].calls[a].server, a, b);
    assert PlacedAt(run[i].order.log, a, p) && PlacedAt(run[i].order.log, b, q);
  }
}
