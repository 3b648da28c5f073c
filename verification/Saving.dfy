/** Why a caller of group commit may be told that its update was not saved: a store call raised while its
    call was open, or thirty times in that time somebody else moved the document on. */
module Saving {
  import opened Text
  import opened Values
  import opened Batching
  import opened GroupCommit

  /** A store call of the thread serving `sv` raises. */
  predicate StoreRaises(step: Step, sv: ServerId) {
    (step.Read? || step.Swap?) && step.sv == sv && step.raises
  }

  ghost predicate RaisedBetween(steps: seq<Step>, sv: ServerId, c: nat, i: nat)
    requires i <= |steps|
  {
    exists m :: c <= m < i && StoreRaises(steps[m], sv)
  }

  /** Somebody else than the thread serving `sv` moved the version of the document on. */
  ghost predicate Overtakes(s: State, t: State, step: Step, sv: ServerId) {
    t.version != s.version && !IsWork(step, sv)
  }

  /** How often that happened from the c-th to the i-th state. */
  ghost function Overtaken(run: seq<State>, steps: seq<Step>, sv: ServerId, c: nat, i: nat): nat
    requires |run| == |steps| + 1 && c <= i < |run|
    decreases i
  {
    if i == c then 0
    else Overtaken(run, steps, sv, c, i - 1) + (if Overtakes(run[i - 1], run[i], steps[i - 1], sv) then 1 else 0)
  }

  // ---- What an open call knows about its causes ----

  /** `moves` and `raised` account for a reply. */
  predicate Accounts(reply: Reply, moves: nat, raised: bool) {
    (reply == NotSaved(StoreFailure) ==> raised) && (reply == NotSaved(Contention) ==> moves >= 30)
  }

  ghost predicate WorkerAccounts(s: State, w: Worker, id: CallId, moves: nat, raised: bool) {
    match w
    case Reading(batch, attempt, _) => id in batch ==> attempt <= moves
    case Swapping(batch, attempt, _, _, version) =>
      id in batch ==> attempt + (if version == s.version then 0 else 1) <= moves
    case Finishing(todo, _) =>
      forall k :: 0 <= k < |todo| && todo[k].id == id ==> Accounts(todo[k].reply, moves, raised)
    case _ => true
  }

  ghost predicate CallAccounts(s: State, sv: ServerId, id: CallId, moves: nat, raised: bool) {
    id in s.calls && s.calls[id].server == sv ==>
      && (!s.calls[id].stage.Waiting? ==> Accounts(s.calls[id].stage.reply, moves, raised))
      && (s.calls[id].stage.Waiting? && sv in s.servers && s.servers[sv].workers != [] ==>
            WorkerAccounts(s, s.servers[sv].workers[0], id, moves, raised))
  }

  /** A swap is lost only if the document moved on since it was read. */
  lemma LostMeansMoved(s: State, sv: ServerId)
    requires sv in s.servers && ServerOk(s, sv) && s.servers[sv].workers != [] && s.servers[sv].workers[0].Swapping?
    requires var w := s.servers[sv].workers[0];
             !(if w.seen.None? then s.doc.None? else s.doc.Some? && s.version == w.version)
    ensures s.version != s.servers[sv].workers[0].version
  {
  }

  lemma SwapAccounts(s: State, t: State, sv: ServerId, k: nat, raises: bool, id: CallId, moves: nat, raised: bool)
    requires sv in s.servers && ServerOk(s, sv) && DoSwap(s, t, sv, k, raises)
    requires id in s.calls && s.calls[id].server == sv && s.calls[id].stage.Waiting?
    requires CallAccounts(s, sv, id, moves, raised)
    ensures CallAccounts(t, sv, id, moves, raised || raises)
  {
    assert k == 0 && |s.servers[sv].workers| == 1;
    var w := s.servers[sv].workers[0];
    assert forall j :: 0 <= j < |w.batch| ==> w.batch[j] in w.batch;
    if !(if w.seen.None? then s.doc.None? else s.doc.Some? && s.version == w.version) {
      LostMeansMoved(s, sv);
    }
  }

  lemma ReadAccounts(s: State, t: State, sv: ServerId, k: nat, raises: bool, id: CallId, moves: nat, raised: bool)
    requires sv in s.servers && ServerOk(s, sv) && DoRead(s, t, sv, k, raises)
    requires id in s.calls && s.calls[id].server == sv && s.calls[id].stage.Waiting?
    requires CallAccounts(s, sv, id, moves, raised)
    ensures CallAccounts(t, sv, id, moves, raised || raises)
  {
    assert k == 0 && |s.servers[sv].workers| == 1;
    var w := s.servers[sv].workers[0];
    assert forall j :: 0 <= j < |w.batch| ==> w.batch[j] in w.batch;
  }

  lemma WorkAccounts(s: State, t: State, step: Step, sv: ServerId, id: CallId, moves: nat, raised: bool)
    requires sv in s.servers && ServerOk(s, sv) && Next(s, t, step) && IsWork(step, sv) && !step.FinishOne?
    requires id in s.calls && s.calls[id].server == sv && s.calls[id].stage.Waiting?
    requires CallAccounts(s, sv, id, moves, raised)
    ensures CallAccounts(t, sv, id, moves, raised || StoreRaises(step, sv))
  {
    if step.Read? {
      ReadAccounts(s, t, sv, step.k, step.raises, id, moves, raised);
    } else if step.Swap? {
      SwapAccounts(s, t, sv, step.k, step.raises, id, moves, raised);
    } else {
      assert step.k == 0 && |s.servers[sv].workers| == 1;
    }
  }

  lemma FinishAccounts(s: State, t: State, sv: ServerId, k: nat, id: CallId, moves: nat, raised: bool)
    requires sv in s.servers && ServerOk(s, sv) && DoFinishOne(s, t, sv, k)
    requires CallAccounts(s, sv, id, moves, raised)
    ensures CallAccounts(t, sv, id, moves, raised)
  {
    var server := s.servers[sv];
    assert k == 0;
    if server.workers[0].todo != [] {
      assert Held(server)[|server.line.pending|] == server.workers[0].todo[0].id;
    }
  }

  lemma OthersFinish(s: State, t: State, o: ServerId, k: nat, sv: ServerId, id: CallId)
    requires ServersOk(s) && DoFinishOne(s, t, o, k) && o != sv && id in s.calls && s.calls[id].server == sv
    ensures id in t.calls && t.calls[id] == s.calls[id]
  {
    var server := s.servers[o];
    assert ServerOk(s, o) && k == 0;
    if server.workers[0].todo != [] {
      assert Held(server)[|server.line.pending|] == server.workers[0].todo[0].id;
    }
  }

  /** Nobody but its own server answers a call. */
  lemma OthersLeaveWaiting(s: State, t: State, step: Step, sv: ServerId, id: CallId)
    requires ServersOk(s) && Next(s, t, step) && !IsWork(step, sv)
    requires id in s.calls && s.calls[id].server == sv && s.calls[id].stage.Waiting?
    ensures id in t.calls && t.calls[id] == s.calls[id]
  {
    match step
    case FinishOne(o, k) => OthersFinish(s, t, o, k, sv, id);
    case _ =>
  }

  lemma AnsweredAccounts(s: State, t: State, step: Step, sv: ServerId, id: CallId, moves: nat, raised: bool)
    requires ServersOk(s) && Next(s, t, step)
    requires id in s.calls && s.calls[id].server == sv && !s.calls[id].stage.Waiting?
    requires CallAccounts(s, sv, id, moves, raised)
    ensures CallAccounts(t, sv, id, moves, raised)
  {
    StepFollows(s, t, step);
  }

  lemma OthersAccount(s: State, t: State, step: Step, sv: ServerId, id: CallId, moves: nat, raised: bool)
    requires ServersOk(s) && Next(s, t, step) && !IsWork(step, sv) && !IsCall(step, sv) && sv in s.servers
    requires id in s.calls && s.calls[id].server == sv && s.calls[id].stage.Waiting?
    requires CallAccounts(s, sv, id, moves, raised)
    ensures CallAccounts(t, sv, id, moves + (if t.version != s.version then 1 else 0), raised)
  {
    OthersAddNoWork(s, t, step, sv);
    OthersLeaveWaiting(s, t, step, sv, id);
  }

  /** Another call joins the line, and may bring the thread that serves it. */
  lemma JoiningAccounts(s: State, t: State, step: Step, sv: ServerId, id: CallId, moves: nat, raised: bool)
    requires Next(s, t, step) && IsCall(step, sv)
    requires id in s.calls && s.calls[id].server == sv && s.calls[id].stage.Waiting?
    requires CallAccounts(s, sv, id, moves, raised)
    ensures CallAccounts(t, sv, id, moves, raised)
  {
  }

  lemma UnknownNotInHand(s: State, sv: ServerId, id: CallId)
    requires ServersOk(s) && sv in s.servers && s.servers[sv].workers != [] && id !in s.calls
    ensures id !in InHand(s.servers[sv].workers[0])
  {
    var server := s.servers[sv];
    assert ServerOk(s, sv);
    forall k | 0 <= k < |InHand(server.workers[0])| ensures InHand(server.workers[0])[k] != id {
      assert Held(server)[|server.line.pending| + k] == InHand(server.workers[0])[k];
    }
  }

  lemma NotInHandAccounts(s: State, w: Worker, id: CallId)
    requires id !in InHand(w)
    ensures WorkerAccounts(s, w, id, 0, false)
  {
    if w.Finishing? {
      assert forall k :: 0 <= k < |w.todo| ==> InHand(w)[k] == w.todo[k].id;
    }
  }

  lemma EnqueuedWorker(s: State, t: State, sv: ServerId, id: CallId, op: Op, missing: Option<Doc>)
    requires ServersOk(s) && DoEnqueue(s, t, sv, id, op, missing)
    ensures |t.servers[sv].workers| == 1
    ensures t.servers[sv].workers[0] == if s.servers[sv].workers == [] then LeadStart else s.servers[sv].workers[0]
  {
    assert ServerOk(s, sv);
  }

  /** A call that is just made is in nobody's hand. */
  lemma NewCallAccounts(s: State, t: State, step: Step, sv: ServerId, id: CallId)
    requires ServersOk(s) && Next(s, t, step) && id !in s.calls
    ensures CallAccounts(t, sv, id, 0, false)
  {
    if id in t.calls && t.calls[id].server == sv {
      OnlyEnqueueCalls(s, t, step, id);
      EnqueuedWorker(s, t, sv, id, step.op, step.missing);
      if s.servers[sv].workers != [] {
        UnknownNotInHand(s, sv, id);
        NotInHandAccounts(t, s.servers[sv].workers[0], id);
      }
    }
  }

  lemma OnlyEnqueueCalls(s: State, t: State, step: Step, id: CallId)
    requires Next(s, t, step) && id !in s.calls && id in t.calls
    ensures step.Enqueue? && step.id == id && t.calls[id].server == step.sv && t.calls[id].stage.Waiting?
  {
  }

  lemma StepAccounts(s: State, t: State, step: Step, sv: ServerId, id: CallId, moves: nat, raised: bool)
    requires Inv(s) && Next(s, t, step) && id in s.calls && s.calls[id].server == sv
    requires CallAccounts(s, sv, id, moves, raised)
    ensures CallAccounts(t, sv, id, moves + (if Overtakes(s, t, step, sv) then 1 else 0),
                         raised || StoreRaises(step, sv))
  {
    assert sv in s.servers && ServerOk(s, sv);
    if !s.calls[id].stage.Waiting? {
      AnsweredAccounts(s, t, step, sv, id, moves, raised);
    } else if step.FinishOne? && step.sv == sv {
      FinishAccounts(s, t, sv, step.k, id, moves, raised);
    } else if IsWork(step, sv) {
      WorkAccounts(s, t, step, sv, id, moves, raised);
    } else if IsCall(step, sv) {
      JoiningAccounts(s, t, step, sv, id, moves, raised);
    } else {
      OthersAccount(s, t, step, sv, id, moves, raised);
    }
  }

  lemma RaisedSoFar(steps: seq<Step>, sv: ServerId, c: nat, i: nat)
    requires c < i <= |steps|
    ensures RaisedBetween(steps, sv, c, i) == (RaisedBetween(steps, sv, c, i - 1) || StoreRaises(steps[i - 1], sv))
  {
  }

  lemma MoreAccounts(s: State, sv: ServerId, id: CallId, moves: nat, raised: bool)
    requires CallAccounts(s, sv, id, 0, false)
    ensures CallAccounts(s, sv, id, moves, raised)
  {
  }

  lemma {:induction false} RunAccounts(run: seq<State>, steps: seq<Step>, c: nat, i: nat, id: CallId, sv: ServerId)
    requires IsRun(run, steps) && c <= i < |run| && id !in run[c].calls
    ensures id in run[i].calls && run[i].calls[id].server == sv ==>
              CallAccounts(run[i], sv, id, Overtaken(run, steps, sv, c, i), RaisedBetween(steps, sv, c, i))
    decreases i
  {
    if c < i {
      RunAccounts(run, steps, c, i - 1, id, sv);
      RunInv(run, steps, i - 1);
      var s, t, step := run[i - 1], run[i], steps[i - 1];
      assert Next(s, t, step);
      if id in s.calls {
        CallKept(s, t, step, id);
        if s.calls[id].server == sv {
          StepAccounts(s, t, step, sv, id, Overtaken(run, steps, sv, c, i - 1), RaisedBetween(steps, sv, c, i - 1));
          RaisedSoFar(steps, sv, c, i);
        }
      } else {
        NewCallAccounts(s, t, step, sv, id);
        MoreAccounts(t, sv, id, Overtaken(run, steps, sv, c, i), RaisedBetween(steps, sv, c, i));
      }
    }
  }

  // ---- Results ----

  /** Since any moment c before the call was made: a caller is told of a store failure only if a store call of
      its server's thread raised, and of contention only if thirty times somebody else moved the document on.
      If neither happened its update has its place in the order. */
  lemma NotSavedHasCause(run: seq<State>, steps: seq<Step>, c: nat, i: nat, id: CallId)
    requires IsRun(run, steps) && c <= i < |run| && id !in run[c].calls
    requires id in run[i].calls && !run[i].calls[id].stage.Waiting?
    ensures var sv, reply := run[i].calls[id].server, run[i].calls[id].stage.reply;
            && (reply == NotSaved(StoreFailure) ==> RaisedBetween(steps, sv, c, i))
            && (reply == NotSaved(Contention) ==> Overtaken(run, steps, sv, c, i) >= 30)
            && (!RaisedBetween(steps, sv, c, i) && Overtaken(run, steps, sv, c, i) < 30 ==>
                  exists p: nat :: Placed(run[i].order, id, reply, p))
  {
    var sv, reply := run[i].calls[id].server, run[i].calls[id].stage.reply;
    RunAccounts(run, steps, c, i, id, sv);
    RunInv(run, steps, i);
    assert AnswerOk(run[i].order, id, run[i].calls[id]);
    if reply.NotSaved? {
      assert reply.why == StoreFailure || reply.why == Contention;
    }
  }

  lemma OnlyWritesMove(s: State, t: State, step: Step)
    requires Next(s, t, step) && !step.RivalWrite? && !step.Swap?
    ensures t.version == s.version
  {
  }

  lemma {:induction false} OvertakenByWrites(run: seq<State>, steps: seq<Step>, sv: ServerId, c: nat, i: nat)
    requires IsRun(run, steps) && c <= i < |run|
    requires forall m :: c <= m < i ==> !steps[m].RivalWrite? && (steps[m].Swap? ==> steps[m].sv == sv)
    ensures Overtaken(run, steps, sv, c, i) == 0
    decreases i
  {
    if c < i {
      OvertakenByWrites(run, steps, sv, c, i - 1);
      assert Next(run[i - 1], run[i], steps[i - 1]);
      if !steps[i - 1].Swap? {
        OnlyWritesMove(run[i - 1], run[i], steps[i - 1]);
      }
    }
  }

  /** So where nothing raises, no rival writes and no other server swaps while a call is open, it is saved. */
  lemma UndisturbedIsSaved(run: seq<State>, steps: seq<Step>, c: nat, i: nat, id: CallId)
    requires IsRun(run, steps) && c <= i < |run| && id !in run[c].calls
    requires id in run[i].calls && !run[i].calls[id].stage.Waiting?
    requires forall m {:trigger steps[m]} :: c <= m < i ==>
               && !steps[m].RivalWrite?
               && (steps[m].Swap? ==> steps[m].sv == run[i].calls[id].server)
               && (steps[m].Read? || steps[m].Swap? ==> !steps[m].raises)
    ensures exists p: nat :: Placed(run[i].order, id, run[i].calls[id].stage.reply, p)
  {
    OvertakenByWrites(run, steps, run[i].calls[id].server, c, i);
    NotSavedHasCause(run, steps, c, i, id);
  }
}
