/** Group commit under any interleaving: any number of servers, each with its own queue for one shared
    document, any number of callers, and rival writers that go past the queues.

    Every read, every compare-and-swap, every critical section of a queue and every hand-over of a
    reply is one atomic step. Versions never repeat. A store call that raises had no effect. */
module GroupCommit {
  import opened Text
  import opened Values
  import opened Batching

  type CallId = nat
  type ServerId = nat

  datatype Entry =
    | Update(id: CallId, op: Op, missing: Option<Doc>) // one caller's update, and the default it was applied with
    | Rival(change: Option<Doc> -> Option<Doc>)        // a write that does not go through a queue

  datatype Result = Result(id: CallId, reply: Reply)

  /** Where the thread that serves a queue stands. `lead` tells a leading caller from a drain thread. */
  datatype Worker =
    | LeadStart
    | Reading(batch: seq<CallId>, attempt: nat, lead: bool)
    | Swapping(batch: seq<CallId>, attempt: nat, lead: bool, seen: Option<Doc>, version: nat)
    | Finishing(todo: seq<Result>, lead: bool)
    | LeadLook
    | LeadSpawn
    | DrainTurn

  /** `missing` is the default document of the caller that leads; the drain thread is handed it on. */
  datatype Server = Server(line: Line<CallId>, workers: seq<Worker>, missing: Option<Doc>)

  datatype Stage = Waiting | Done(reply: Reply) | Back(reply: Reply, at: nat)

  /** `since` and `Back.at` count the log entries there were at the call and at its return. */
  datatype Call = Call(server: ServerId, op: Op, missing: Option<Doc>, since: nat, stage: Stage)

  /** The order in which updates and rival writes took effect, from the document's first content on. */
  datatype Order = Order(start: Option<Doc>, log: seq<Entry>)

  datatype State = State(
    order: Order,
    doc: Option<Doc>,
    version: nat,
    servers: map<ServerId, Server>,
    calls: map<CallId, Call>)

  // ---- The serial document ----

  function Effect(doc: Option<Doc>, e: Entry): Option<Doc> {
    match e
    case Update(_, op, missing) => Alone(doc, missing, op).doc
    case Rival(change) => change(doc)
  }

  function Replay(doc: Option<Doc>, log: seq<Entry>): Option<Doc> {
    if log == [] then doc
    else Effect(Replay(doc, log[..|log| - 1]), log[|log| - 1])
  }

  /** The document just before the p-th entry of the order. */
  function DocAt(order: Order, p: nat): Option<Doc>
    requires p <= |order.log|
  {
    Replay(order.start, order.log[..p])
  }

  function Extend(order: Order, entries: seq<Entry>): Order {
    order.(log := order.log + entries)
  }

  // ---- Steps ----

  datatype Step =
    | Enqueue(sv: ServerId, id: CallId, op: Op, missing: Option<Doc>)
    | TakeFirst(sv: ServerId, k: nat)
    | Read(sv: ServerId, k: nat, raises: bool)
    | Swap(sv: ServerId, k: nat, raises: bool)
    | FinishOne(sv: ServerId, k: nat)
    | Look(sv: ServerId, k: nat)
    | Spawn(sv: ServerId, k: nat)
    | Drain(sv: ServerId, k: nat)
    | Return(id: CallId)
    | RivalWrite(change: Option<Doc> -> Option<Doc>)

  /** A step taken by a thread that serves the queue of `sv`. */
  predicate IsWork(step: Step, sv: ServerId) {
    match step
    case TakeFirst(s, _) => s == sv
    case Read(s, _, _) => s == sv
    case Swap(s, _, _) => s == sv
    case FinishOne(s, _) => s == sv
    case Look(s, _) => s == sv
    case Spawn(s, _) => s == sv
    case Drain(s, _) => s == sv
    case _ => false
  }

  predicate IsCall(step: Step, sv: ServerId) {
    step.Enqueue? && step.sv == sv
  }

  ghost function OpsIn(calls: map<CallId, Call>, batch: seq<CallId>): seq<Op>
    requires Known(calls, batch)
  {
    seq(|batch|, i requires 0 <= i < |batch| => calls[batch[i]].op)
  }

  ghost function Entries(batch: seq<CallId>, ops: seq<Op>, missing: Option<Doc>): seq<Entry>
    requires |batch| == |ops|
  {
    seq(|batch|, i requires 0 <= i < |batch| => Update(batch[i], ops[i], missing))
  }

  ghost function Results(batch: seq<CallId>, replies: seq<Reply>): seq<Result>
    requires |batch| == |replies|
  {
    seq(|batch|, i requires 0 <= i < |batch| => Result(batch[i], replies[i]))
  }

  ghost function AllNotSaved(batch: seq<CallId>, why: Trouble): seq<Result> {
    seq(|batch|, i requires 0 <= i < |batch| => Result(batch[i], NotSaved(why)))
  }

  ghost predicate WorkerAt(s: State, sv: ServerId, k: nat) {
    sv in s.servers && k < |s.servers[sv].workers|
  }

  ghost function SetWorker(s: State, sv: ServerId, k: nat, w: Worker): State
    requires WorkerAt(s, sv, k)
  {
    var server := s.servers[sv];
    s.(servers := s.servers[sv := server.(workers := server.workers[k := w])])
  }

  ghost function DropWorker(s: State, sv: ServerId, k: nat): State
    requires WorkerAt(s, sv, k)
  {
    var server := s.servers[sv];
    s.(servers := s.servers[sv := server.(workers := server.workers[..k] + server.workers[k + 1..])])
  }

  ghost function SetLine(s: State, sv: ServerId, line: Line<CallId>): State
    requires sv in s.servers
  {
    s.(servers := s.servers[sv := s.servers[sv].(line := line)])
  }

  ghost predicate Known(calls: map<CallId, Call>, batch: seq<CallId>) {
    forall i :: 0 <= i < |batch| ==> batch[i] in calls
  }

  ghost predicate DoEnqueue(s: State, t: State, sv: ServerId, id: CallId, op: Op, missing: Option<Doc>) {
    && sv in s.servers
    && id !in s.calls
    && var server := s.servers[sv];
       var lead := !server.line.active;
       t == s.(calls := s.calls[id := Call(sv, op, missing, |s.order.log|, Waiting)],
               servers := s.servers[sv := Server(Joined(server.line, id),
                                                 if lead then server.workers + [LeadStart] else server.workers,
                                                 if lead then missing else server.missing)])
  }

  ghost predicate DoTakeFirst(s: State, t: State, sv: ServerId, k: nat) {
    && WorkerAt(s, sv, k)
    && s.servers[sv].workers[k] == LeadStart
    && var line := s.servers[sv].line;
       t == SetWorker(SetLine(s, sv, Emptied(line)), sv, k, Reading(line.pending, 0, true))
  }

  /** get_versioned, then the batch applied to the private copy. Nothing needs saving when every update
      was refused: the refusals then take their place in the order here. */
  ghost predicate DoRead(s: State, t: State, sv: ServerId, k: nat, raises: bool) {
    && WorkerAt(s, sv, k)
    && s.servers[sv].workers[k].Reading?
    && var w := s.servers[sv].workers[k];
       && Known(s.calls, w.batch)
       && if raises then t == SetWorker(s, sv, k, Finishing(AllNotSaved(w.batch, StoreFailure), w.lead))
          else if Changes(s.doc, s.servers[sv].missing, OpsIn(s.calls, w.batch)) then
            t == SetWorker(s, sv, k, Swapping(w.batch, w.attempt, w.lead, s.doc, s.version))
          else
            var ops := OpsIn(s.calls, w.batch);
            t == SetWorker(s, sv, k, Finishing(Results(w.batch, Replies(s.doc, s.servers[sv].missing, ops)), w.lead))
                 .(order := Extend(s.order, Entries(w.batch, ops, s.servers[sv].missing)))
  }

  /** set_if_version: it succeeds on the version that was read, or on a document still absent. */
  ghost predicate DoSwap(s: State, t: State, sv: ServerId, k: nat, raises: bool) {
    && WorkerAt(s, sv, k)
    && s.servers[sv].workers[k].Swapping?
    && var w := s.servers[sv].workers[k];
       && Known(s.calls, w.batch)
       && if raises then t == SetWorker(s, sv, k, Finishing(AllNotSaved(w.batch, StoreFailure), w.lead))
          else if (if w.seen.None? then s.doc.None? else s.doc.Some? && s.version == w.version) then
            var ops := OpsIn(s.calls, w.batch);
            t == SetWorker(s, sv, k, Finishing(Results(w.batch, Replies(w.seen, s.servers[sv].missing, ops)), w.lead))
                 .(doc := Serial(w.seen, s.servers[sv].missing, ops), version := s.version + 1,
                   order := Extend(s.order, Entries(w.batch, ops, s.servers[sv].missing)))
          else if w.attempt + 1 < MAX_ATTEMPTS then
            t == SetWorker(s, sv, k, Reading(w.batch, w.attempt + 1, w.lead))
          else t == SetWorker(s, sv, k, Finishing(AllNotSaved(w.batch, Contention), w.lead))
  }

  ghost predicate DoFinishOne(s: State, t: State, sv: ServerId, k: nat) {
    && WorkerAt(s, sv, k)
    && s.servers[sv].workers[k].Finishing?
    && var w := s.servers[sv].workers[k];
       if w.todo == [] then t == SetWorker(s, sv, k, if w.lead then LeadLook else DrainTurn)
       else
         && w.todo[0].id in s.calls
         && t == SetWorker(s, sv, k, w.(todo := w.todo[1..]))
                 .(calls := s.calls[w.todo[0].id := s.calls[w.todo[0].id].(stage := Done(w.todo[0].reply))])
  }

  ghost predicate DoLook(s: State, t: State, sv: ServerId, k: nat) {
    && WorkerAt(s, sv, k)
    && s.servers[sv].workers[k] == LeadLook
    && var line := s.servers[sv].line;
       if line.pending != [] then t == SetWorker(s, sv, k, LeadSpawn)
       else t == DropWorker(SetLine(s, sv, LookedAgain(line)), sv, k)
  }

  ghost predicate DoSpawn(s: State, t: State, sv: ServerId, k: nat) {
    && WorkerAt(s, sv, k)
    && s.servers[sv].workers[k] == LeadSpawn
    && t == SetWorker(s, sv, k, DrainTurn)
  }

  ghost predicate DoDrain(s: State, t: State, sv: ServerId, k: nat) {
    && WorkerAt(s, sv, k)
    && s.servers[sv].workers[k] == DrainTurn
    && var line := s.servers[sv].line;
       if line.pending == [] then t == DropWorker(SetLine(s, sv, LookedAgain(line)), sv, k)
       else t == SetWorker(SetLine(s, sv, Emptied(line)), sv, k, Reading(line.pending, 0, false))
  }

  ghost predicate DoReturn(s: State, t: State, id: CallId) {
    && id in s.calls && s.calls[id].stage.Done?
    && t == s.(calls := s.calls[id := s.calls[id].(stage := Back(s.calls[id].stage.reply, |s.order.log|))])
  }

  ghost predicate DoRival(s: State, t: State, change: Option<Doc> -> Option<Doc>) {
    t == s.(doc := change(s.doc), version := s.version + 1, order := Extend(s.order, [Rival(change)]))
  }

  ghost predicate Next(s: State, t: State, step: Step) {
    match step
    case Enqueue(sv, id, op, missing) => DoEnqueue(s, t, sv, id, op, missing)
    case TakeFirst(sv, k) => DoTakeFirst(s, t, sv, k)
    case Read(sv, k, raises) => DoRead(s, t, sv, k, raises)
    case Swap(sv, k, raises) => DoSwap(s, t, sv, k, raises)
    case FinishOne(sv, k) => DoFinishOne(s, t, sv, k)
    case Look(sv, k) => DoLook(s, t, sv, k)
    case Spawn(sv, k) => DoSpawn(s, t, sv, k)
    case Drain(sv, k) => DoDrain(s, t, sv, k)
    case Return(id) => DoReturn(s, t, id)
    case RivalWrite(change) => DoRival(s, t, change)
  }

  ghost predicate Init(s: State) {
    && s.doc == s.order.start && s.order.log == [] && s.calls == map[]
    && forall sv :: sv in s.servers ==> s.servers[sv].line == Line([], false) && s.servers[sv].workers == []
  }

  ghost predicate IsRun(run: seq<State>, steps: seq<Step>) {
    && |run| == |steps| + 1
    && Init(run[0])
    && forall i {:trigger steps[i]} :: 0 <= i < |steps| ==> Next(run[i], run[i + 1], steps[i])
  }

  // ---- The invariant ----

  ghost function IdsOf(todo: seq<Result>): seq<CallId> {
    seq(|todo|, i requires 0 <= i < |todo| => todo[i].id)
  }

  /** The calls a worker still has to answer. */
  ghost function InHand(w: Worker): seq<CallId> {
    match w
    case Reading(batch, _, _) => batch
    case Swapping(batch, _, _, _, _) => batch
    case Finishing(todo, _) => IdsOf(todo)
    case _ => []
  }

  /** Everything a queue holds: who waits in line, then who is being served. */
  ghost function Held(server: Server): seq<CallId> {
    server.line.pending + (if server.workers == [] then [] else InHand(server.workers[0]))
  }

  ghost predicate NoRepeats(ids: seq<CallId>) {
    forall i, j :: 0 <= i < j < |ids| ==> ids[i] != ids[j]
  }

  /** Exactly one thread serves an active queue; an idle queue is empty and has none. */
  ghost predicate ShapeOk(server: Server) {
    && |server.workers| == (if server.line.active then 1 else 0)
    && (!server.line.active ==> server.line.pending == [])
    && (server.line.active ==>
          var w := server.workers[0];
          && (w.LeadStart? || w.LeadSpawn? ==> server.line.pending != [])
          && (w.Reading? ==> w.batch != [] && w.attempt < MAX_ATTEMPTS)
          && (w.Swapping? ==> w.batch != [] && w.attempt < MAX_ATTEMPTS))
  }

  ghost predicate Owned(calls: map<CallId, Call>, sv: ServerId, ids: seq<CallId>) {
    forall i :: 0 <= i < |ids| ==> ids[i] in calls && calls[ids[i]].server == sv && calls[ids[i]].stage.Waiting?
  }

  ghost predicate HeldOk(calls: map<CallId, Call>, sv: ServerId, server: Server) {
    NoRepeats(Held(server)) && Owned(calls, sv, Held(server))
  }

  /** Every call that waits is held by its server's queue. */
  ghost predicate WaitersOk(s: State) {
    forall id :: id in s.calls ==>
      && s.calls[id].server in s.servers
      && (s.calls[id].stage.Waiting? ==> id in Held(s.servers[s.calls[id].server]))
  }

  ghost predicate Placed(order: Order, id: CallId, reply: Reply, p: nat) {
    && p < |order.log|
    && order.log[p].Update? && order.log[p].id == id
    && reply == Alone(DocAt(order, p), order.log[p].missing, order.log[p].op).reply
  }

  ghost predicate Unplaced(order: Order, id: CallId) {
    forall p :: 0 <= p < |order.log| && order.log[p].Update? ==> order.log[p].id != id
  }

  /** The reply is what the update yields at its place in the order, or it has no place and no effect. */
  ghost predicate Fits(order: Order, id: CallId, reply: Reply) {
    if reply.NotSaved? then Unplaced(order, id) else exists p: nat :: Placed(order, id, reply, p)
  }

  ghost predicate AllUnplaced(order: Order, ids: seq<CallId>) {
    forall i :: 0 <= i < |ids| ==> Unplaced(order, ids[i])
  }

  ghost predicate AllFit(order: Order, todo: seq<Result>) {
    forall i :: 0 <= i < |todo| ==> Fits(order, todo[i].id, todo[i].reply)
  }

  ghost predicate WorkerOk(order: Order, w: Worker) {
    if w.Finishing? then AllFit(order, w.todo) else AllUnplaced(order, InHand(w))
  }

  /** What a worker read is still the document, unless the version has moved on. */
  ghost predicate SeenOk(s: State, w: Worker) {
    w.Swapping? ==>
      && w.version <= s.version && (w.version == s.version ==> w.seen == s.doc)
      && Known(s.calls, w.batch)
  }

  ghost predicate ServerOk(s: State, sv: ServerId)
    requires sv in s.servers
  {
    var server := s.servers[sv];
    && ShapeOk(server)
    && HeldOk(s.calls, sv, server)
    && AllUnplaced(s.order, server.line.pending)
    && (server.workers != [] ==> WorkerOk(s.order, server.workers[0]) && SeenOk(s, server.workers[0]))
  }

  /** Every entry of a log belongs to a known call that was made before. */
  ghost predicate EntriesKnown(calls: map<CallId, Call>, log: seq<Entry>) {
    forall p :: 0 <= p < |log| && log[p].Update? ==>
      && log[p].id in calls
      && log[p].op == calls[log[p].id].op
      && calls[log[p].id].since <= p
  }

  ghost predicate PlacedOnce(log: seq<Entry>) {
    forall p, q :: 0 <= p < q < |log| && log[p].Update? && log[q].Update? ==> log[p].id != log[q].id
  }

  ghost predicate OrderOk(s: State) {
    && s.doc == Replay(s.order.start, s.order.log)
    && EntriesKnown(s.calls, s.order.log)
    && PlacedOnce(s.order.log)
  }

  ghost predicate AnswerOk(order: Order, id: CallId, call: Call) {
    && call.since <= |order.log|
    && (call.stage.Done? ==> Fits(order, id, call.stage.reply))
    && (call.stage.Back? ==>
          && Fits(order, id, call.stage.reply)
          && call.stage.at <= |order.log|
          && forall p :: call.stage.at <= p < |order.log| && order.log[p].Update? ==> order.log[p].id != id)
  }

  ghost predicate AnswersOk(s: State) {
    forall id :: id in s.calls ==> AnswerOk(s.order, id, s.calls[id])
  }

  ghost predicate ServersOk(s: State) {
    forall sv :: sv in s.servers ==> ServerOk(s, sv)
  }

  ghost predicate Inv(s: State) {
    WaitersOk(s) && OrderOk(s) && AnswersOk(s) && ServersOk(s)
  }

  // ---- Growth of the order ----

  lemma {:induction false} ReplayBatch(order: Order, batch: seq<CallId>, ops: seq<Op>, missing: Option<Doc>)
    requires |batch| == |ops|
    ensures Replay(order.start, order.log + Entries(batch, ops, missing))
         == Serial(Replay(order.start, order.log), missing, ops)
  {
    if ops == [] {
      assert order.log + Entries(batch, ops, missing) == order.log;
    } else {
      var n := |ops| - 1;
      ReplayBatch(order, batch[..n], ops[..n], missing);
      var all := order.log + Entries(batch, ops, missing);
      assert all[..|all| - 1] == order.log + Entries(batch[..n], ops[..n], missing);
    }
  }

  /** The i-th update of an appended batch gets the reply it has in the batch. */
  lemma BatchPlaces(order: Order, batch: seq<CallId>, ops: seq<Op>, missing: Option<Doc>, i: nat)
    requires |batch| == |ops| && i < |ops|
    ensures Placed(Extend(order, Entries(batch, ops, missing)), batch[i],
                   ReplyAt(Replay(order.start, order.log), missing, ops, i), |order.log| + i)
  {
    ReplayBatch(order, batch[..i], ops[..i], missing);
    assert Extend(order, Entries(batch, ops, missing)).log[..|order.log| + i]
        == order.log + Entries(batch[..i], ops[..i], missing);
  }

  /** No entry that was added belongs to `id`. */
  ghost predicate SparesCall(order: Order, grown: Order, id: CallId) {
    && grown.start == order.start && order.log <= grown.log
    && forall p :: |order.log| <= p < |grown.log| && grown.log[p].Update? ==> grown.log[p].id != id
  }

  lemma FitsStays(order: Order, grown: Order, id: CallId, reply: Reply)
    requires Fits(order, id, reply) && SparesCall(order, grown, id)
    ensures Fits(grown, id, reply)
  {
    if !reply.NotSaved? {
      var p: nat :| Placed(order, id, reply, p);
      assert grown.log[..p] == order.log[..p];
      assert Placed(grown, id, reply, p);
    }
  }

  lemma UnplacedStays(order: Order, grown: Order, id: CallId)
    requires Unplaced(order, id) && SparesCall(order, grown, id)
    ensures Unplaced(grown, id)
  {
  }

  lemma WorkerStays(order: Order, grown: Order, w: Worker)
    requires WorkerOk(order, w)
    requires forall i :: 0 <= i < |InHand(w)| ==> SparesCall(order, grown, InHand(w)[i])
    ensures WorkerOk(grown, w)
  {
    if w.Finishing? {
      forall i | 0 <= i < |w.todo| ensures Fits(grown, w.todo[i].id, w.todo[i].reply) {
        assert InHand(w)[i] == w.todo[i].id;
        FitsStays(order, grown, w.todo[i].id, w.todo[i].reply);
      }
    } else {
      forall i | 0 <= i < |InHand(w)| ensures Unplaced(grown, InHand(w)[i]) {
        UnplacedStays(order, grown, InHand(w)[i]);
      }
    }
  }

  // ---- Every step keeps the invariant ----

  /** What a step leaves alone: everything that belongs to server `o`. */
  ghost predicate SparesServer(s: State, t: State, o: ServerId) {
    && o in s.servers && o in t.servers && t.servers[o] == s.servers[o]
    && (forall id :: id in s.calls && s.calls[id].server == o && s.calls[id].stage.Waiting? ==>
          && id in t.calls && t.calls[id] == s.calls[id]
          && SparesCall(s.order, t.order, id))
    && s.version <= t.version && (t.version == s.version ==> t.doc == s.doc)
  }

  lemma SparedServer(s: State, t: State, o: ServerId)
    requires o in s.servers && ServerOk(s, o) && SparesServer(s, t, o)
    ensures ServerOk(t, o)
  {
    var server := s.servers[o];
    assert Owned(t.calls, o, Held(server));
    forall i | 0 <= i < |server.line.pending| ensures Unplaced(t.order, server.line.pending[i]) {
      assert Held(server)[i] == server.line.pending[i];
      UnplacedStays(s.order, t.order, server.line.pending[i]);
    }
    if server.workers != [] {
      var w := server.workers[0];
      assert forall i :: 0 <= i < |InHand(w)| ==> Held(server)[|server.line.pending| + i] == InHand(w)[i];
      WorkerStays(s.order, t.order, w);
      if w.Swapping? {
        assert Known(t.calls, w.batch);
      }
    }
  }

  /** A step of the thread that serves `sv` which hands no reply over yet. */
  ghost predicate Serves(s: State, t: State, sv: ServerId) {
    && sv in s.servers && t.servers.Keys == s.servers.Keys
    && (forall o :: o in s.servers && o != sv ==> t.servers[o] == s.servers[o])
    && t.calls == s.calls
    && Held(t.servers[sv]) == Held(s.servers[sv])
    && t.order.start == s.order.start && s.order.log <= t.order.log
    && (forall p :: |s.order.log| <= p < |t.order.log| && t.order.log[p].Update? ==>
          t.order.log[p].id in Held(s.servers[sv]))
    && s.version <= t.version && (t.version == s.version ==> t.doc == s.doc)
  }

  /** A serving step after which the worker of `sv` (if any is left) is in order. */
  ghost predicate ServesWell(s: State, t: State, sv: ServerId) {
    && Serves(s, t, sv)
    && var server := t.servers[sv];
       && ShapeOk(server) && AllUnplaced(t.order, server.line.pending)
       && (server.workers != [] ==> WorkerOk(t.order, server.workers[0]) && SeenOk(t, server.workers[0]))
  }

  lemma ServedCall(s: State, t: State, sv: ServerId, id: CallId)
    requires Serves(s, t, sv) && HeldOk(s.calls, sv, s.servers[sv])
    requires id in s.calls && (s.calls[id].server != sv || !s.calls[id].stage.Waiting?)
    ensures SparesCall(s.order, t.order, id)
  {
    var held := Held(s.servers[sv]);
    assert forall i :: 0 <= i < |held| ==> held[i] != id;
  }

  lemma ServingOthers(s: State, t: State, sv: ServerId, o: ServerId)
    requires Serves(s, t, sv) && ServerOk(s, sv) && o in s.servers && o != sv && ServerOk(s, o)
    ensures ServerOk(t, o)
  {
    forall id | id in s.calls && s.calls[id].server == o ensures SparesCall(s.order, t.order, id) {
      ServedCall(s, t, sv, id);
    }
    SparedServer(s, t, o);
  }

  lemma ServingAnswers(s: State, t: State, sv: ServerId)
    requires Serves(s, t, sv) && ServerOk(s, sv) && AnswersOk(s)
    ensures AnswersOk(t)
  {
    forall id | id in t.calls ensures AnswerOk(t.order, id, t.calls[id]) {
      assert AnswerOk(s.order, id, s.calls[id]);
      if !s.calls[id].stage.Waiting? {
        ServedCall(s, t, sv, id);
        FitsStays(s.order, t.order, id, s.calls[id].stage.reply);
      }
    }
  }

  lemma ServingServers(s: State, t: State, sv: ServerId)
    requires ServersOk(s) && ServesWell(s, t, sv)
    ensures ServersOk(t)
  {
    assert ServerOk(s, sv);
    forall o | o in t.servers ensures ServerOk(t, o) {
      assert ServerOk(s, o);
      if o != sv {
        ServingOthers(s, t, sv, o);
      } else {
        assert HeldOk(t.calls, sv, t.servers[sv]);
      }
    }
  }

  lemma ServingWaiters(s: State, t: State, sv: ServerId)
    requires WaitersOk(s) && Serves(s, t, sv)
    ensures WaitersOk(t)
  {
    forall id | id in t.calls && t.calls[id].stage.Waiting? ensures id in Held(t.servers[t.calls[id].server]) {
      assert id in Held(s.servers[t.calls[id].server]);
    }
  }

  lemma KeepServing(s: State, t: State, sv: ServerId)
    requires Inv(s) && ServesWell(s, t, sv) && OrderOk(t)
    ensures Inv(t)
  {
    ServingServers(s, t, sv);
    ServingWaiters(s, t, sv);
    assert ServerOk(s, sv);
    ServingAnswers(s, t, sv);
  }

  /** The queue and its thread move on; document and order stay as they are. */
  lemma QueueMove(s: State, t: State, sv: ServerId, server: Server)
    requires sv in s.servers && ServerOk(s, sv)
    requires t == s.(servers := s.servers[sv := server])
    requires Held(server) == Held(s.servers[sv]) && ShapeOk(server)
    requires server.workers != [] ==> !server.workers[0].Finishing? && SeenOk(t, server.workers[0])
    requires s.servers[sv].workers != [] && !s.servers[sv].workers[0].Finishing?
    ensures ServesWell(s, t, sv)
  {
    var held, before := Held(server), s.servers[sv];
    forall i | 0 <= i < |held| ensures Unplaced(s.order, held[i]) {
      var base := |before.line.pending|;
      if i < base {
        assert held[i] == before.line.pending[i];
      } else {
        assert held[i] == InHand(before.workers[0])[i - base];
      }
    }
    assert forall i :: 0 <= i < |server.line.pending| ==> server.line.pending[i] == held[i];
    if server.workers != [] {
      assert forall i :: 0 <= i < |InHand(server.workers[0])| ==>
          InHand(server.workers[0])[i] == held[|server.line.pending| + i];
    }
  }

  lemma KeepQueueMove(s: State, t: State, sv: ServerId, server: Server)
    requires Inv(s) && sv in s.servers
    requires t == s.(servers := s.servers[sv := server])
    requires Held(server) == Held(s.servers[sv]) && ShapeOk(server)
    requires server.workers != [] ==> !server.workers[0].Finishing? && SeenOk(t, server.workers[0])
    requires s.servers[sv].workers != [] && !s.servers[sv].workers[0].Finishing?
    ensures Inv(t)
  {
    assert ServerOk(s, sv);
    QueueMove(s, t, sv, server);
    assert OrderOk(t);
    KeepServing(s, t, sv);
  }

  lemma TakenServer(s: State, t: State, sv: ServerId, k: nat)
    requires DoTakeFirst(s, t, sv, k) && ShapeOk(s.servers[sv])
    ensures var server := t.servers[sv];
            && t == s.(servers := s.servers[sv := server])
            && Held(server) == Held(s.servers[sv]) && ShapeOk(server)
            && (server.workers != [] ==> server.workers[0].Reading?)
            && s.servers[sv].workers != [] && s.servers[sv].workers[0].LeadStart?
  {
  }

  lemma KeepTakeFirst(s: State, t: State, sv: ServerId, k: nat)
    requires Inv(s) && DoTakeFirst(s, t, sv, k)
    ensures Inv(t)
  {
    assert ServerOk(s, sv);
    TakenServer(s, t, sv, k);
    KeepQueueMove(s, t, sv, t.servers[sv]);
  }

  lemma KeepLook(s: State, t: State, sv: ServerId, k: nat)
    requires Inv(s) && DoLook(s, t, sv, k)
    ensures Inv(t)
  {
    assert ServerOk(s, sv);
    KeepQueueMove(s, t, sv, t.servers[sv]);
  }

  lemma KeepSpawn(s: State, t: State, sv: ServerId, k: nat)
    requires Inv(s) && DoSpawn(s, t, sv, k)
    ensures Inv(t)
  {
    assert ServerOk(s, sv);
    KeepQueueMove(s, t, sv, t.servers[sv]);
  }

  lemma DrainedServer(s: State, t: State, sv: ServerId, k: nat)
    requires DoDrain(s, t, sv, k) && ShapeOk(s.servers[sv])
    ensures var server := t.servers[sv];
            && t == s.(servers := s.servers[sv := server])
            && Held(server) == Held(s.servers[sv]) && ShapeOk(server)
            && (server.workers != [] ==> !server.workers[0].Finishing? && !server.workers[0].Swapping?)
            && s.servers[sv].workers != [] && s.servers[sv].workers[0].DrainTurn?
  {
  }

  lemma KeepDrain(s: State, t: State, sv: ServerId, k: nat)
    requires Inv(s) && DoDrain(s, t, sv, k)
    ensures Inv(t)
  {
    assert ServerOk(s, sv);
    DrainedServer(s, t, sv, k);
    KeepQueueMove(s, t, sv, t.servers[sv]);
  }

  lemma BatchKnown(calls: map<CallId, Call>, log: seq<Entry>, batch: seq<CallId>, ops: seq<Op>, missing: Option<Doc>)
    requires EntriesKnown(calls, log) && Known(calls, batch) && ops == OpsIn(calls, batch)
    requires forall i :: 0 <= i < |batch| ==> calls[batch[i]].since <= |log|
    ensures EntriesKnown(calls, log + Entries(batch, ops, missing))
  {
    var all := log + Entries(batch, ops, missing);
    forall p | 0 <= p < |all| && all[p].Update?
      ensures all[p].id in calls && all[p].op == calls[all[p].id].op && calls[all[p].id].since <= p
    {
      if p < |log| {
        assert all[p] == log[p];
      } else {
        assert all[p] == Update(batch[p - |log|], ops[p - |log|], missing);
      }
    }
  }

  lemma BatchPlacedOnce(order: Order, batch: seq<CallId>, ops: seq<Op>, missing: Option<Doc>)
    requires PlacedOnce(order.log) && |batch| == |ops| && NoRepeats(batch) && AllUnplaced(order, batch)
    ensures PlacedOnce(order.log + Entries(batch, ops, missing))
  {
    var log, all := order.log, order.log + Entries(batch, ops, missing);
    forall p, q | 0 <= p < q < |all| && all[p].Update? && all[q].Update? ensures all[p].id != all[q].id {
      if q < |log| {
        assert all[p] == log[p] && all[q] == log[q];
      } else {
        assert all[q] == Update(batch[q - |log|], ops[q - |log|], missing);
        if p < |log| {
          assert all[p] == log[p] && Unplaced(order, batch[q - |log|]);
        } else {
          assert all[p] == Update(batch[p - |log|], ops[p - |log|], missing);
        }
      }
    }
  }

  /** A batch of unplaced updates takes its place at the end of the order, all at once. */
  lemma BatchOrdered(s: State, t: State, batch: seq<CallId>, ops: seq<Op>, missing: Option<Doc>)
    requires OrderOk(s) && Known(s.calls, batch) && ops == OpsIn(s.calls, batch)
    requires forall i :: 0 <= i < |batch| ==> s.calls[batch[i]].since <= |s.order.log|
    requires NoRepeats(batch) && AllUnplaced(s.order, batch)
    requires t.calls == s.calls && t.order == Extend(s.order, Entries(batch, ops, missing))
    requires t.doc == Serial(s.doc, missing, ops)
    ensures OrderOk(t)
  {
    ReplayBatch(s.order, batch, ops, missing);
    BatchKnown(s.calls, s.order.log, batch, ops, missing);
    BatchPlacedOnce(s.order, batch, ops, missing);
  }

  lemma BatchFits(order: Order, batch: seq<CallId>, ops: seq<Op>, missing: Option<Doc>, doc: Option<Doc>)
    requires |batch| == |ops| && doc == Replay(order.start, order.log)
    ensures AllFit(Extend(order, Entries(batch, ops, missing)), Results(batch, Replies(doc, missing, ops)))
  {
    var todo := Results(batch, Replies(doc, missing, ops));
    forall i | 0 <= i < |todo| ensures Fits(Extend(order, Entries(batch, ops, missing)), todo[i].id, todo[i].reply) {
      BatchPlaces(order, batch, ops, missing, i);
    }
  }

  lemma HeldSplits(server: Server)
    requires ShapeOk(server) && server.workers != [] && NoRepeats(Held(server))
    ensures NoRepeats(server.line.pending) && NoRepeats(InHand(server.workers[0]))
    ensures forall i, j :: 0 <= i < |server.line.pending| && 0 <= j < |InHand(server.workers[0])| ==>
              server.line.pending[i] != InHand(server.workers[0])[j]
    ensures forall j :: 0 <= j < |InHand(server.workers[0])| ==> InHand(server.workers[0])[j] in Held(server)
  {
    var held, base := Held(server), |server.line.pending|;
    assert forall i :: 0 <= i < base ==> held[i] == server.line.pending[i];
    assert forall j :: 0 <= j < |InHand(server.workers[0])| ==> held[base + j] == InHand(server.workers[0])[j];
  }

  /** The worker of `sv` commits its batch: order and document move on together. */
  ghost predicate Commits(s: State, t: State, sv: ServerId, batch: seq<CallId>, lead: bool) {
    && sv in s.servers && s.servers[sv].workers != [] && Known(s.calls, batch)
    && !s.servers[sv].workers[0].Finishing? && batch == InHand(s.servers[sv].workers[0])
    && (var ops := OpsIn(s.calls, batch);
        t == SetWorker(s, sv, 0, Finishing(Results(batch, Replies(s.doc, s.servers[sv].missing, ops)), lead))
             .(doc := Serial(s.doc, s.servers[sv].missing, ops), version := t.version,
               order := Extend(s.order, Entries(batch, ops, s.servers[sv].missing))))
    && s.version <= t.version && (t.version == s.version ==> t.doc == s.doc)
  }

  lemma CommitServes(s: State, t: State, sv: ServerId, batch: seq<CallId>, lead: bool)
    requires Commits(s, t, sv, batch, lead) && ServerOk(s, sv)
    requires AllFit(t.order, Results(batch, Replies(s.doc, s.servers[sv].missing, OpsIn(s.calls, batch))))
    ensures ServesWell(s, t, sv)
  {
    var server, ops := s.servers[sv], OpsIn(s.calls, batch);
    HeldSplits(server);
    assert IdsOf(Results(batch, Replies(s.doc, s.servers[sv].missing, ops))) == batch;
    forall i | 0 <= i < |server.line.pending| ensures Unplaced(t.order, server.line.pending[i]) {
      UnplacedStays(s.order, t.order, server.line.pending[i]);
    }
  }

  lemma KeepCommit(s: State, t: State, sv: ServerId, batch: seq<CallId>, lead: bool)
    requires Inv(s) && Commits(s, t, sv, batch, lead)
    ensures Inv(t)
  {
    assert ServerOk(s, sv);
    var ops := OpsIn(s.calls, batch);
    assert OrderOk(t) by {
      HeldSplits(s.servers[sv]);
      assert forall i :: 0 <= i < |batch| ==> AnswerOk(s.order, batch[i], s.calls[batch[i]]);
      BatchOrdered(s, t, batch, ops, s.servers[sv].missing);
    }
    BatchFits(s.order, batch, ops, s.servers[sv].missing, s.doc);
    CommitServes(s, t, sv, batch, lead);
    KeepServing(s, t, sv);
  }

  /** The worker of `sv` gives its batch up: nothing was written. */
  lemma KeepGivenUp(s: State, t: State, sv: ServerId, batch: seq<CallId>, lead: bool, why: Trouble)
    requires Inv(s) && sv in s.servers && s.servers[sv].workers != []
    requires !s.servers[sv].workers[0].Finishing? && batch == InHand(s.servers[sv].workers[0])
    requires t == SetWorker(s, sv, 0, Finishing(AllNotSaved(batch, why), lead))
    ensures Inv(t)
  {
    assert ServerOk(s, sv);
    assert IdsOf(AllNotSaved(batch, why)) == batch;
    assert OrderOk(t);
    KeepServing(s, t, sv);
  }

  lemma KeepRead(s: State, t: State, sv: ServerId, k: nat, raises: bool)
    requires Inv(s) && DoRead(s, t, sv, k, raises)
    ensures Inv(t)
  {
    var w := s.servers[sv].workers[k];
    assert k == 0 by {
      assert ServerOk(s, sv);
    }
    if raises {
      KeepGivenUp(s, t, sv, w.batch, w.lead, StoreFailure);
    } else if Changes(s.doc, s.servers[sv].missing, OpsIn(s.calls, w.batch)) {
      assert ServerOk(s, sv);
      KeepQueueMove(s, t, sv, t.servers[sv]);
    } else {
      UnchangedWhenAllRefused(s.doc, s.servers[sv].missing, OpsIn(s.calls, w.batch));
      KeepCommit(s, t, sv, w.batch, w.lead);
    }
  }

  lemma KeepSwap(s: State, t: State, sv: ServerId, k: nat, raises: bool)
    requires Inv(s) && DoSwap(s, t, sv, k, raises)
    ensures Inv(t)
  {
    var w := s.servers[sv].workers[k];
    assert ServerOk(s, sv) && k == 0;
    if raises {
      KeepGivenUp(s, t, sv, w.batch, w.lead, StoreFailure);
    } else if if w.seen.None? then s.doc.None? else s.doc.Some? && s.version == w.version {
      KeepCommit(s, t, sv, w.batch, w.lead);
    } else if w.attempt + 1 < MAX_ATTEMPTS {
      KeepQueueMove(s, t, sv, t.servers[sv]);
    } else {
      KeepGivenUp(s, t, sv, w.batch, w.lead, Contention);
    }
  }

  lemma RivalLog(calls: map<CallId, Call>, log: seq<Entry>, change: Option<Doc> -> Option<Doc>)
    requires EntriesKnown(calls, log) && PlacedOnce(log)
    ensures EntriesKnown(calls, log + [Rival(change)]) && PlacedOnce(log + [Rival(change)])
  {
    var all := log + [Rival(change)];
    assert forall p :: 0 <= p < |all| && all[p].Update? ==> p < |log| && all[p] == log[p];
  }

  lemma RivalOrder(s: State, t: State, change: Option<Doc> -> Option<Doc>)
    requires OrderOk(s) && DoRival(s, t, change)
    ensures OrderOk(t)
  {
    RivalLog(s.calls, s.order.log, change);
    assert t.order.log[..|t.order.log| - 1] == s.order.log;
  }

  lemma KeepRival(s: State, t: State, change: Option<Doc> -> Option<Doc>)
    requires Inv(s) && DoRival(s, t, change)
    ensures Inv(t)
  {
    assert ServersOk(t) by {
      forall o | o in t.servers ensures ServerOk(t, o) {
        assert ServerOk(s, o);
        SparedServer(s, t, o);
      }
    }
    assert AnswersOk(t) by {
      forall id | id in t.calls ensures AnswerOk(t.order, id, t.calls[id]) {
        assert AnswerOk(s.order, id, s.calls[id]);
        if !s.calls[id].stage.Waiting? {
          FitsStays(s.order, t.order, id, s.calls[id].stage.reply);
        }
      }
    }
    RivalOrder(s, t, change);
  }

  lemma KeepReturn(s: State, t: State, id: CallId)
    requires Inv(s) && DoReturn(s, t, id)
    ensures Inv(t)
  {
    forall o | o in t.servers ensures ServerOk(t, o) {
      assert ServerOk(s, o);
      SparedServer(s, t, o);
    }
    assert AnswerOk(s.order, id, s.calls[id]);
  }

  lemma WithOneMore(ids: seq<CallId>, n: nat, id: CallId)
    requires n <= |ids| && NoRepeats(ids) && id !in ids
    ensures var more := ids[..n] + [id] + ids[n..];
            && NoRepeats(more) && (forall i :: 0 <= i < |more| ==> more[i] in ids || more[i] == id)
            && forall x :: x in ids || x == id ==> x in more
  {
    var more := ids[..n] + [id] + ids[n..];
    forall i, j | 0 <= i < j < |more| ensures more[i] != more[j] {
      assert more[i] == if i < n then ids[i] else if i == n then id else ids[i - 1];
      assert more[j] == if j < n then ids[j] else if j == n then id else ids[j - 1];
    }
    forall x | x in ids || x == id ensures x in more {
      if x in ids {
        var i :| 0 <= i < |ids| && ids[i] == x;
        assert more[if i < n then i else i + 1] == x;
      } else {
        assert more[n] == x;
      }
    }
  }

  lemma EnqueueHeld(s: State, t: State, sv: ServerId, id: CallId, op: Op, missing: Option<Doc>)
    requires DoEnqueue(s, t, sv, id, op, missing) && ShapeOk(s.servers[sv]) && HeldOk(s.calls, sv, s.servers[sv])
    ensures HeldOk(t.calls, sv, t.servers[sv])
    ensures forall x :: x in Held(s.servers[sv]) || x == id ==> x in Held(t.servers[sv])
  {
    var held, held' := Held(s.servers[sv]), Held(t.servers[sv]);
    var n := |s.servers[sv].line.pending|;
    assert held' == held[..n] + [id] + held[n..];
    WithOneMore(held, n, id);
    forall i | 0 <= i < |held'|
      ensures held'[i] in t.calls && t.calls[held'[i]].server == sv && t.calls[held'[i]].stage.Waiting?
    {
      assert held'[i] == id || (held'[i] in held && t.calls[held'[i]] == s.calls[held'[i]]);
    }
  }

  lemma EnqueueServer(s: State, t: State, sv: ServerId, id: CallId, op: Op, missing: Option<Doc>)
    requires OrderOk(s) && DoEnqueue(s, t, sv, id, op, missing) && ServerOk(s, sv)
    ensures ServerOk(t, sv)
    ensures forall x :: x in Held(s.servers[sv]) || x == id ==> x in Held(t.servers[sv])
  {
    var server := s.servers[sv];
    EnqueueHeld(s, t, sv, id, op, missing);
    assert Unplaced(t.order, id);
    if server.workers != [] && server.workers[0].Swapping? {
      assert Known(t.calls, server.workers[0].batch);
    }
  }

  lemma KeepEnqueue(s: State, t: State, sv: ServerId, id: CallId, op: Op, missing: Option<Doc>)
    requires Inv(s) && DoEnqueue(s, t, sv, id, op, missing)
    ensures Inv(t)
  {
    assert ServerOk(s, sv);
    EnqueueServer(s, t, sv, id, op, missing);
    forall o | o in t.servers ensures ServerOk(t, o) {
      assert ServerOk(s, o);
      if o != sv {
        SparedServer(s, t, o);
      }
    }
    assert OrderOk(t);
    assert AnswersOk(t) by {
      forall x | x in t.calls ensures AnswerOk(t.order, x, t.calls[x]) {
        if x != id { assert AnswerOk(s.order, x, s.calls[x]); }
      }
    }
  }

  lemma WithoutOne(ids: seq<CallId>, n: nat)
    requires n < |ids| && NoRepeats(ids)
    ensures var rest := ids[..n] + ids[n + 1..];
            && NoRepeats(rest) && (forall i :: 0 <= i < |rest| ==> rest[i] in ids && rest[i] != ids[n])
            && (forall x :: x in ids && x != ids[n] ==> x in rest)
  {
    var rest := ids[..n] + ids[n + 1..];
    forall i | 0 <= i < |rest| ensures rest[i] in ids && rest[i] != ids[n] {
      assert rest[i] == if i < n then ids[i] else ids[i + 1];
    }
    forall i, j | 0 <= i < j < |rest| ensures rest[i] != rest[j] {
      assert rest[i] == if i < n then ids[i] else ids[i + 1];
      assert rest[j] == if j < n then ids[j] else ids[j + 1];
    }
    forall x | x in ids && x != ids[n] ensures x in rest {
      var i :| 0 <= i < |ids| && ids[i] == x;
      assert rest[if i < n then i else i - 1] == x;
    }
  }

  /** Handing the first reply over: its call leaves the queue. */
  lemma FinishHeld(s: State, t: State, sv: ServerId, k: nat)
    requires DoFinishOne(s, t, sv, k) && k == 0 && HeldOk(s.calls, sv, s.servers[sv])
    requires s.servers[sv].workers[k].todo != []
    ensures HeldOk(t.calls, sv, t.servers[sv])
    ensures forall x :: x in Held(s.servers[sv]) && x != s.servers[sv].workers[k].todo[0].id ==>
              x in Held(t.servers[sv])
  {
    var held, held' := Held(s.servers[sv]), Held(t.servers[sv]);
    var n := |s.servers[sv].line.pending|;
    assert held[n] == s.servers[sv].workers[0].todo[0].id;
    assert held' == held[..n] + held[n + 1..];
    WithoutOne(held, n);
    forall i | 0 <= i < |held'|
      ensures held'[i] in t.calls && t.calls[held'[i]].server == sv && t.calls[held'[i]].stage.Waiting?
    {
      assert held'[i] in held && t.calls[held'[i]] == s.calls[held'[i]];
    }
  }

  lemma FinishServer(s: State, t: State, sv: ServerId, k: nat)
    requires DoFinishOne(s, t, sv, k) && ServerOk(s, sv)
    requires s.servers[sv].workers[k].todo != []
    ensures ServerOk(t, sv)
    ensures forall x :: x in Held(s.servers[sv]) && x != s.servers[sv].workers[k].todo[0].id ==>
              x in Held(t.servers[sv])
  {
    FinishHeld(s, t, sv, k);
  }

  lemma FinishedAll(s: State, t: State, sv: ServerId, k: nat)
    requires DoFinishOne(s, t, sv, k) && ServerOk(s, sv)
    requires s.servers[sv].workers[k].todo == []
    ensures ServesWell(s, t, sv)
  {
    assert InHand(s.servers[sv].workers[0]) == [];
  }

  lemma FinishAnswers(s: State, t: State, sv: ServerId, k: nat)
    requires AnswersOk(s) && OrderOk(s) && DoFinishOne(s, t, sv, k) && s.servers[sv].workers[k].todo != []
    requires WorkerOk(s.order, s.servers[sv].workers[k])
    ensures AnswersOk(t) && OrderOk(t)
  {
    var first := s.servers[sv].workers[k].todo[0];
    assert Fits(s.order, first.id, first.reply);
    forall x | x in t.calls ensures AnswerOk(t.order, x, t.calls[x]) {
      assert AnswerOk(s.order, x, s.calls[x]);
    }
  }

  lemma FinishServers(s: State, t: State, sv: ServerId, k: nat)
    requires ServersOk(s) && DoFinishOne(s, t, sv, k) && s.servers[sv].workers[k].todo != []
    ensures ServersOk(t)
  {
    assert ServerOk(s, sv) && k == 0;
    FinishServer(s, t, sv, k);
    forall o | o in t.servers ensures ServerOk(t, o) {
      assert ServerOk(s, o);
      if o != sv {
        assert Held(s.servers[sv])[|s.servers[sv].line.pending|] == s.servers[sv].workers[0].todo[0].id;
        SparedServer(s, t, o);
      }
    }
  }

  lemma FinishWaiters(s: State, t: State, sv: ServerId, k: nat)
    requires WaitersOk(s) && sv in s.servers && ServerOk(s, sv) && DoFinishOne(s, t, sv, k)
    requires s.servers[sv].workers[k].todo != []
    ensures WaitersOk(t)
  {
    FinishServer(s, t, sv, k);
    forall id | id in t.calls && t.calls[id].stage.Waiting? ensures id in Held(t.servers[t.calls[id].server]) {
      assert id in Held(s.servers[t.calls[id].server]);
    }
  }

  lemma KeepFinishOne(s: State, t: State, sv: ServerId, k: nat)
    requires Inv(s) && DoFinishOne(s, t, sv, k)
    ensures Inv(t)
  {
    assert ServerOk(s, sv) && k == 0;
    if s.servers[sv].workers[k].todo == [] {
      FinishedAll(s, t, sv, k);
      assert OrderOk(t);
      KeepServing(s, t, sv);
    } else {
      assert WorkerOk(s.order, s.servers[sv].workers[k]);
      FinishAnswers(s, t, sv, k);
      FinishServers(s, t, sv, k);
      FinishWaiters(s, t, sv, k);
    }
  }

  lemma KeepInv(s: State, t: State, step: Step)
    requires Inv(s) && Next(s, t, step)
    ensures Inv(t)
  {
    match step
    case Enqueue(sv, id, op, missing) => KeepEnqueue(s, t, sv, id, op, missing);
    case TakeFirst(sv, k) => KeepTakeFirst(s, t, sv, k);
    case Read(sv, k, raises) => KeepRead(s, t, sv, k, raises);
    case Swap(sv, k, raises) => KeepSwap(s, t, sv, k, raises);
    case FinishOne(sv, k) => KeepFinishOne(s, t, sv, k);
    case Look(sv, k) => KeepLook(s, t, sv, k);
    case Spawn(sv, k) => KeepSpawn(s, t, sv, k);
    case Drain(sv, k) => KeepDrain(s, t, sv, k);
    case Return(id) => KeepReturn(s, t, id);
    case RivalWrite(change) => KeepRival(s, t, change);
  }

  lemma {:induction false} RunInv(run: seq<State>, steps: seq<Step>, i: nat)
    requires IsRun(run, steps) && i < |run|
    ensures Inv(run[i])
  {
    if i > 0 {
      RunInv(run, steps, i - 1);
      KeepInv(run[i - 1], run[i], steps[i - 1]);
    }
  }

  // ---- Linearizability ----

  /** At every moment of every run: the document is the replay of the order, and every caller that has
      returned either took effect exactly once, between its call and its return, with the very result
      its update yields at that place; or was told its update was not saved, and it has no effect. */
  lemma Linearizable(run: seq<State>, steps: seq<Step>, i: nat)
    requires IsRun(run, steps) && i < |run|
    ensures var s := run[i];
            && s.doc == Replay(s.order.start, s.order.log)
            && forall id :: id in s.calls && s.calls[id].stage.Back? ==>
                 var call := s.calls[id];
                 if call.stage.reply.NotSaved? then Unplaced(s.order, id)
                 else exists p: nat ::
                   && Placed(s.order, id, call.stage.reply, p)
                   && s.order.log[p].op == call.op
                   && call.since <= p < call.stage.at
                   && forall q :: 0 <= q < |s.order.log| && s.order.log[q].Update? && s.order.log[q].id == id ==> q == p
  {
    RunInv(run, steps, i);
    var s := run[i];
    forall id | id in s.calls && s.calls[id].stage.Back? && !s.calls[id].stage.reply.NotSaved?
      ensures exists p: nat ::
        && Placed(s.order, id, s.calls[id].stage.reply, p)
        && s.order.log[p].op == s.calls[id].op
        && s.calls[id].since <= p < s.calls[id].stage.at
        && forall q :: 0 <= q < |s.order.log| && s.order.log[q].Update? && s.order.log[q].id == id ==> q == p
    {
      assert AnswerOk(s.order, id, s.calls[id]);
      var p: nat :| Placed(s.order, id, s.calls[id].stage.reply, p);
      assert !(s.calls[id].stage.at <= p);
    }
    forall id | id in s.calls && s.calls[id].stage.Back? && s.calls[id].stage.reply.NotSaved?
      ensures Unplaced(s.order, id)
    {
      assert AnswerOk(s.order, id, s.calls[id]);
    }
  }

  // ---- Whose default document? ----

  ghost predicate IsDefault(calls: map<CallId, Call>, missing: Option<Doc>) {
    exists id :: id in calls && calls[id].missing == missing
  }

  /** Every update was applied with the default of some caller, and every active queue works with one. */
  ghost predicate DefaultsOk(s: State) {
    && (forall p :: 0 <= p < |s.order.log| && s.order.log[p].Update? ==> IsDefault(s.calls, s.order.log[p].missing))
    && (forall sv :: sv in s.servers && s.servers[sv].line.active ==> IsDefault(s.calls, s.servers[sv].missing))
  }

  lemma CallKept(s: State, t: State, step: Step, id: CallId)
    requires Next(s, t, step) && id in s.calls
    ensures id in t.calls && t.calls[id].server == s.calls[id].server && t.calls[id].missing == s.calls[id].missing
  {
  }

  lemma OrderGrows(s: State, t: State, step: Step)
    requires Next(s, t, step)
    ensures s.order.log <= t.order.log && t.servers.Keys == s.servers.Keys
  {
  }

  /** Calls stay, with their defaults; entries are new only when their server's default is one. */
  lemma DefaultsStay(s: State, t: State, step: Step)
    requires Next(s, t, step)
    ensures forall id :: id in s.calls ==> id in t.calls && t.calls[id].missing == s.calls[id].missing
    ensures s.order.log <= t.order.log && t.servers.Keys == s.servers.Keys
  {
    OrderGrows(s, t, step);
    forall id | id in s.calls ensures id in t.calls && t.calls[id].missing == s.calls[id].missing {
      CallKept(s, t, step, id);
    }
  }

  lemma WorkKeepsDefault(s: State, t: State, step: Step, sv: ServerId)
    requires sv in s.servers && ShapeOk(s.servers[sv]) && Next(s, t, step) && IsWork(step, sv)
    ensures sv in t.servers && t.servers[sv].missing == s.servers[sv].missing && s.servers[sv].line.active
  {
  }

  lemma CallBringsDefault(s: State, t: State, step: Step, sv: ServerId)
    requires sv in s.servers && Next(s, t, step) && IsCall(step, sv)
    ensures sv in t.servers && step.id in t.calls && t.calls[step.id].missing == step.missing
    ensures t.servers[sv].missing == if s.servers[sv].line.active then s.servers[sv].missing else step.missing
  {
  }

  lemma ServerDefaultStays(s: State, t: State, step: Step, sv: ServerId)
    requires ServersOk(s) && Next(s, t, step) && sv in s.servers && sv in t.servers && t.servers[sv].line.active
    ensures (s.servers[sv].line.active && t.servers[sv].missing == s.servers[sv].missing)
            || IsDefault(t.calls, t.servers[sv].missing)
  {
    if IsWork(step, sv) {
      assert ServerOk(s, sv);
      WorkKeepsDefault(s, t, step, sv);
    } else if IsCall(step, sv) {
      CallBringsDefault(s, t, step, sv);
    } else {
      OthersAddNoWork(s, t, step, sv);
    }
  }

  lemma NewEntries(s: State, t: State, step: Step, p: nat)
    requires ServersOk(s) && Next(s, t, step) && |s.order.log| <= p < |t.order.log| && t.order.log[p].Update?
    ensures (step.Read? || step.Swap?) && step.sv in s.servers && s.servers[step.sv].line.active
    ensures t.order.log[p].missing == s.servers[step.sv].missing
  {
    if step.Read? || step.Swap? {
      assert ServerOk(s, step.sv);
    }
  }

  lemma KeepDefaults(s: State, t: State, step: Step)
    requires ServersOk(s) && DefaultsOk(s) && Next(s, t, step)
    ensures DefaultsOk(t)
  {
    DefaultsStay(s, t, step);
    forall missing: Option<Doc> | IsDefault(s.calls, missing) ensures IsDefault(t.calls, missing) {
      var id :| id in s.calls && s.calls[id].missing == missing;
      assert t.calls[id].missing == missing;
    }
    forall p | 0 <= p < |t.order.log| && t.order.log[p].Update? ensures IsDefault(t.calls, t.order.log[p].missing) {
      if p < |s.order.log| {
        assert t.order.log[p] == s.order.log[p];
      } else {
        NewEntries(s, t, step, p);
      }
    }
    forall sv | sv in t.servers && t.servers[sv].line.active ensures IsDefault(t.calls, t.servers[sv].missing) {
      ServerDefaultStays(s, t, step, sv);
    }
  }

  lemma {:induction false} RunDefaults(run: seq<State>, steps: seq<Step>, i: nat)
    requires IsRun(run, steps) && i < |run|
    ensures DefaultsOk(run[i])
  {
    if i > 0 {
      RunDefaults(run, steps, i - 1);
      RunInv(run, steps, i - 1);
      assert Next(run[i - 1], run[i], steps[i - 1]);
      KeepDefaults(run[i - 1], run[i], steps[i - 1]);
    }
  }

  /** The promise itself, "exactly the result it would have had running alone": what a call did and answered at
      its place is what its own default would have given, whatever its update, exactly when the document existed
      there or its leader had the same default. */
  lemma AsAloneIff(run: seq<State>, steps: seq<Step>, i: nat, id: CallId, p: nat)
    requires IsRun(run, steps) && i < |run|
    requires id in run[i].calls && run[i].calls[id].stage.Back?
    requires Placed(run[i].order, id, run[i].calls[id].stage.reply, p)
    ensures var s, call := run[i], run[i].calls[id];
            var doc, used := DocAt(s.order, p), s.order.log[p].missing;
            && IsDefault(s.calls, used)
            && (doc.Some? || used == call.missing ==> call.stage.reply == Alone(doc, call.missing, call.op).reply)
            && ((forall op: Op :: Alone(doc, used, op) == Alone(doc, call.missing, op)) <==>
                doc.Some? || used == call.missing)
  {
    RunInv(run, steps, i);
    RunDefaults(run, steps, i);
    DefaultMattersIff(DocAt(run[i].order, p), run[i].order.log[p].missing, run[i].calls[id].missing);
  }

  /** So where all callers of a document pass the same default, everyone is answered as if alone. */
  lemma SameDefaultAlone(run: seq<State>, steps: seq<Step>, i: nat, missing: Option<Doc>)
    requires IsRun(run, steps) && i < |run|
    requires forall id :: id in run[i].calls ==> run[i].calls[id].missing == missing
    ensures forall p :: 0 <= p < |run[i].order.log| && run[i].order.log[p].Update? ==>
              run[i].order.log[p].missing == missing
  {
    RunDefaults(run, steps, i);
    forall p | 0 <= p < |run[i].order.log| && run[i].order.log[p].Update?
      ensures run[i].order.log[p].missing == missing
    {
      assert IsDefault(run[i].calls, run[i].order.log[p].missing);
    }
  }

  ghost predicate Reachable(s: State) {
    exists run, steps :: IsRun(run, steps) && run[|steps|] == s
  }

  lemma Onward(s: State, t: State, step: Step)
    requires Reachable(s) && Next(s, t, step)
    ensures Reachable(t)
  {
    var run, steps :| IsRun(run, steps) && run[|steps|] == s;
    assert IsRun(run + [t], steps + [step]);
  }

  function Echo(): Op {
    (d: Doc) => Returned(d, Dict(d))
  }

  /** The leader passes no default, its follower one, and there is no document. */
  function TwoQueued(): State {
    State(Order(None, []), None, 0,
          map[0 := Server(Line([0, 1], true), [LeadStart], None)],
          map[0 := Call(0, Echo(), None, 0, Waiting), 1 := Call(0, Echo(), Some(map[]), 0, Waiting)])
  }

  lemma TwoQueuedReachable()
    ensures Reachable(TwoQueued())
  {
    var s0 := State(Order(None, []), None, 0, map[0 := Server(Line([], false), [], None)], map[]);
    var s1 := s0.(servers := map[0 := Server(Line([0], true), [LeadStart], None)],
                  calls := map[0 := Call(0, Echo(), None, 0, Waiting)]);
    assert IsRun([s0], []);
    assert [] + [0] == [0] && [] + [LeadStart] == [LeadStart] && [0] + [1] == [0, 1];
    Onward(s0, s1, Enqueue(0, 0, Echo(), None));
    Onward(s1, TwoQueued(), Enqueue(0, 1, Echo(), Some(map[])));
  }

  /** The leader has taken both. */
  ghost function TwoTaken(): State {
    SetWorker(SetLine(TwoQueued(), 0, Line([], true)), 0, 0, Reading([0, 1], 0, true))
  }

  lemma TwoTakenReachable()
    ensures Reachable(TwoTaken())
  {
    TwoQueuedReachable();
    assert Emptied(TwoQueued().servers[0].line) == Line([], true);
    Onward(TwoQueued(), TwoTaken(), TakeFirst(0, 0));
  }

  lemma TwoLogged(ops: seq<Op>)
    requires ops == [Echo(), Echo()]
    ensures [] + Entries([0, 1], ops, None) == [Update(0, Echo(), None), Update(1, Echo(), None)]
  {
  }

  lemma PlacedSecond(order: Order)
    requires order == Order(None, [Update(0, Echo(), None), Update(1, Echo(), None)])
    ensures Placed(order, 1, Refused(KeyMissing), 1)
  {
    assert order.log[..1] == [Update(0, Echo(), None)] && order.log[..1][..0] == [];
    assert Replay(None, order.log[..1][..0]) == None;
  }

  /** The follower is refused although running alone it would have created the document. */
  lemma FollowerRefused()
    ensures exists s: State ::
              && Reachable(s) && s.doc.None? && 1 in s.calls && Placed(s.order, 1, Refused(KeyMissing), 1)
              && Alone(s.doc, s.calls[1].missing, s.calls[1].op).reply.Answer?
  {
    var s := TwoTaken();
    TwoTakenReachable();
    var ops := OpsIn(s.calls, [0, 1]);
    assert ops == [Echo(), Echo()];
    AllRefusedWhenMissing(ops);
    TwoLogged(ops);
    var t := SetWorker(s, 0, 0, Finishing(Results([0, 1], Replies(None, None, ops)), true))
             .(order := Extend(s.order, Entries([0, 1], ops, None)));
    Onward(s, t, Read(0, 0, false));
    PlacedSecond(t.order);
    assert Alone(None, Some(map[]), Echo()).reply.Answer?;
  }

  // ---- Time ----

  /** What time keeps: the order only grows, a reply once given stays, later calls start later. */
  ghost predicate Follows(s: State, t: State) {
    && s.order.log <= t.order.log
    && (forall id :: id in s.calls ==> id in t.calls && t.calls[id].since == s.calls[id].since)
    && (forall id :: id in s.calls && !s.calls[id].stage.Waiting? ==>
          !t.calls[id].stage.Waiting? && t.calls[id].stage.reply == s.calls[id].stage.reply)
    && (forall id :: id in s.calls && s.calls[id].stage.Back? ==> t.calls[id] == s.calls[id])
    && (forall id :: id in t.calls && id !in s.calls ==> t.calls[id].since >= |s.order.log|)
  }

  lemma SameCallsFollow(s: State, t: State)
    requires t.calls == s.calls && s.order.log <= t.order.log
    ensures Follows(s, t)
  {
  }

  lemma FinishFollows(s: State, t: State, sv: ServerId, k: nat)
    requires DoFinishOne(s, t, sv, k) && ServerOk(s, sv)
    ensures Follows(s, t)
  {
    var server := s.servers[sv];
    assert k == 0;
    if server.workers[0].todo != [] {
      assert Held(server)[|server.line.pending|] == server.workers[0].todo[0].id;
    }
  }

  lemma StepFollows(s: State, t: State, step: Step)
    requires ServersOk(s) && Next(s, t, step)
    ensures Follows(s, t)
  {
    match step
    case Enqueue(sv, id, op, missing) =>
    case Return(id) =>
    case FinishOne(sv, k) => assert ServerOk(s, sv); FinishFollows(s, t, sv, k);
    case _ => SameCallsFollow(s, t);
  }

  lemma FollowsTransitive(r: State, s: State, t: State)
    requires Follows(r, s) && Follows(s, t)
    ensures Follows(r, t)
  {
  }

  lemma RunStepFollows(run: seq<State>, steps: seq<Step>, i: nat)
    requires IsRun(run, steps) && i < |steps|
    ensures Follows(run[i], run[i + 1])
  {
    RunInv(run, steps, i);
    StepFollows(run[i], run[i + 1], steps[i]);
  }

  /** Nothing is ever answered twice or differently, and nothing that took effect is ever undone. */
  lemma {:induction false} RunFollows(run: seq<State>, steps: seq<Step>, i: nat, j: nat)
    requires IsRun(run, steps) && i <= j < |run|
    ensures Follows(run[i], run[j])
  {
    if i == j {
      SameCallsFollow(run[i], run[j]);
    } else {
      RunFollows(run, steps, i, j - 1);
      RunStepFollows(run, steps, j - 1);
      FollowsTransitive(run[i], run[j - 1], run[j]);
    }
  }

  /** The order respects real time: a call that returned before another was made comes first. */
  lemma RealTimeOrder(run: seq<State>, steps: seq<Step>, i: nat, j: nat, a: CallId, b: CallId, p: nat, q: nat)
    requires IsRun(run, steps) && i <= j < |run|
    requires a in run[i].calls && run[i].calls[a].stage.Back? && b !in run[i].calls
    requires p < |run[j].order.log| && run[j].order.log[p].Update? && run[j].order.log[p].id == a
    requires q < |run[j].order.log| && run[j].order.log[q].Update? && run[j].order.log[q].id == b
    ensures p < q
  {
    RunFollows(run, steps, i, j);
    RunInv(run, steps, i);
    RunInv(run, steps, j);
    assert AnswerOk(run[i].order, a, run[i].calls[a]);
    assert AnswerOk(run[j].order, a, run[j].calls[a]);
    assert !(run[j].calls[a].stage.at <= p);
  }

  // ---- The queue strands nobody ----

  lemma {:induction false} CountNoRepeats(ids: seq<CallId>, id: CallId)
    requires NoRepeats(ids)
    ensures multiset(ids)[id] == if id in ids then 1 else 0
  {
    if ids != [] {
      var n := |ids| - 1;
      assert ids == ids[..n] + [ids[n]];
      CountNoRepeats(ids[..n], id);
      if ids[n] == id {
        assert id !in ids[..n];
      }
    }
  }

  /** At every moment: an active queue has exactly one thread, an idle one has none and is empty, and a
      call is held exactly once, by its own server's queue, from its start until it is answered. */
  lemma QueueIntegrity(run: seq<State>, steps: seq<Step>, i: nat, sv: ServerId)
    requires IsRun(run, steps) && i < |run| && sv in run[i].servers
    ensures var server := run[i].servers[sv];
            && |server.workers| == (if server.line.active then 1 else 0)
            && (!server.line.active ==> server.line.pending == [])
            && forall id :: multiset(Held(server))[id] ==
                 if id in run[i].calls && run[i].calls[id].server == sv && run[i].calls[id].stage.Waiting? then 1 else 0
  {
    RunInv(run, steps, i);
    var s := run[i];
    assert ServerOk(s, sv);
    var held := Held(s.servers[sv]);
    forall id
      ensures multiset(held)[id] ==
        if id in s.calls && s.calls[id].server == sv && s.calls[id].stage.Waiting? then 1 else 0
    {
      CountNoRepeats(held, id);
    }
  }

  predicate Raises(step: Step) {
    (step.Read? || step.Swap?) && step.raises
  }

  ghost predicate CanServe(s: State, sv: ServerId) {
    exists step, t :: IsWork(step, sv) && !Raises(step) && Next(s, t, step)
  }

  lemma CanRead(s: State, sv: ServerId)
    requires WorkerAt(s, sv, 0) && s.servers[sv].workers[0].Reading? && Known(s.calls, s.servers[sv].workers[0].batch)
    ensures CanServe(s, sv)
  {
    var w := s.servers[sv].workers[0];
    var ops := OpsIn(s.calls, w.batch);
    var t := if Changes(s.doc, s.servers[sv].missing, ops)
             then SetWorker(s, sv, 0, Swapping(w.batch, w.attempt, w.lead, s.doc, s.version))
             else SetWorker(s, sv, 0, Finishing(Results(w.batch, Replies(s.doc, s.servers[sv].missing, ops)), w.lead))
                  .(order := Extend(s.order, Entries(w.batch, ops, s.servers[sv].missing)));
    assert IsWork(Read(sv, 0, false), sv) && Next(s, t, Read(sv, 0, false));
  }

  lemma CanSwap(s: State, sv: ServerId)
    requires WorkerAt(s, sv, 0) && s.servers[sv].workers[0].Swapping? && Known(s.calls, s.servers[sv].workers[0].batch)
    ensures CanServe(s, sv)
  {
    var w := s.servers[sv].workers[0];
    var ops := OpsIn(s.calls, w.batch);
    var t := if if w.seen.None? then s.doc.None? else s.doc.Some? && s.version == w.version then
               SetWorker(s, sv, 0, Finishing(Results(w.batch, Replies(w.seen, s.servers[sv].missing, ops)), w.lead))
               .(doc := Serial(w.seen, s.servers[sv].missing, ops), version := s.version + 1,
                 order := Extend(s.order, Entries(w.batch, ops, s.servers[sv].missing)))
             else if w.attempt + 1 < MAX_ATTEMPTS then SetWorker(s, sv, 0, Reading(w.batch, w.attempt + 1, w.lead))
             else SetWorker(s, sv, 0, Finishing(AllNotSaved(w.batch, Contention), w.lead));
    assert IsWork(Swap(sv, 0, false), sv) && Next(s, t, Swap(sv, 0, false));
  }

  lemma CanFinish(s: State, sv: ServerId)
    requires WorkerAt(s, sv, 0) && s.servers[sv].workers[0].Finishing?
    requires Known(s.calls, InHand(s.servers[sv].workers[0]))
    ensures CanServe(s, sv)
  {
    var w := s.servers[sv].workers[0];
    if w.todo != [] {
      assert InHand(w)[0] == w.todo[0].id;
    }
    var t := if w.todo == [] then SetWorker(s, sv, 0, if w.lead then LeadLook else DrainTurn)
             else SetWorker(s, sv, 0, w.(todo := w.todo[1..]))
                  .(calls := s.calls[w.todo[0].id := s.calls[w.todo[0].id].(stage := Done(w.todo[0].reply))]);
    assert IsWork(FinishOne(sv, 0), sv) && Next(s, t, FinishOne(sv, 0));
  }

  lemma CanMoveOn(s: State, sv: ServerId)
    requires WorkerAt(s, sv, 0)
    requires var w := s.servers[sv].workers[0]; w.LeadStart? || w.LeadLook? || w.LeadSpawn? || w.DrainTurn?
    ensures CanServe(s, sv)
  {
    var w, line := s.servers[sv].workers[0], s.servers[sv].line;
    var idle := DropWorker(SetLine(s, sv, LookedAgain(line)), sv, 0);
    match w
    case LeadStart =>
      var t := SetWorker(SetLine(s, sv, Emptied(line)), sv, 0, Reading(line.pending, 0, true));
      assert IsWork(TakeFirst(sv, 0), sv) && Next(s, t, TakeFirst(sv, 0));
    case LeadLook =>
      var t := if line.pending != [] then SetWorker(s, sv, 0, LeadSpawn) else idle;
      assert IsWork(Look(sv, 0), sv) && Next(s, t, Look(sv, 0));
    case LeadSpawn =>
      assert IsWork(Spawn(sv, 0), sv) && Next(s, SetWorker(s, sv, 0, DrainTurn), Spawn(sv, 0));
    case DrainTurn =>
      var t := if line.pending == [] then idle
               else SetWorker(SetLine(s, sv, Emptied(line)), sv, 0, Reading(line.pending, 0, false));
      assert IsWork(Drain(sv, 0), sv) && Next(s, t, Drain(sv, 0));
  }

  /** Whenever a call waits, the thread that serves its queue exists and can take a step. */
  lemma SomeoneWorks(run: seq<State>, steps: seq<Step>, i: nat, id: CallId)
    requires IsRun(run, steps) && i < |run|
    requires id in run[i].calls && run[i].calls[id].stage.Waiting?
    ensures CanServe(run[i], run[i].calls[id].server)
  {
    RunInv(run, steps, i);
    var s, sv := run[i], run[i].calls[id].server;
    assert ServerOk(s, sv) && id in Held(s.servers[sv]);
    var w := s.servers[sv].workers[0];
    assert Known(s.calls, InHand(w)) by {
      HeldSplits(s.servers[sv]);
    }
    match w
    case Reading(_, _, _) => CanRead(s, sv);
    case Swapping(_, _, _, _, _) => CanSwap(s, sv);
    case Finishing(_, _) => CanFinish(s, sv);
    case _ => CanMoveOn(s, sv);
  }

  // ---- Draining terminates: the work is bounded by the number of calls ----

  const WORK_PER_CALL: nat := 2 * MAX_ATTEMPTS + 6

  function StepsOfAttempts(attempt: nat): nat {
    if attempt < MAX_ATTEMPTS then 2 * (MAX_ATTEMPTS - attempt) else 0
  }

  /** Steps a worker may still take before it looks at the line again. */
  function Cost(w: Worker): nat {
    match w
    case LeadStart => 1
    case Reading(batch, attempt, _) => |batch| + 4 + StepsOfAttempts(attempt)
    case Swapping(batch, attempt, _, _, _) => |batch| + 3 + StepsOfAttempts(attempt)
    case Finishing(todo, _) => |todo| + 4
    case LeadLook => 3
    case LeadSpawn => 2
    case DrainTurn => 1
  }

  function WorkLeft(server: Server): nat {
    WORK_PER_CALL * |server.line.pending| + (if server.workers == [] then 0 else Cost(server.workers[0]))
  }

  lemma WorkShrinks(s: State, t: State, step: Step, sv: ServerId)
    requires sv in s.servers && ShapeOk(s.servers[sv]) && Next(s, t, step) && IsWork(step, sv)
    ensures sv in t.servers && WorkLeft(t.servers[sv]) < WorkLeft(s.servers[sv])
  {
    var server, server' := s.servers[sv], t.servers[sv];
    assert step.k == 0 && |server.workers| == 1;
    assert server'.workers == [] || |server'.workers| == 1;
    match step
    case Drain(_, _) =>
    case TakeFirst(_, _) =>
    case Read(_, _, _) =>
    case Swap(_, _, _) =>
    case _ =>
  }

  lemma CallAddsWork(s: State, t: State, step: Step, sv: ServerId)
    requires sv in s.servers && ShapeOk(s.servers[sv]) && Next(s, t, step) && IsCall(step, sv)
    ensures sv in t.servers && WorkLeft(t.servers[sv]) <= WorkLeft(s.servers[sv]) + WORK_PER_CALL + 1
  {
    assert |t.servers[sv].line.pending| == |s.servers[sv].line.pending| + 1;
  }

  lemma OthersAddNoWork(s: State, t: State, step: Step, sv: ServerId)
    requires sv in s.servers && Next(s, t, step) && !IsWork(step, sv) && !IsCall(step, sv)
    ensures sv in t.servers && t.servers[sv] == s.servers[sv]
  {
  }

  function CountWork(steps: seq<Step>, sv: ServerId): nat {
    if steps == [] then 0
    else CountWork(steps[..|steps| - 1], sv) + (if IsWork(steps[|steps| - 1], sv) then 1 else 0)
  }

  function CountCalls(steps: seq<Step>, sv: ServerId): nat {
    if steps == [] then 0
    else CountCalls(steps[..|steps| - 1], sv) + (if IsCall(steps[|steps| - 1], sv) then 1 else 0)
  }

  /** One step uses up work, or brings in a call with its allowance, or leaves the queue alone. */
  lemma StepWithinAllowance(s: State, t: State, step: Step, sv: ServerId)
    requires sv in s.servers && ServersOk(s) && Next(s, t, step)
    ensures sv in t.servers
    ensures (if IsWork(step, sv) then 1 else 0) + WorkLeft(t.servers[sv]) <=
            WorkLeft(s.servers[sv]) + (if IsCall(step, sv) then WORK_PER_CALL + 1 else 0)
  {
    assert ServerOk(s, sv);
    if IsWork(step, sv) {
      WorkShrinks(s, t, step, sv);
    } else if IsCall(step, sv) {
      CallAddsWork(s, t, step, sv);
    } else {
      OthersAddNoWork(s, t, step, sv);
    }
  }

  function WorkOf(step: Step, sv: ServerId): nat {
    if IsWork(step, sv) then 1 else 0
  }

  function CallOf(step: Step, sv: ServerId): nat {
    if IsCall(step, sv) then 1 else 0
  }

  ghost predicate WithinAllowance(run: seq<State>, steps: seq<Step>, sv: ServerId) {
    && |run| == |steps| + 1 && sv in run[0].servers && WorkLeft(run[0].servers[sv]) == 0
    && forall m {:trigger steps[m]} :: 0 <= m < |steps| && sv in run[m].servers ==>
         && sv in run[m + 1].servers
         && WorkOf(steps[m], sv) + WorkLeft(run[m + 1].servers[sv]) <=
            WorkLeft(run[m].servers[sv]) + (WORK_PER_CALL + 1) * CallOf(steps[m], sv)
  }

  lemma RunWithinAllowance(run: seq<State>, steps: seq<Step>, sv: ServerId)
    requires IsRun(run, steps) && sv in run[0].servers
    ensures WithinAllowance(run, steps, sv)
  {
    forall m | 0 <= m < |steps| && sv in run[m].servers
      ensures sv in run[m + 1].servers
      ensures WorkOf(steps[m], sv) + WorkLeft(run[m + 1].servers[sv]) <=
              WorkLeft(run[m].servers[sv]) + (WORK_PER_CALL + 1) * CallOf(steps[m], sv)
    {
      RunInv(run, steps, m);
      StepWithinAllowance(run[m], run[m + 1], steps[m], sv);
    }
  }

  lemma CountOneMore(steps: seq<Step>, i: nat, sv: ServerId)
    requires 0 < i <= |steps|
    ensures CountWork(steps[..i], sv) == CountWork(steps[..i - 1], sv) + WorkOf(steps[i - 1], sv)
    ensures CountCalls(steps[..i], sv) == CountCalls(steps[..i - 1], sv) + CallOf(steps[i - 1], sv)
  {
    assert steps[..i][..i - 1] == steps[..i - 1] && steps[..i][i - 1] == steps[i - 1];
  }

  /** The allowance after the first i steps. */
  lemma {:induction false} WorkAfter(run: seq<State>, steps: seq<Step>, i: nat, sv: ServerId)
    requires WithinAllowance(run, steps, sv) && i <= |steps|
    ensures sv in run[i].servers
    ensures CountWork(steps[..i], sv) + WorkLeft(run[i].servers[sv]) <= (WORK_PER_CALL + 1) * CountCalls(steps[..i], sv)
  {
    if i > 0 {
      WorkAfter(run, steps, i - 1, sv);
      CountOneMore(steps, i, sv);
    }
  }

  /** However the threads interleave and whatever rivals do, the threads serving one queue take at most
      67 steps per call made on it, and what is still to do is part of that allowance. */
  lemma WorkIsBounded(run: seq<State>, steps: seq<Step>, sv: ServerId)
    requires IsRun(run, steps) && sv in run[0].servers
    ensures sv in run[|steps|].servers
    ensures CountWork(steps, sv) + WorkLeft(run[|steps|].servers[sv]) <= 67 * CountCalls(steps, sv)
  {
    RunWithinAllowance(run, steps, sv);
    WorkAfter(run, steps, |steps|, sv);
    assert steps[..|steps|] == steps;
  }
}
