/** Group commit, one thread at a time: what a caller is promised, how a batch is applied and saved,
    and the critical sections of the queue. GroupCommit.dfy lets the threads interleave. */
module Batching {
  import opened Shared
  import opened Text
  import opened Values

  const MAX_ATTEMPTS: nat := 30

  datatype Exc = KeyMissing | QuotaExceeded(requested: int, used: int, cap: int) | OpFailed(why: string)

  /** A raising update may have scribbled on its private copy first; `scratch` is that copy. */
  datatype OpResult = Returned(doc: Doc, value: Value) | Raised(scratch: Doc, exc: Exc)

  type Op = Doc -> OpResult

  datatype Trouble = Contention | StoreFailure

  /** What a caller of `update_document` gets; NotSaved is an exception that is not the update's own. */
  datatype Reply = Answer(value: Value) | Refused(exc: Exc) | NotSaved(why: Trouble)

  datatype Outcome = Outcome(doc: Option<Doc>, reply: Reply)

  // ---- The promise ----

  /** The result of one update running alone on the document. */
  function Alone(doc: Option<Doc>, missing: Option<Doc>, op: Op): Outcome {
    if doc.None? && missing.None? then Outcome(doc, Refused(KeyMissing))
    else
      match op(if doc.Some? then doc.value else missing.value)
      case Returned(d, v) => Outcome(Some(d), Answer(v))
      case Raised(_, e) => Outcome(doc, Refused(e))
  }

  /** The document after the updates ran alone, one after the other. */
  function Serial(doc: Option<Doc>, missing: Option<Doc>, ops: seq<Op>): Option<Doc> {
    if ops == [] then doc
    else Alone(Serial(doc, missing, ops[..|ops| - 1]), missing, ops[|ops| - 1]).doc
  }

  /** The reply of the i-th update when its predecessors ran before it. */
  function ReplyAt(doc: Option<Doc>, missing: Option<Doc>, ops: seq<Op>, i: nat): Reply
    requires i < |ops|
  {
    Alone(Serial(doc, missing, ops[..i]), missing, ops[i]).reply
  }

  function Replies(doc: Option<Doc>, missing: Option<Doc>, ops: seq<Op>): seq<Reply> {
    seq(|ops|, i requires 0 <= i < |ops| => ReplyAt(doc, missing, ops, i))
  }

  /** Some update of the batch returned, so there is something to save. */
  predicate Changes(doc: Option<Doc>, missing: Option<Doc>, ops: seq<Op>) {
    exists i :: 0 <= i < |ops| && ReplyAt(doc, missing, ops, i).Answer?
  }

  predicate SomeAnswer(replies: seq<Reply>) {
    exists i :: 0 <= i < |replies| && replies[i].Answer?
  }

  lemma ChangesIsAnswer(doc: Option<Doc>, missing: Option<Doc>, ops: seq<Op>)
    ensures Changes(doc, missing, ops) <==> SomeAnswer(Replies(doc, missing, ops))
  {
    var replies := Replies(doc, missing, ops);
    assert forall i :: 0 <= i < |ops| ==> replies[i] == ReplyAt(doc, missing, ops, i);
  }

  lemma {:induction false} UnchangedWhenAllRefused(doc: Option<Doc>, missing: Option<Doc>, ops: seq<Op>)
    requires !Changes(doc, missing, ops)
    ensures Serial(doc, missing, ops) == doc
  {
    if ops != [] {
      var front := ops[..|ops| - 1];
      forall i | 0 <= i < |front| ensures !ReplyAt(doc, missing, front, i).Answer? {
        assert front[..i] == ops[..i];
        assert !ReplyAt(doc, missing, ops, i).Answer?;
      }
      UnchangedWhenAllRefused(doc, missing, front);
      assert !ReplyAt(doc, missing, ops, |ops| - 1).Answer?;
    }
  }

  /** A batch is processed with the default document of the caller that leads it. That is as good as a
      follower's own default for every update exactly when the document exists or the two agree. */
  lemma DefaultMattersIff(doc: Option<Doc>, leaders: Option<Doc>, own: Option<Doc>)
    ensures (forall op: Op :: Alone(doc, leaders, op) == Alone(doc, own, op)) <==> doc.Some? || leaders == own
  {
    if doc.None? && leaders != own {
      var echo: Op := (d: Doc) => Returned(d, Dict(d));
      assert Alone(doc, leaders, echo) != Alone(doc, own, echo);
    }
  }

  // ---- Applying a batch to a private copy ----

  method ApplyBatch(data: Option<Doc>, missing: Option<Doc>, ops: seq<Op>)
    returns (working: Doc, outcomes: seq<Reply>, applied: bool)
    requires data.Some? || missing.Some?
    ensures outcomes == Replies(data, missing, ops)
    ensures applied == Changes(data, missing, ops)
    ensures applied ==> Serial(data, missing, ops) == Some(working)
    ensures !applied ==> Serial(data, missing, ops) == data
  {
    working := if data.Some? then data.value else missing.value;
    outcomes, applied := [], false;
    for i := 0 to |ops|
      invariant |outcomes| == i && forall j :: 0 <= j < i ==> outcomes[j] == ReplyAt(data, missing, ops, j)
      invariant applied <==> exists j :: 0 <= j < i && outcomes[j].Answer?
      invariant applied ==> Serial(data, missing, ops[..i]) == Some(working)
      invariant !applied ==> Serial(data, missing, ops[..i]) == data
      invariant !applied ==> working == if data.Some? then data.value else missing.value
    {
      assert ops[..i + 1][..i] == ops[..i];
      var trial := working;
      match ops[i](trial) {
        case Raised(_, exc) =>
          outcomes := outcomes + [Refused(exc)];
        case Returned(d, value) =>
          working, applied := d, true;
          outcomes := outcomes + [Answer(value)];
          assert outcomes[i].Answer?;
      }
    }
    assert ops[..|ops|] == ops;
  }

  // ---- Saving a batch while other writers are at work ----

  /** At `at` the document held the content the whole batch was applied to, and what the batch made
      of it came next. */
  ghost predicate SavedAt(history: seq<Option<Doc>>, at: nat, missing: Option<Doc>, ops: seq<Op>, replies: seq<Reply>) {
    && at < |history|
    && replies == Replies(history[at], missing, ops)
    && (if Changes(history[at], missing, ops)
        then at + 1 < |history| && history[at + 1] == Serial(history[at], missing, ops)
        else Serial(history[at], missing, ops) == history[at])
  }

  datatype Tried = Saved(replies: seq<Reply>) | LostRace | StoreRaised

  /** Which store calls of a turn raise, if they are made: without effect. */
  datatype Faults = Faults(read: bool, swap: bool)

  const SOUND := Faults(false, false)

  predicate Faulty(faults: seq<Faults>) {
    exists i :: 0 <= i < |faults| && faults[i] != SOUND
  }

  /** One turn of the save loop: read, apply, swap. */
  method TryToSave(store: SharedCell<Doc>, missing: Option<Doc>, ops: seq<Op>, f: Faults)
    returns (tried: Tried, ghost at: nat)
    requires store.Valid()
    modifies store
    ensures store.Valid() && old(store.history) <= store.history
    ensures tried.Saved? ==> old(|store.history|) <= at + 1 && SavedAt(store.history, at, missing, ops, tried.replies)
    ensures tried.LostRace? ==> |store.history| > old(|store.history|)
    ensures (f.read ==> tried.StoreRaised?) && (tried.StoreRaised? ==> f.read || f.swap)
    ensures store.saves == old(store.saves) + (if tried.Saved? && SomeAnswer(tried.replies) then 1 else 0)
  {
    at := |store.history| - 1;
    if f.read {
      return StoreRaised, at;
    }
    var data, version := store.GetVersioned();
    if data.None? && missing.None? {
      AllRefusedWhenMissing(ops);
      return Saved(seq(|ops|, i => Refused(KeyMissing))), at;
    }
    var working, outcomes, applied := ApplyBatch(data, missing, ops);
    ChangesIsAnswer(data, missing, ops);
    if !applied {
      return Saved(outcomes), at;
    }
    store.OthersRun();
    if f.swap {
      return StoreRaised, at;
    }
    at := |store.history| - 1;
    ghost var before := store.history;
    var ok := store.SetIfVersion(working, if data.Some? then Some(version) else None);
    if ok {
      assert store.history[at] == before[at] == data;
      tried := Saved(outcomes);
    } else {
      tried := LostRace;
    }
  }

  datatype Batched = Answered(replies: seq<Reply>) | Failed(why: Trouble)

  /** The save loop; `faults` says what raises in its turns, the first first. */
  method SaveBatch(store: SharedCell<Doc>, missing: Option<Doc>, ops: seq<Op>, faults: seq<Faults>)
    returns (b: Batched, ghost at: nat)
    requires store.Valid()
    modifies store
    ensures store.Valid() && old(store.history) <= store.history
    ensures b.Answered? ==> old(|store.history|) <= at + 1 && SavedAt(store.history, at, missing, ops, b.replies)
    ensures b == Failed(StoreFailure) ==> Faulty(faults)
    ensures b == Failed(Contention) ==> |store.history| >= old(|store.history|) + 30
    ensures store.saves == old(store.saves) + (if b.Answered? && SomeAnswer(b.replies) then 1 else 0)
  {
    for attempt := 0 to MAX_ATTEMPTS
      invariant store.Valid() && old(store.history) <= store.history && store.saves == old(store.saves)
      invariant |store.history| >= old(|store.history|) + attempt
    {
      store.OthersRun();
      var tried;
      var f := if attempt < |faults| then faults[attempt] else SOUND;
      tried, at := TryToSave(store, missing, ops, f);
      match tried {
        case Saved(replies) => return Answered(replies), at;
        case StoreRaised => return Failed(StoreFailure), at;
        case LostRace =>
      }
    }
    return Failed(Contention), 0;
  }

  lemma {:induction false} MissingStaysMissing(ops: seq<Op>)
    ensures Serial(None, None, ops) == None
  {
    if ops != [] {
      MissingStaysMissing(ops[..|ops| - 1]);
    }
  }

  lemma AllRefusedWhenMissing(ops: seq<Op>)
    ensures Replies(None, None, ops) == seq(|ops|, i => Refused(KeyMissing))
    ensures !Changes(None, None, ops) && Serial(None, None, ops) == None
  {
    forall i | 0 <= i < |ops| ensures ReplyAt(None, None, ops, i) == Refused(KeyMissing) {
      MissingStaysMissing(ops[..i]);
    }
    MissingStaysMissing(ops);
  }

  // ---- Finishing every caller of a batch ----

  class Item {
    const op: Op
    var reply: Option<Reply>

    constructor (op: Op)
      ensures this.op == op && reply == None
    {
      this.op := op;
      reply := None;
    }

    method Finish(r: Reply)
      modifies this
      ensures reply == Some(r)
    {
      reply := Some(r);
    }
  }

  function RepliesOf(batch: seq<Item>): seq<Reply>
    requires forall i :: 0 <= i < |batch| ==> batch[i].reply.Some?
    reads batch
  {
    seq(|batch|, i requires 0 <= i < |batch| && batch[i].reply.Some? reads batch => batch[i].reply.value)
  }

  function OpsOf(batch: seq<Item>): seq<Op> {
    seq(|batch|, i requires 0 <= i < |batch| => batch[i].op)
  }

  ghost predicate AllFailed(batch: seq<Item>, why: Trouble)
    reads batch
  {
    forall i :: 0 <= i < |batch| ==> batch[i].reply == Some(NotSaved(why))
  }

  /** Finishes every item, whatever happens: with its own reply, or all with what the save loop raised. */
  method Process(store: SharedCell<Doc>, batch: seq<Item>, missing: Option<Doc>, faults: seq<Faults>)
    returns (ghost at: nat)
    requires store.Valid()
    requires forall i, j :: 0 <= i < j < |batch| ==> batch[i] != batch[j]
    modifies store, batch
    ensures store.Valid() && old(store.history) <= store.history
    ensures forall i :: 0 <= i < |batch| ==> batch[i].reply.Some?
    ensures || (|store.history| >= old(|store.history|) + 30 && AllFailed(batch, Contention))
            || (Faulty(faults) && AllFailed(batch, StoreFailure))
            || (old(|store.history|) <= at + 1 && SavedAt(store.history, at, missing, OpsOf(batch), RepliesOf(batch)))
    ensures AllFailed(batch, Contention) || AllFailed(batch, StoreFailure) || batch == [] ||
            store.saves == old(store.saves) + (if SomeAnswer(RepliesOf(batch)) then 1 else 0)
  {
    var b;
    b, at := SaveBatch(store, missing, OpsOf(batch), faults);
    ghost var history, saves := store.history, store.saves;
    for k := 0 to |batch|
      invariant store.Valid() && store.history == history && store.saves == saves
      invariant forall i :: 0 <= i < k ==>
        batch[i].reply == Some(if b.Answered? then b.replies[i] else NotSaved(b.why))
    {
      batch[k].Finish(if b.Answered? then b.replies[k] else NotSaved(b.why));
    }
    match b {
      case Answered(replies) =>
        assert SavedAt(history, at, missing, OpsOf(batch), replies);
        assert RepliesOf(batch) == replies;
      case Failed(why) =>
        assert AllFailed(batch, why);
        assert why == Contention || why == StoreFailure;
    }
  }

  // ---- The queue's critical sections, as functions of the queue and as methods under its lock ----

  datatype Line<T> = Line(pending: seq<T>, active: bool)

  function Joined<T>(l: Line<T>, x: T): Line<T> {
    Line(l.pending + [x], true)
  }

  function Emptied<T>(l: Line<T>): Line<T> {
    l.(pending := [])
  }

  function LookedAgain<T>(l: Line<T>): Line<T> {
    l.(active := l.active && l.pending != [])
  }

  class Queue {
    var pending: seq<Item>
    var active: bool

    ghost function State(): Line<Item>
      reads this
    {
      Line(pending, active)
    }

    constructor ()
      ensures State() == Line([], false)
    {
      pending, active := [], false;
    }

    /** A caller queues its item and learns whether it has to lead. */
    method Join(item: Item) returns (lead: bool)
      modifies this
      ensures State() == Joined(old(State()), item)
      ensures pending == old(pending) + [item] && active && lead == !old(active)
    {
      pending := pending + [item];
      lead := !active;
      if lead {
        active := true;
      }
    }

    method TakeBatch() returns (batch: seq<Item>)
      modifies this
      ensures State() == Emptied(old(State()))
      ensures batch == old(pending) && pending == [] && active == old(active)
    {
      batch, pending := pending, [];
    }

    /** The leader has answered its batch: does anyone wait? If not, the queue goes idle. */
    method LeaderLooksAgain() returns (more: bool)
      modifies this
      ensures State() == LookedAgain(old(State()))
      ensures more == (old(pending) != []) && pending == old(pending) && active == (old(active) && more)
    {
      more := pending != [];
      if !more {
        active := false;
      }
    }

    /** One turn of the drain loop: go idle, or take everyone who waits. */
    method DrainTurn() returns (batch: Option<seq<Item>>)
      modifies this
      ensures State() == if old(pending) == [] then LookedAgain(old(State())) else Emptied(old(State()))
      ensures batch == (if old(pending) == [] then None else Some(old(pending))) && pending == []
      ensures active == (old(active) && batch.Some?)
    {
      if pending == [] {
        active := false;
        return None;
      }
      batch := Some(pending);
      pending := [];
    }
  }
}
