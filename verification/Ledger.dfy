/** The quota ledger of one partner: reservations, jobs, settlements, refunds and licence changes, under
    any interleaving of request threads, workers, reconcilers and servers.

    A change of the partner's counter is one atomic step (`CommitIsCounterStep` says why it may be). A job's
    settled flag is flipped by a read and a later compare-and-swap. A thread that dies just stops. */
module Ledger {
  import opened Quota
  import GC = GroupCommit

  /** A thread inside `accept`, after the reservation. */
  datatype Accept =
    | Holding(seats: nat)                 // reserved, no job yet
    | Dispatching(seats: nat, job: nat)   // the job holds the reservation now
    | RollingBack(seats: nat)             // the except branch: about to give the seats back
    | Undoing(seats: nat)                 // the same after the job was stored: the job holds the seats
    | Leaked(seats: nat)                  // the thread died, or giving back raised
    | Over

  /** `charged` is what the settling call charged. */
  datatype Job = Job(reserved: nat, settled: bool, charged: nat, version: nat)

  /** A thread inside `settle`. */
  datatype Settler =
    | AboutToRead(job: nat, charge: nat)
    | Saw(job: nat, charge: nat, settled: bool, version: nat)
    | Owes(job: nat, refund: nat)         // mark_settled returned the job: the refund is still to come
    | Refunded(job: nat)
    | RefundLost(job: nat, refund: nat)   // the refund raised, which is only logged
    | NotMine                             // somebody else had settled it, or contention

  /** A thread inside `_change_licences`. */
  datatype Change =
    | Raising(seats: nat)                 // reserved, Google not asked yet
    | GivingBack(seats: nat)              // Google refused an increase
    | Releasing(seats: nat)               // Google reduced; the counter is not lowered yet
    | Stuck(seats: nat)                   // the thread died, or giving back raised
    | Closed

  /** `booked` is the net effect of licence changes Google confirmed; `doubled` sums what was
      given back although a stored job holds it; `clamped` sums what `max(0, ...)` cut off. */
  datatype State = State(
    used: int, cap: int,
    accepts: seq<Accept>, jobs: seq<Job>, settlers: seq<Settler>, changes: seq<Change>,
    booked: int, doubled: int, clamped: int)

  datatype AcceptMove =
    | Reserve(seats: nat)
    | CutToPlan(k: nat, cap: nat)
    | CreateJob(k: nat)
    | DispatchOk(k: nat)
    | DispatchRaises(k: nat)
    | AcceptRaises(k: nat)
    | GiveBack(k: nat)
    | AcceptDies(k: nat)

  datatype SettleMove =
    | TouchJob(j: nat)
    | Settle(j: nat, charge: nat)
    | ReadJob(k: nat)
    | SwapJob(k: nat)
    | PayRefund(k: nat)
    | SettlerFails(k: nat)

  datatype ChangeMove =
    | RaiseLicences(seats: nat)
    | GoogleRaised(k: nat)
    | GoogleRefused(k: nat)
    | GoogleReduced(seats: nat)
    | Release(k: nat)
    | ChangeDies(k: nat)
    | SetCap(cap: nat)

  datatype Step = InAccept(a: AcceptMove) | InSettle(w: SettleMove) | InChange(c: ChangeMove)

  // ---- Steps ----

  /** increment_licences_used(-seats) */
  function Lower(s: State, seats: nat): State {
    s.(used := Max(0, s.used - seats), clamped := s.clamped + Max(0, seats - s.used))
  }

  /** adjust_licences_used(seats, enforce_cap=True) that is not refused */
  ghost predicate Raise(s: State, t: State, seats: nat) {
    Adjust(s.used, s.cap, seats, true) == NowUsed(t.used)
  }

  ghost predicate AcceptStep(s: State, t: State, move: AcceptMove) {
    match move
    case Reserve(seats) =>
      seats > 0 && Raise(s, t, seats) && t == s.(used := t.used, accepts := s.accepts + [Holding(seats)])
    case CutToPlan(k, cap) =>
      && k < |s.accepts| && s.accepts[k].Holding? && cap < s.accepts[k].seats
      && t == Lower(s, s.accepts[k].seats - cap).(accepts := s.accepts[k := Holding(cap)])
    case CreateJob(k) =>
      && k < |s.accepts| && s.accepts[k].Holding?
      && t == s.(jobs := s.jobs + [Job(s.accepts[k].seats, false, 0, 1)],
                 accepts := s.accepts[k := Dispatching(s.accepts[k].seats, |s.jobs|)])
    case DispatchOk(k) =>
      && k < |s.accepts| && s.accepts[k].Dispatching? && t == s.(accepts := s.accepts[k := Over])
    case DispatchRaises(k) =>
      && k < |s.accepts| && s.accepts[k].Dispatching?
      && t == s.(accepts := s.accepts[k := Undoing(s.accepts[k].seats)])
    case AcceptRaises(k) =>
      && k < |s.accepts| && s.accepts[k].Holding?
      && t == s.(accepts := s.accepts[k := RollingBack(s.accepts[k].seats)])
    case GiveBack(k) =>
      && k < |s.accepts| && (s.accepts[k].RollingBack? || s.accepts[k].Undoing?)
      && t == Lower(s, s.accepts[k].seats).(
                accepts := s.accepts[k := Over],
                doubled := s.doubled + (if s.accepts[k].Undoing? then s.accepts[k].seats else 0))
    // or giving back raises
    case AcceptDies(k) =>
      && k < |s.accepts| && (s.accepts[k].Holding? || s.accepts[k].RollingBack? || s.accepts[k].Undoing?)
      && t == s.(accepts := s.accepts[k := if s.accepts[k].Undoing? then Over else Leaked(s.accepts[k].seats)])
  }

  ghost predicate SettleStep(s: State, t: State, move: SettleMove) {
    match move
    // a claim, a heartbeat or a status update: any write that leaves reserved and settled alone
    case TouchJob(j) =>
      j < |s.jobs| && t == s.(jobs := s.jobs[j := s.jobs[j].(version := s.jobs[j].version + 1)])
    case Settle(j, charge) =>
      j < |s.jobs| && t == s.(settlers := s.settlers + [AboutToRead(j, charge)])
    case ReadJob(k) =>
      && k < |s.settlers| && s.settlers[k].AboutToRead? && s.settlers[k].job < |s.jobs|
      && var job := s.jobs[s.settlers[k].job];
         t == s.(settlers := s.settlers[k := Saw(s.settlers[k].job, s.settlers[k].charge, job.settled, job.version)])
    case SwapJob(k) =>
      && k < |s.settlers| && s.settlers[k].Saw? && s.settlers[k].job < |s.jobs|
      && var w := s.settlers[k];
         var job := s.jobs[w.job];
         if w.settled then t == s.(settlers := s.settlers[k := NotMine])
         else if job.version == w.version then
           t == s.(jobs := s.jobs[w.job := Job(job.reserved, true, w.charge, job.version + 1)],
                   settlers := s.settlers[k := Owes(w.job, Max(0, job.reserved - w.charge))])
         else t == s.(settlers := s.settlers[k := AboutToRead(w.job, w.charge)])
    case PayRefund(k) =>
      && k < |s.settlers| && s.settlers[k].Owes?
      && t == Lower(s, s.settlers[k].refund).(settlers := s.settlers[k := Refunded(s.settlers[k].job)])
    case SettlerFails(k) =>
      && k < |s.settlers|
      && (match s.settlers[k]
          case AboutToRead(_, _) => t == s.(settlers := s.settlers[k := NotMine])
          case Saw(_, _, _, _) => t == s.(settlers := s.settlers[k := NotMine])
          case Owes(j, refund) => t == s.(settlers := s.settlers[k := RefundLost(j, refund)])
          case _ => false)
  }

  ghost predicate ChangeStep(s: State, t: State, move: ChangeMove) {
    match move
    case RaiseLicences(seats) =>
      seats > 0 && Raise(s, t, seats) && t == s.(used := t.used, changes := s.changes + [Raising(seats)])
    case GoogleRaised(k) =>
      && k < |s.changes| && s.changes[k].Raising?
      && t == s.(changes := s.changes[k := Closed], booked := s.booked + s.changes[k].seats)
    case GoogleRefused(k) =>
      && k < |s.changes| && s.changes[k].Raising?
      && t == s.(changes := s.changes[k := GivingBack(s.changes[k].seats)])
    case GoogleReduced(seats) =>
      t == s.(changes := s.changes + [Releasing(seats)], booked := s.booked - seats)
    case Release(k) =>
      && k < |s.changes| && (s.changes[k].GivingBack? || s.changes[k].Releasing?)
      && t == Lower(s, s.changes[k].seats).(changes := s.changes[k := Closed])
    case ChangeDies(k) =>
      && k < |s.changes| && !s.changes[k].Closed?
      && t == s.(changes := s.changes[k := Stuck(s.changes[k].seats)])
    case SetCap(cap) => t == s.(cap := cap)
  }

  ghost predicate Next(s: State, t: State, step: Step) {
    match step
    case InAccept(move) => AcceptStep(s, t, move)
    case InSettle(move) => SettleStep(s, t, move)
    case InChange(move) => ChangeStep(s, t, move)
  }

  ghost predicate Init(s: State) {
    s.used == 0 && s == State(0, s.cap, [], [], [], [], 0, 0, 0)
  }

  ghost predicate IsRun(run: seq<State>, steps: seq<Step>) {
    && |run| == |steps| + 1
    && Init(run[0])
    && forall i {:trigger steps[i]} :: 0 <= i < |steps| ==> Next(run[i], run[i + 1], steps[i])
  }

  // ---- The books ----

  /** What the entries of a list hold together. */
  function Total<T>(xs: seq<T>, held: T -> nat): nat {
    if xs == [] then 0 else Total(xs[..|xs| - 1], held) + held(xs[|xs| - 1])
  }

  lemma {:induction false} TotalUpdate<T>(xs: seq<T>, k: nat, x: T, held: T -> nat)
    requires k < |xs|
    ensures Total(xs[k := x], held) == Total(xs, held) - held(xs[k]) + held(x)
    ensures held(xs[k]) <= Total(xs, held)
  {
    var n := |xs| - 1;
    var ys := xs[k := x];
    if k < n {
      assert ys[..n] == xs[..n][k := x];
      TotalUpdate(xs[..n], k, x, held);
    } else {
      assert ys[..n] == xs[..n];
    }
  }

  lemma TotalAppend<T>(xs: seq<T>, x: T, held: T -> nat)
    ensures Total(xs + [x], held) == Total(xs, held) + held(x)
  {
    assert (xs + [x])[..|xs|] == xs;
  }

  lemma {:induction false} TotalBelow<T>(xs: seq<T>, less: T -> nat, more: T -> nat)
    requires forall i :: 0 <= i < |xs| ==> less(xs[i]) <= more(xs[i])
    ensures Total(xs, less) <= Total(xs, more)
  {
    if xs != [] {
      TotalBelow(xs[..|xs| - 1], less, more);
    }
  }

  function HeldByAccept(a: Accept): nat {
    match a
    case Holding(seats) => seats
    case RollingBack(seats) => seats
    case Leaked(seats) => seats
    case _ => 0
  }

  /** An unsettled job holds its whole reservation; a settled one what it was charged, up to that. */
  function HeldByJob(j: Job): nat {
    if j.settled then (if j.charged < j.reserved then j.charged else j.reserved) else j.reserved
  }

  function HeldBySettler(w: Settler): nat {
    match w
    case Owes(_, refund) => refund
    case RefundLost(_, refund) => refund
    case _ => 0
  }

  function HeldByChange(c: Change): nat {
    match c
    case Closed => 0
    case _ => c.seats
  }

  /** In-flight reservations, unsettled jobs, charges of settled jobs, refunds still to come, licence
      changes in flight, and the net of the confirmed ones. */
  function Owed(s: State): int {
    Total(s.accepts, HeldByAccept) + Total(s.jobs, HeldByJob) + Total(s.settlers, HeldBySettler)
    + Total(s.changes, HeldByChange) + s.booked
  }

  ghost predicate Balanced(s: State) {
    s.used == Owed(s) - s.doubled + s.clamped
  }

  lemma AcceptMoved(s: State, t: State, k: nat, x: Accept)
    requires k < |s.accepts| && t.accepts == s.accepts[k := x]
    requires t.jobs == s.jobs && t.settlers == s.settlers && t.changes == s.changes && t.booked == s.booked
    ensures Owed(t) == Owed(s) - HeldByAccept(s.accepts[k]) + HeldByAccept(x)
  {
    TotalUpdate(s.accepts, k, x, HeldByAccept);
  }

  lemma SeatsReserved(s: State, t: State, seats: nat)
    requires s.used >= 0 && AcceptStep(s, t, Reserve(seats))
    ensures Owed(t) == Owed(s) + seats && t.used == s.used + seats
  {
    TotalAppend(s.accepts, Holding(seats), HeldByAccept);
  }

  lemma SeatsGivenBack(s: State, t: State, move: AcceptMove)
    requires s.used >= 0 && AcceptStep(s, t, move) && (move.CutToPlan? || move.GiveBack?)
    ensures t.used >= 0 && t.used - s.used == Owed(t) - Owed(s) + (t.clamped - s.clamped) - (t.doubled - s.doubled)
  {
    AcceptMoved(s, t, move.k, t.accepts[move.k]);
  }

  lemma JobCreated(s: State, t: State, k: nat)
    requires AcceptStep(s, t, CreateJob(k))
    ensures Owed(t) == Owed(s)
  {
    TotalUpdate(s.accepts, k, t.accepts[k], HeldByAccept);
    TotalAppend(s.jobs, Job(s.accepts[k].seats, false, 0, 1), HeldByJob);
  }

  lemma AcceptStalls(s: State, t: State, move: AcceptMove)
    requires AcceptStep(s, t, move)
    requires move.DispatchOk? || move.DispatchRaises? || move.AcceptRaises? || move.AcceptDies?
    ensures t.used == s.used && Owed(t) == Owed(s) && t.doubled == s.doubled && t.clamped == s.clamped
  {
    AcceptMoved(s, t, move.k, t.accepts[move.k]);
  }

  lemma AcceptBalances(s: State, t: State, move: AcceptMove)
    requires s.used >= 0 && Balanced(s) && AcceptStep(s, t, move)
    ensures t.used >= 0 && Balanced(t)
  {
    if move.Reserve? {
      SeatsReserved(s, t, move.seats);
    } else if move.CreateJob? {
      JobCreated(s, t, move.k);
    } else if move.CutToPlan? || move.GiveBack? {
      SeatsGivenBack(s, t, move);
    } else {
      AcceptStalls(s, t, move);
    }
  }

  lemma SettlerMoved(s: State, t: State, k: nat, x: Settler)
    requires k < |s.settlers| && t.settlers == s.settlers[k := x]
    requires t.accepts == s.accepts && t.jobs == s.jobs && t.changes == s.changes && t.booked == s.booked
    ensures Owed(t) == Owed(s) - HeldBySettler(s.settlers[k]) + HeldBySettler(x)
  {
    TotalUpdate(s.settlers, k, x, HeldBySettler);
  }

  lemma JobSettled(s: State, t: State, k: nat)
    requires SettleStep(s, t, SwapJob(k)) && t.jobs != s.jobs && SawOk(s, s.settlers[k])
    ensures Owed(t) == Owed(s)
  {
    var j := s.settlers[k].job;
    TotalUpdate(s.settlers, k, t.settlers[k], HeldBySettler);
    TotalUpdate(s.jobs, j, t.jobs[j], HeldByJob);
  }

  lemma SettleBalances(s: State, t: State, move: SettleMove)
    requires s.used >= 0 && Balanced(s) && SettleStep(s, t, move)
    requires move.SwapJob? && move.k < |s.settlers| && s.settlers[move.k].Saw? ==> SawOk(s, s.settlers[move.k])
    ensures t.used >= 0 && Balanced(t)
  {
    match move
    case TouchJob(j) => TotalUpdate(s.jobs, j, t.jobs[j], HeldByJob);
    case Settle(j, charge) => TotalAppend(s.settlers, AboutToRead(j, charge), HeldBySettler);
    case ReadJob(k) => SettlerMoved(s, t, k, t.settlers[k]);
    case SwapJob(k) =>
      if t.jobs == s.jobs {
        SettlerMoved(s, t, k, t.settlers[k]);
      } else {
        JobSettled(s, t, k);
      }
    case PayRefund(k) => SettlerMoved(s, t, k, Refunded(s.settlers[k].job));
    case SettlerFails(k) => SettlerMoved(s, t, k, t.settlers[k]);
  }

  lemma ChangeMoved(s: State, t: State, k: nat, x: Change)
    requires k < |s.changes| && t.changes == s.changes[k := x]
    requires t.accepts == s.accepts && t.jobs == s.jobs && t.settlers == s.settlers
    ensures Owed(t) == Owed(s) - HeldByChange(s.changes[k]) + HeldByChange(x) + t.booked - s.booked
  {
    TotalUpdate(s.changes, k, x, HeldByChange);
  }

  lemma ChangeBegun(s: State, t: State, x: Change)
    requires t.changes == s.changes + [x]
    requires t.accepts == s.accepts && t.jobs == s.jobs && t.settlers == s.settlers
    ensures Owed(t) == Owed(s) + HeldByChange(x) + t.booked - s.booked
  {
    TotalAppend(s.changes, x, HeldByChange);
  }

  lemma ChangeBalances(s: State, t: State, move: ChangeMove)
    requires s.used >= 0 && Balanced(s) && ChangeStep(s, t, move)
    ensures t.used >= 0 && Balanced(t)
  {
    match move
    case RaiseLicences(seats) => ChangeBegun(s, t, Raising(seats));
    case GoogleRaised(k) => ChangeMoved(s, t, k, Closed);
    case GoogleRefused(k) => ChangeMoved(s, t, k, GivingBack(s.changes[k].seats));
    case GoogleReduced(seats) => ChangeBegun(s, t, Releasing(seats));
    case Release(k) => ChangeMoved(s, t, k, Closed);
    case ChangeDies(k) => ChangeMoved(s, t, k, Stuck(s.changes[k].seats));
    case SetCap(_) =>
  }

  // ---- Settling exactly once ----

  /** What a settler saw of its job still holds, unless the job's version has moved on. */
  ghost predicate SawOk(s: State, w: Settler) {
    w.Saw? ==> w.job < |s.jobs| && w.version <= s.jobs[w.job].version
               && (w.version == s.jobs[w.job].version ==> w.settled == s.jobs[w.job].settled)
  }

  predicate Won(w: Settler, j: nat) {
    match w
    case Owes(job, _) => job == j
    case Refunded(job) => job == j
    case RefundLost(job, _) => job == j
    case _ => false
  }

  /** The calls of mark_settled that returned job `j`. */
  function Wins(xs: seq<Settler>, j: nat): nat {
    if xs == [] then 0 else Wins(xs[..|xs| - 1], j) + (if Won(xs[|xs| - 1], j) then 1 else 0)
  }

  lemma {:induction false} SetWins(xs: seq<Settler>, k: nat, x: Settler, j: nat)
    requires k < |xs|
    ensures Wins(xs[k := x], j) == Wins(xs, j) - (if Won(xs[k], j) then 1 else 0) + (if Won(x, j) then 1 else 0)
  {
    var n := |xs| - 1;
    var ys := xs[k := x];
    if k < n {
      assert ys[..n] == xs[..n][k := x];
      SetWins(xs[..n], k, x, j);
    } else {
      assert ys[..n] == xs[..n];
    }
  }

  ghost predicate SettledOnce(s: State) {
    && (forall k :: 0 <= k < |s.settlers| ==> SawOk(s, s.settlers[k]))
    && (forall j :: 0 <= j < |s.jobs| ==> Wins(s.settlers, j) == if s.jobs[j].settled then 1 else 0)
    && (forall j :: j >= |s.jobs| ==> Wins(s.settlers, j) == 0)
  }

  /** One settler moves on without touching any job. */
  lemma SettlerMoves(s: State, t: State, k: nat, x: Settler)
    requires SettledOnce(s) && k < |s.settlers| && t.jobs == s.jobs && t.settlers == s.settlers[k := x]
    requires SawOk(t, x) && forall j :: Won(x, j) == Won(s.settlers[k], j)
    ensures SettledOnce(t)
  {
    forall j: nat ensures Wins(t.settlers, j) == Wins(s.settlers, j) {
      SetWins(s.settlers, k, x, j);
    }
    forall i | 0 <= i < |t.settlers| ensures SawOk(t, t.settlers[i]) {
      if i != k { assert SawOk(s, s.settlers[i]); }
    }
  }

  lemma SettlerWins(s: State, t: State, k: nat)
    requires SettledOnce(s) && SettleStep(s, t, SwapJob(k))
    requires !s.settlers[k].settled && s.jobs[s.settlers[k].job].version == s.settlers[k].version
    ensures SettledOnce(t)
  {
    var j := s.settlers[k].job;
    assert SawOk(s, s.settlers[k]);
    forall i: nat ensures Wins(t.settlers, i) == Wins(s.settlers, i) + (if i == j then 1 else 0) {
      SetWins(s.settlers, k, t.settlers[k], i);
    }
    forall i | 0 <= i < |t.settlers| ensures SawOk(t, t.settlers[i]) {
      if i != k { assert SawOk(s, s.settlers[i]); }
    }
  }

  lemma KeepSettledOnce(s: State, t: State, move: SettleMove)
    requires SettledOnce(s) && SettleStep(s, t, move)
    ensures SettledOnce(t)
  {
    match move
    case TouchJob(j) =>
      forall i | 0 <= i < |t.settlers| ensures SawOk(t, t.settlers[i]) { assert SawOk(s, s.settlers[i]); }
    case Settle(j, charge) =>
      forall i: nat ensures Wins(t.settlers, i) == Wins(s.settlers, i) {
        assert t.settlers[..|s.settlers|] == s.settlers;
      }
      forall i | 0 <= i < |s.settlers| ensures SawOk(t, t.settlers[i]) { assert SawOk(s, s.settlers[i]); }
    case SwapJob(k) =>
      if t.jobs == s.jobs {
        SettlerMoves(s, t, k, t.settlers[k]);
      } else {
        SettlerWins(s, t, k);
      }
    case _ => SettlerMoves(s, t, move.k, t.settlers[move.k]);
  }

  /** Steps outside `settle` leave settlers and old jobs alone. */
  lemma OthersSettleNothing(s: State, t: State)
    requires SettledOnce(s) && t.settlers == s.settlers
    requires t.jobs == s.jobs || (|t.jobs| == |s.jobs| + 1 && t.jobs[..|s.jobs|] == s.jobs && !t.jobs[|s.jobs|].settled)
    ensures SettledOnce(t)
  {
    forall k | 0 <= k < |t.settlers| ensures SawOk(t, t.settlers[k]) {
      assert SawOk(s, s.settlers[k]);
      if t.settlers[k].Saw? {
        assert t.jobs[t.settlers[k].job] == t.jobs[..|s.jobs|][t.settlers[k].job] == s.jobs[t.settlers[k].job];
      }
    }
    forall j | 0 <= j < |t.jobs| ensures Wins(t.settlers, j) == if t.jobs[j].settled then 1 else 0 {
      if j < |s.jobs| {
        assert t.jobs[j] == t.jobs[..|s.jobs|][j] == s.jobs[j];
      }
    }
  }

  ghost predicate Inv(s: State) {
    s.used >= 0 && Balanced(s) && SettledOnce(s)
  }

  lemma AcceptLeavesJobs(s: State, t: State, move: AcceptMove)
    requires AcceptStep(s, t, move)
    ensures t.settlers == s.settlers
    ensures t.jobs == s.jobs || (|t.jobs| == |s.jobs| + 1 && t.jobs[..|s.jobs|] == s.jobs && !t.jobs[|s.jobs|].settled)
  {
  }

  lemma KeepInv(s: State, t: State, step: Step)
    requires Inv(s) && Next(s, t, step)
    ensures Inv(t)
  {
    match step
    case InAccept(move) =>
      AcceptBalances(s, t, move);
      AcceptLeavesJobs(s, t, move);
      OthersSettleNothing(s, t);
    case InSettle(move) =>
      SettleBalances(s, t, move);
      KeepSettledOnce(s, t, move);
    case InChange(move) =>
      ChangeBalances(s, t, move);
      OthersSettleNothing(s, t);
  }

  lemma {:induction false} RunInv(run: seq<State>, steps: seq<Step>, i: nat)
    requires IsRun(run, steps) && i < |run|
    ensures Inv(run[i])
  {
    if i > 0 {
      RunInv(run, steps, i - 1);
      assert Next(run[i - 1], run[i], steps[i - 1]);
      KeepInv(run[i - 1], run[i], steps[i - 1]);
    }
  }

  // ---- Results over whole runs ----

  /** Conservation, for every run whatsoever: the counter is what is owed, less what was given back although a
      stored job holds it, plus what the clamp at zero cut off. */
  lemma Conservation(run: seq<State>, steps: seq<Step>, i: nat)
    requires IsRun(run, steps) && i < |run|
    ensures run[i].used == Owed(run[i]) - run[i].doubled + run[i].clamped
    ensures run[i].used == Owed(run[i]) <==> run[i].doubled == run[i].clamped
  {
    RunInv(run, steps, i);
  }

  /** A dispatch has failed, and the step gives back the seats that the stored job still holds. */
  predicate DoublesBack(s: State, step: Step) {
    && step.InAccept? && step.a.GiveBack? && step.a.k < |s.accepts|
    && s.accepts[step.a.k].Undoing? && s.accepts[step.a.k].seats > 0
  }

  /** And there is something on the counter for it to take. */
  predicate LosesSeats(s: State, step: Step) {
    DoublesBack(s, step) && s.used > 0
  }

  // ---- What backs the amounts still to be given back ----

  function ChargedTo(j: Job): nat {
    if j.settled then HeldByJob(j) else 0
  }

  /** What settled jobs were charged plus the net of confirmed licence changes. */
  function Booked(s: State): int {
    Total(s.jobs, ChargedTo) + s.booked
  }

  // Seats that stay on the counter for good: threads that died, or could not give back.

  function LostByAccept(a: Accept): nat {
    if a.Leaked? then a.seats else 0
  }

  function LostBySettler(w: Settler): nat {
    if w.RefundLost? then w.refund else 0
  }

  function LostByChange(c: Change): nat {
    if c.Stuck? then c.seats else 0
  }

  function Lost(s: State): nat {
    Total(s.accepts, LostByAccept) + Total(s.settlers, LostBySettler) + Total(s.changes, LostByChange)
  }

  /** What stays on the counter once everything in flight is given back. */
  function Backed(s: State): int {
    Booked(s) + Lost(s)
  }

  /** A licence change takes no more seats off at Google than that. */
  predicate Covered(s: State, step: Step) {
    step.InChange? && step.c.GoogleReduced? ==> step.c.seats <= Backed(s)
  }

  ghost predicate CoveredRun(run: seq<State>, steps: seq<Step>) {
    IsRun(run, steps) && forall i {:trigger steps[i]} :: 0 <= i < |steps| ==> Covered(run[i], steps[i])
  }

  lemma AcceptBacked(s: State, t: State, move: AcceptMove)
    requires AcceptStep(s, t, move)
    ensures Backed(t) >= Backed(s)
  {
    match move
    case Reserve(seats) => TotalAppend(s.accepts, Holding(seats), LostByAccept);
    case CreateJob(k) =>
      TotalUpdate(s.accepts, k, t.accepts[k], LostByAccept);
      TotalAppend(s.jobs, Job(s.accepts[k].seats, false, 0, 1), ChargedTo);
    case _ => TotalUpdate(s.accepts, move.k, t.accepts[move.k], LostByAccept);
  }

  lemma SettleBacked(s: State, t: State, move: SettleMove)
    requires SettleStep(s, t, move)
    requires move.SwapJob? && move.k < |s.settlers| && s.settlers[move.k].Saw? ==> SawOk(s, s.settlers[move.k])
    ensures Backed(t) >= Backed(s)
  {
    match move
    case TouchJob(j) => TotalUpdate(s.jobs, j, t.jobs[j], ChargedTo);
    case Settle(j, charge) => TotalAppend(s.settlers, AboutToRead(j, charge), LostBySettler);
    case SwapJob(k) =>
      var w := s.settlers[k];
      TotalUpdate(s.settlers, k, t.settlers[k], LostBySettler);
      if t.jobs != s.jobs {
        TotalUpdate(s.jobs, w.job, t.jobs[w.job], ChargedTo);
      }
    case _ => TotalUpdate(s.settlers, move.k, t.settlers[move.k], LostBySettler);
  }

  lemma ChangeBacked(s: State, t: State, move: ChangeMove)
    requires ChangeStep(s, t, move)
    ensures Backed(t) >= Backed(s) - (if move.GoogleReduced? then move.seats else 0)
  {
    match move
    case RaiseLicences(seats) => TotalAppend(s.changes, Raising(seats), LostByChange);
    case GoogleReduced(seats) => TotalAppend(s.changes, Releasing(seats), LostByChange);
    case SetCap(_) =>
    case _ => TotalUpdate(s.changes, move.k, t.changes[move.k], LostByChange);
  }

  lemma BackedStep(s: State, t: State, step: Step)
    requires Inv(s) && Next(s, t, step) && Covered(s, step) && Backed(s) >= 0
    ensures Backed(t) >= 0
  {
    match step
    case InAccept(move) => AcceptBacked(s, t, move);
    case InSettle(move) => SettleBacked(s, t, move);
    case InChange(move) => ChangeBacked(s, t, move);
  }

  /** What a change still has to give back, or may have to. */
  predicate Due(s: State, amount: nat) {
    || (exists k :: 0 <= k < |s.accepts| && !s.accepts[k].Leaked? && HeldByAccept(s.accepts[k]) == amount)
    || (exists k :: 0 <= k < |s.settlers| && !s.settlers[k].RefundLost? && HeldBySettler(s.settlers[k]) == amount)
    || (exists k :: 0 <= k < |s.changes| && !s.changes[k].Stuck? && HeldByChange(s.changes[k]) == amount)
  }

  lemma {:induction false} OneAbove<T>(xs: seq<T>, k: nat, less: T -> nat, more: T -> nat)
    requires k < |xs| && forall i :: 0 <= i < |xs| ==> less(xs[i]) <= more(xs[i])
    ensures Total(xs, less) + (more(xs[k]) - less(xs[k])) <= Total(xs, more)
  {
    var n := |xs| - 1;
    if k < n {
      OneAbove(xs[..n], k, less, more);
    } else {
      TotalBelow(xs[..n], less, more);
    }
  }

  /** With the books exact and backed, every amount still to be given back is covered by the counter. */
  lemma DueIsCovered(s: State, amount: nat)
    requires s.used == Owed(s) && Backed(s) >= 0 && Due(s, amount)
    ensures amount <= s.used
  {
    TotalBelow(s.accepts, LostByAccept, HeldByAccept);
    TotalBelow(s.jobs, ChargedTo, HeldByJob);
    TotalBelow(s.settlers, LostBySettler, HeldBySettler);
    TotalBelow(s.changes, LostByChange, HeldByChange);
    if k :| 0 <= k < |s.accepts| && !s.accepts[k].Leaked? && HeldByAccept(s.accepts[k]) == amount {
      OneAbove(s.accepts, k, LostByAccept, HeldByAccept);
    } else if k :| 0 <= k < |s.settlers| && !s.settlers[k].RefundLost? && HeldBySettler(s.settlers[k]) == amount {
      OneAbove(s.settlers, k, LostBySettler, HeldBySettler);
    } else {
      var k :| 0 <= k < |s.changes| && !s.changes[k].Stuck? && HeldByChange(s.changes[k]) == amount;
      OneAbove(s.changes, k, LostByChange, HeldByChange);
    }
  }

  /** Then no step clamps, and none counts seats twice. */
  lemma NothingClamps(s: State, t: State, step: Step)
    requires s.used == Owed(s) && Backed(s) >= 0 && Next(s, t, step) && !DoublesBack(s, step)
    ensures t.clamped == s.clamped && t.doubled == s.doubled
  {
    match step
    case InAccept(CutToPlan(k, _)) => DueIsCovered(s, HeldByAccept(s.accepts[k]));
    case InAccept(GiveBack(k)) => DueIsCovered(s, HeldByAccept(s.accepts[k]));
    case InSettle(PayRefund(k)) => DueIsCovered(s, HeldBySettler(s.settlers[k]));
    case InChange(Release(k)) => DueIsCovered(s, HeldByChange(s.changes[k]));
    case _ =>
  }

  lemma {:induction false} StaysBacked(run: seq<State>, steps: seq<Step>, i: nat)
    requires CoveredRun(run, steps) && i < |run|
    ensures Backed(run[i]) >= 0
  {
    if i > 0 {
      StaysBacked(run, steps, i - 1);
      RunInv(run, steps, i - 1);
      assert Covered(run[i - 1], steps[i - 1]);
      BackedStep(run[i - 1], run[i], steps[i - 1]);
    }
  }

  lemma ExactStep(s: State, t: State, step: Step)
    requires Inv(s) && Next(s, t, step) && Backed(s) >= 0 && s.used == Owed(s) && !LosesSeats(s, step)
    ensures t.used == Owed(t)
  {
    KeepInv(s, t, step);
    if DoublesBack(s, step) {
      AcceptMoved(s, t, step.a.k, Over);
    } else {
      NothingClamps(s, t, step);
    }
  }

  lemma {:induction false} StaysExact(run: seq<State>, steps: seq<Step>, i: nat)
    requires CoveredRun(run, steps) && i < |run|
    requires forall m :: 0 <= m < i ==> !LosesSeats(run[m], steps[m])
    ensures run[i].used == Owed(run[i])
  {
    if i > 0 {
      StaysExact(run, steps, i - 1);
      StaysBacked(run, steps, i - 1);
      RunInv(run, steps, i - 1);
      ExactStep(run[i - 1], run[i], steps[i - 1]);
    }
  }

  lemma {:induction false} NeverClamps(run: seq<State>, steps: seq<Step>, i: nat)
    requires CoveredRun(run, steps) && i < |run|
    requires forall m :: 0 <= m < i ==> !DoublesBack(run[m], steps[m])
    ensures run[i].clamped == 0
  {
    if i > 0 {
      NeverClamps(run, steps, i - 1);
      StaysExact(run, steps, i - 1);
      StaysBacked(run, steps, i - 1);
      NothingClamps(run[i - 1], run[i], steps[i - 1]);
    }
  }

  /** Even what is lost for good is on the counter. */
  predicate AllHeldCovered(s: State) {
    && (forall k :: 0 <= k < |s.accepts| ==> HeldByAccept(s.accepts[k]) <= s.used)
    && (forall k :: 0 <= k < |s.settlers| ==> HeldBySettler(s.settlers[k]) <= s.used)
    && (forall k :: 0 <= k < |s.changes| ==> HeldByChange(s.changes[k]) <= s.used)
  }

  lemma HeldIsCovered(s: State)
    requires s.used == Owed(s) && Booked(s) >= 0
    ensures AllHeldCovered(s)
  {
    TotalBelow(s.jobs, ChargedTo, HeldByJob);
    forall k | 0 <= k < |s.accepts| ensures HeldByAccept(s.accepts[k]) <= s.used {
      TotalUpdate(s.accepts, k, s.accepts[k], HeldByAccept);
    }
    forall k | 0 <= k < |s.settlers| ensures HeldBySettler(s.settlers[k]) <= s.used {
      TotalUpdate(s.settlers, k, s.settlers[k], HeldBySettler);
    }
    forall k | 0 <= k < |s.changes| ensures HeldByChange(s.changes[k]) <= s.used {
      TotalUpdate(s.changes, k, s.changes[k], HeldByChange);
    }
  }

  /** While no reduction exceeds what is backed, and nothing was taken off the counter for a stored job that
      failed to be dispatched, the counter is exactly what is owed and covers every amount still to be given
      back; and as long as no such job's seats were given back at all, the clamp at zero never fires. */
  lemma CarefulRunConserves(run: seq<State>, steps: seq<Step>, i: nat)
    requires CoveredRun(run, steps) && i < |run|
    requires forall m :: 0 <= m < i ==> !LosesSeats(run[m], steps[m])
    ensures run[i].used == Owed(run[i])
    ensures (forall m :: 0 <= m < i ==> !DoublesBack(run[m], steps[m])) ==> run[i].clamped == 0
    ensures forall amount: nat :: Due(run[i], amount) ==> amount <= run[i].used
    ensures Booked(run[i]) >= 0 ==> AllHeldCovered(run[i])
  {
    StaysBacked(run, steps, i);
    StaysExact(run, steps, i);
    if forall m :: 0 <= m < i ==> !DoublesBack(run[m], steps[m]) {
      NeverClamps(run, steps, i);
    }
    forall amount: nat | Due(run[i], amount) ensures amount <= run[i].used {
      DueIsCovered(run[i], amount);
    }
    if Booked(run[i]) >= 0 {
      HeldIsCovered(run[i]);
    }
  }

  /** Such a give-back takes seats off the counter that are still owed. */
  lemma LosingStep(s: State, t: State, step: Step)
    requires LosesSeats(s, step) && Next(s, t, step)
    ensures t.used < s.used && Owed(t) == Owed(s)
  {
    AcceptMoved(s, t, step.a.k, Over);
  }

  lemma LosingRun(run: seq<State>, steps: seq<Step>, m: nat)
    requires IsRun(run, steps) && m < |steps| && LosesSeats(run[m], steps[m])
    ensures run[m].used != Owed(run[m]) || run[m + 1].used != Owed(run[m + 1])
  {
    LosingStep(run[m], run[m + 1], steps[m]);
  }

  /** The promise that usage is what is owed holds on a run with covered reductions exactly when no step takes
      seats off the counter for a stored job whose dispatch failed. */
  lemma ConservesIff(run: seq<State>, steps: seq<Step>)
    requires CoveredRun(run, steps)
    ensures (forall i :: 0 <= i < |run| ==> run[i].used == Owed(run[i])) <==>
            (forall m :: 0 <= m < |steps| ==> !LosesSeats(run[m], steps[m]))
  {
    if forall m :: 0 <= m < |steps| ==> !LosesSeats(run[m], steps[m]) {
      forall i | 0 <= i < |run| ensures run[i].used == Owed(run[i]) {
        StaysExact(run, steps, i);
      }
    } else {
      var m :| 0 <= m < |steps| && LosesSeats(run[m], steps[m]);
      LosingRun(run, steps, m);
    }
  }

  // ---- An uncovered reduction makes the clamp fire ----

  /** What is still in flight, counted in steps. */
  function AcceptWork(a: Accept): nat {
    match a
    case Holding(_) => 2
    case RollingBack(_) => 1
    case _ => 0
  }

  function JobWork(j: Job): nat {
    if j.settled then 0 else 2
  }

  function SettlerWork(w: Settler): nat {
    if w.Owes? then 1 else 0
  }

  function ChangeWork(c: Change): nat {
    match c
    case Raising(_) => 2
    case GivingBack(_) => 1
    case Releasing(_) => 1
    case _ => 0
  }

  function Work(s: State): nat {
    Total(s.accepts, AcceptWork) + Total(s.jobs, JobWork) + Total(s.settlers, SettlerWork)
    + Total(s.changes, ChangeWork)
  }

  /** Nothing more is taken off at Google, and no undispatched job's seats are given back. */
  predicate Quiet(s: State, step: Step) {
    !(step.InChange? && step.c.GoogleReduced?) && !DoublesBack(s, step)
  }

  /** `t` can be reached from `s` by quiet steps. */
  ghost predicate Leads(s: State, t: State) {
    exists run, steps :: QuietPath(run, steps) && run[0] == s && run[|steps|] == t
  }

  ghost predicate QuietPath(run: seq<State>, steps: seq<Step>) {
    && |run| == |steps| + 1
    && forall i {:trigger steps[i]} :: 0 <= i < |steps| ==>
         Quiet(run[i], steps[i]) && Next(run[i], run[i + 1], steps[i])
  }

  lemma LeadsNowhere(s: State)
    ensures Leads(s, s)
  {
    assert QuietPath([s], []);
  }

  lemma LeadsOn(s: State, t: State, u: State, step: Step)
    requires Leads(s, t) && Quiet(t, step) && Next(t, u, step)
    ensures Leads(s, u)
  {
    var run, steps :| QuietPath(run, steps) && run[0] == s && run[|steps|] == t;
    assert QuietPath(run + [u], steps + [step]);
  }

  /** `t` is `s` with less in flight and the books otherwise as they were. */
  ghost predicate Closer(s: State, t: State) {
    Inv(t) && Work(t) < Work(s) && Backed(t) == Backed(s) && t.doubled == s.doubled
  }

  lemma CloserAccept(s: State, k: nat) returns (t: State, step: Step)
    requires Inv(s) && k < |s.accepts| && AcceptWork(s.accepts[k]) > 0
    ensures Quiet(s, step) && Next(s, t, step) && Closer(s, t)
  {
    var seats := s.accepts[k].seats;
    var rest := if s.accepts[k].Holding? then RollingBack(seats) else Over;
    step := InAccept(if s.accepts[k].Holding? then AcceptRaises(k) else GiveBack(k));
    t := (if s.accepts[k].Holding? then s else Lower(s, seats)).(accepts := s.accepts[k := rest]);
    KeepInv(s, t, step);
    TotalUpdate(s.accepts, k, rest, AcceptWork);
    TotalUpdate(s.accepts, k, rest, LostByAccept);
  }

  lemma CloserSettler(s: State, k: nat) returns (t: State, step: Step)
    requires Inv(s) && k < |s.settlers| && s.settlers[k].Owes?
    ensures Quiet(s, step) && Next(s, t, step) && Closer(s, t)
  {
    var rest := Refunded(s.settlers[k].job);
    step := InSettle(PayRefund(k));
    t := Lower(s, s.settlers[k].refund).(settlers := s.settlers[k := rest]);
    KeepInv(s, t, step);
    TotalUpdate(s.settlers, k, rest, SettlerWork);
    TotalUpdate(s.settlers, k, rest, LostBySettler);
  }

  lemma CloserChange(s: State, k: nat) returns (t: State, step: Step)
    requires Inv(s) && k < |s.changes| && ChangeWork(s.changes[k]) > 0
    ensures Quiet(s, step) && Next(s, t, step) && Closer(s, t)
  {
    var seats := s.changes[k].seats;
    var rest := if s.changes[k].Raising? then GivingBack(seats) else Closed;
    step := InChange(if s.changes[k].Raising? then GoogleRefused(k) else Release(k));
    t := (if s.changes[k].Raising? then s else Lower(s, seats)).(changes := s.changes[k := rest]);
    KeepInv(s, t, step);
    TotalUpdate(s.changes, k, rest, ChangeWork);
    TotalUpdate(s.changes, k, rest, LostByChange);
  }

  /** The reconciler settles an unsettled job with nothing charged: three steps. */
  lemma CloserJob(origin: State, s: State, j: nat) returns (t: State)
    requires Inv(s) && Leads(origin, s) && j < |s.jobs| && !s.jobs[j].settled
    ensures Leads(origin, t) && Closer(s, t)
  {
    var n, job := |s.settlers|, s.jobs[j];
    var s1 := s.(settlers := s.settlers + [AboutToRead(j, 0)]);
    var s2 := s.(settlers := s.settlers + [Saw(j, 0, false, job.version)]);
    var settled := Job(job.reserved, true, 0, job.version + 1);
    t := s.(jobs := s.jobs[j := settled], settlers := s.settlers + [Owes(j, job.reserved)]);
    var reading, swapping := InSettle(ReadJob(n)), InSettle(SwapJob(n));
    assert s1.settlers[n := s2.settlers[n]] == s2.settlers && s2.settlers[n := t.settlers[n]] == t.settlers;
    assert Next(s, s1, InSettle(Settle(j, 0))) && Next(s1, s2, reading) && Next(s2, t, swapping);
    LeadsOn(origin, s, s1, InSettle(Settle(j, 0)));
    LeadsOn(origin, s1, s2, reading);
    LeadsOn(origin, s2, t, swapping);
    KeepInv(s, s1, InSettle(Settle(j, 0)));
    KeepInv(s1, s2, reading);
    KeepInv(s2, t, swapping);
    TotalUpdate(s.jobs, j, settled, JobWork);
    TotalUpdate(s.jobs, j, settled, ChargedTo);
    TotalAppend(s.settlers, Owes(j, job.reserved), SettlerWork);
    TotalAppend(s.settlers, Owes(j, job.reserved), LostBySettler);
  }

  lemma {:induction false} SomeWork<T>(xs: seq<T>, work: T -> nat) returns (k: nat)
    requires Total(xs, work) > 0
    ensures k < |xs| && work(xs[k]) > 0
  {
    k := |xs| - 1;
    if work(xs[k]) == 0 {
      k := SomeWork(xs[..k], work);
    }
  }

  lemma GetCloser(origin: State, s: State) returns (t: State)
    requires Inv(s) && Leads(origin, s) && Work(s) > 0
    ensures Leads(origin, t) && Closer(s, t)
  {
    var k, step;
    if Total(s.jobs, JobWork) > 0 {
      k := SomeWork(s.jobs, JobWork);
      t := CloserJob(origin, s, k);
      return;
    } else if Total(s.accepts, AcceptWork) > 0 {
      k := SomeWork(s.accepts, AcceptWork);
      t, step := CloserAccept(s, k);
    } else if Total(s.settlers, SettlerWork) > 0 {
      k := SomeWork(s.settlers, SettlerWork);
      t, step := CloserSettler(s, k);
    } else {
      k := SomeWork(s.changes, ChangeWork);
      t, step := CloserChange(s, k);
    }
    LeadsOn(origin, s, t, step);
  }

  /** From anywhere, everything in flight can be given back. */
  lemma {:induction false} DrainsFully(origin: State, s: State) returns (t: State)
    requires Inv(s) && Leads(origin, s)
    ensures Leads(origin, t) && Inv(t) && Work(t) == 0 && Backed(t) == Backed(s) && t.doubled == s.doubled
    decreases Work(s)
  {
    t := s;
    if Work(s) > 0 {
      var next := GetCloser(origin, s);
      t := DrainsFully(origin, next);
    }
  }

  lemma {:induction false} NoWork<T>(xs: seq<T>, work: T -> nat, held: T -> nat, left: T -> nat)
    requires Total(xs, work) == 0
    requires forall i :: 0 <= i < |xs| && work(xs[i]) == 0 ==> held(xs[i]) == left(xs[i])
    ensures Total(xs, held) == Total(xs, left)
  {
    if xs != [] {
      NoWork(xs[..|xs| - 1], work, held, left);
    }
  }

  /** Then the counter owes exactly what is backed. */
  lemma DrainedOwes(s: State)
    requires Work(s) == 0
    ensures Owed(s) == Backed(s)
  {
    NoWork(s.accepts, AcceptWork, HeldByAccept, LostByAccept);
    NoWork(s.jobs, JobWork, HeldByJob, ChargedTo);
    NoWork(s.settlers, SettlerWork, HeldBySettler, LostBySettler);
    NoWork(s.changes, ChangeWork, HeldByChange, LostByChange);
  }

  function Reduced(s: State, seats: nat): State {
    s.(changes := s.changes + [Releasing(seats)], booked := s.booked - seats)
  }

  lemma {:induction false} QuietKeeps(run: seq<State>, steps: seq<Step>, i: nat)
    requires QuietPath(run, steps) && i < |run|
    requires Inv(run[0]) && run[0].used == Owed(run[0]) && Backed(run[0]) >= 0
    ensures Inv(run[i]) && run[i].used == Owed(run[i]) && Backed(run[i]) >= 0 && run[i].clamped == run[0].clamped
  {
    if i > 0 {
      QuietKeeps(run, steps, i - 1);
      var s, t, step := run[i - 1], run[i], steps[i - 1];
      assert Quiet(s, step) && Next(s, t, step);
      KeepInv(s, t, step);
      BackedStep(s, t, step);
      NothingClamps(s, t, step);
    }
  }

  /** With exact books, a reduction at Google can make the clamp fire later, without any further reduction and
      without giving back what a stored job holds, exactly when it exceeds what is backed. */
  lemma ReductionClampsIff(run: seq<State>, steps: seq<Step>, i: nat, seats: nat)
    requires IsRun(run, steps) && i < |run| && run[i].used == Owed(run[i])
    ensures (exists t :: Leads(Reduced(run[i], seats), t) && t.clamped > run[i].clamped) <==> seats > Backed(run[i])
  {
    var s := run[i];
    var r := Reduced(s, seats);
    RunInv(run, steps, i);
    var step := InChange(GoogleReduced(seats));
    assert Next(s, r, step);
    KeepInv(s, r, step);
    TotalAppend(s.changes, Releasing(seats), LostByChange);
    assert Backed(r) == Backed(s) - seats && r.used == Owed(r);
    if seats > Backed(s) {
      LeadsNowhere(r);
      var t := DrainsFully(r, r);
      DrainedOwes(t);
      assert t.clamped > s.clamped;
    } else if t :| Leads(r, t) && t.clamped > s.clamped {
      var path, moves :| QuietPath(path, moves) && path[0] == r && path[|moves|] == t;
      QuietKeeps(path, moves, |moves|);
    }
  }

  // ---- Exactly once ----

  /** At every moment of every run at most one call of mark_settled has returned a given job, and one has
      exactly when the job is settled. */
  lemma SettledExactlyOnce(run: seq<State>, steps: seq<Step>, i: nat, j: nat)
    requires IsRun(run, steps) && i < |run| && j < |run[i].jobs|
    ensures Wins(run[i].settlers, j) == if run[i].jobs[j].settled then 1 else 0
  {
    RunInv(run, steps, i);
  }

  lemma {:induction false} TwoWinners(xs: seq<Settler>, j: nat, k: nat, l: nat)
    requires k < l < |xs| && Won(xs[k], j) && Won(xs[l], j)
    ensures Wins(xs, j) >= 2
  {
    var n := |xs| - 1;
    if l < n {
      TwoWinners(xs[..n], j, k, l);
    } else {
      SetWins(xs[..n], k, NotMine, j);
    }
  }

  /** So no two settling threads ever refund the same job. */
  lemma RefundedOnce(run: seq<State>, steps: seq<Step>, i: nat, j: nat, k: nat, l: nat)
    requires IsRun(run, steps) && i < |run| && j < |run[i].jobs|
    requires k < |run[i].settlers| && l < |run[i].settlers|
    requires Won(run[i].settlers[k], j) && Won(run[i].settlers[l], j)
    ensures k == l
  {
    RunInv(run, steps, i);
    if k < l {
      TwoWinners(run[i].settlers, j, k, l);
    } else if l < k {
      TwoWinners(run[i].settlers, j, l, k);
    }
  }

  /** A settled job stays settled, with the same charge. */
  lemma {:induction false} SettledForGood(run: seq<State>, steps: seq<Step>, i: nat, m: nat, j: nat)
    requires IsRun(run, steps) && i <= m < |run| && j < |run[i].jobs|
    ensures j < |run[m].jobs| && run[m].jobs[j].reserved == run[i].jobs[j].reserved
    ensures run[i].jobs[j].settled ==> run[m].jobs[j].settled && run[m].jobs[j].charged == run[i].jobs[j].charged
    decreases m
  {
    if i < m {
      SettledForGood(run, steps, i, m - 1, j);
      RunInv(run, steps, m - 1);
      assert Next(run[m - 1], run[m], steps[m - 1]);
      if steps[m - 1].InSettle? && steps[m - 1].w.SwapJob? {
        assert SawOk(run[m - 1], run[m - 1].settlers[steps[m - 1].w.k]);
      }
    }
  }

  // ---- The cap ----

  /** No step ever raises usage beyond the cap in force; in particular none raises it while it is above. */
  lemma OnlyRaisedWithinCap(s: State, t: State, step: Step)
    requires s.used >= 0 && Next(s, t, step)
    ensures t.used > s.used ==> t.used <= s.cap && t.cap == s.cap
  {
  }

  lemma {:induction false} CapHolds(run: seq<State>, steps: seq<Step>, i: nat)
    requires IsRun(run, steps) && i < |run| && run[0].cap >= 0
    requires forall m :: 0 <= m < |steps| ==> !(steps[m].InChange? && steps[m].c.SetCap?)
    ensures 0 <= run[i].used <= run[i].cap && run[i].cap == run[0].cap
  {
    if i > 0 {
      CapHolds(run, steps, i - 1);
      assert Next(run[i - 1], run[i], steps[i - 1]);
      OnlyRaisedWithinCap(run[i - 1], run[i], steps[i - 1]);
    }
  }

  // ---- Why a change of the counter is one step ----

  /** An entry of the group commit order of a partner record moves the counter as one ledger step does:
      an increase is a `Raise` or refused, a decrease is a `Lower`, and a rival write leaves usage alone. */
  lemma CommitIsCounterStep(order: GC.Order, requests: map<GC.CallId, Request>, p: nat, s: State)
    requires QuotaDoc(order, requests) && p < |order.log|
    requires s.used == Used(GC.DocAt(order, p)) && s.cap == Cap(GC.DocAt(order, p))
    ensures var used, cap := Used(GC.DocAt(order, p + 1)), Cap(GC.DocAt(order, p + 1));
            if order.log[p].Rival? then used == s.used
            else
              && order.log[p].id in requests && cap == s.cap
              && var delta := requests[order.log[p].id].delta;
                 if delta <= 0 then used == Lower(s, -delta).used
                 else if Max(0, s.used + delta) > s.cap then used == s.used
                 else Raise(s, s.(used := used), delta)
  {
    QuotaReadable(order, requests, p);
    assert order.log[..p + 1][..p] == order.log[..p];
    var before := GC.DocAt(order, p);
    match order.log[p]
    case Update(id, op, _) => assert op(before.value) == op(before.value);
    case Rival(change) => assert change(before) == change(before);
  }

  // ---- Where the promise fails ----

  lemma OneMore(run: seq<State>, steps: seq<Step>, t: State, step: Step)
    requires IsRun(run, steps) && Next(run[|steps|], t, step)
    ensures IsRun(run + [t], steps + [step])
  {
  }

  /** Accept stores its job, fails to dispatch it, and gives the seats back; another caller holds three. */
  lemma UndispatchedJob(run: seq<State>, steps: seq<Step>, s: State)
    requires IsRun(run, steps) && run[|steps|] == s
    requires s.used == 6 && s.accepts == [Holding(3), Holding(3)] && s.jobs == [] && s.settlers == []
    ensures exists run', steps' :: IsRun(run', steps') && run'[|steps'|] == s.(used := 3, doubled := s.doubled + 3,
              accepts := [Over, Holding(3)], jobs := [Job(3, false, 0, 1)])
  {
    var s1 := s.(jobs := [Job(3, false, 0, 1)], accepts := [Dispatching(3, 0), Holding(3)]);
    var s2 := s1.(accepts := [Undoing(3), Holding(3)]);
    var s3 := s2.(used := 3, doubled := s.doubled + 3, accepts := [Over, Holding(3)]);
    OneMore(run, steps, s1, InAccept(CreateJob(0)));
    OneMore(run + [s1], steps + [InAccept(CreateJob(0))], s2, InAccept(DispatchRaises(0)));
    OneMore(run + [s1] + [s2], steps + [InAccept(CreateJob(0))] + [InAccept(DispatchRaises(0))], s3,
        InAccept(GiveBack(0)));
  }

  /** The reconciler settles an unsettled job with nothing charged and refunds its reservation. */
  lemma ReconciledJob(run: seq<State>, steps: seq<Step>, s: State)
    requires IsRun(run, steps) && run[|steps|] == s
    requires s.used == 3 && s.jobs == [Job(3, false, 0, 1)] && s.settlers == []
    ensures exists run', steps' :: IsRun(run', steps')
              && run'[|steps'|] == s.(used := 0, jobs := [Job(3, true, 0, 2)], settlers := [Refunded(0)])
  {
    var s1 := s.(settlers := [AboutToRead(0, 0)]);
    var s2 := s.(settlers := [Saw(0, 0, false, 1)]);
    var s3 := s.(jobs := [Job(3, true, 0, 2)], settlers := [Owes(0, 3)]);
    var s4 := s3.(used := 0, settlers := [Refunded(0)]);
    var w0, w1, w2, w3 := InSettle(Settle(0, 0)), InSettle(ReadJob(0)), InSettle(SwapJob(0)), InSettle(PayRefund(0));
    OneMore(run, steps, s1, w0);
    OneMore(run + [s1], steps + [w0], s2, w1);
    OneMore(run + [s1] + [s2], steps + [w0] + [w1], s3, w2);
    OneMore(run + [s1] + [s2] + [s3], steps + [w0] + [w1] + [w2], s4, w3);
  }

  /** Dispatch fails after the job is stored: accept gives the seats back, the reconciler later settles the
      job and gives them back again. Three seats another caller has reserved are gone from the counter. */
  lemma DispatchFailureLosesSeats()
    ensures exists run: seq<State>, steps: seq<Step> ::
              IsRun(run, steps) && run[|steps|].used == 0 && run[|steps|].accepts == [Over, Holding(3)]
  {
    var s0 := State(0, 10, [], [], [], [], 0, 0, 0);
    var s1 := s0.(used := 3, accepts := [Holding(3)]);
    var s2 := s1.(used := 6, accepts := [Holding(3), Holding(3)]);
    assert IsRun([s0], []);
    OneMore([s0], [], s1, InAccept(Reserve(3)));
    OneMore([s0] + [s1], [] + [InAccept(Reserve(3))], s2, InAccept(Reserve(3)));
    UndispatchedJob([s0] + [s1] + [s2], [] + [InAccept(Reserve(3))] + [InAccept(Reserve(3))], s2);
    var s3 := s2.(used := 3, doubled := 3, accepts := [Over, Holding(3)], jobs := [Job(3, false, 0, 1)]);
    var run, steps :| IsRun(run, steps) && run[|steps|] == s3;
    ReconciledJob(run, steps, s3);
  }

  /** A domain with eight seats nobody was charged for is reduced at Google: the clamp fires. */
  lemma OverReductionClamps()
    ensures exists run: seq<State>, steps: seq<Step> ::
              IsRun(run, steps) && run[|steps|].clamped == 8 && run[|steps|].used != Owed(run[|steps|])
  {
    var s0 := State(0, 10, [], [], [], [], 0, 0, 0);
    var s1 := s0.(changes := [Releasing(8)], booked := -8);
    var s2 := s1.(changes := [Closed], clamped := 8);
    var run, steps := [s0, s1, s2], [InChange(GoogleReduced(8)), InChange(Release(0))];
    assert IsRun(run, steps);
    Conservation(run, steps, 2);
    assert run[|steps|].clamped == 8;
  }
}
