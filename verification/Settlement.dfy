/** What a job is charged in the end: seat workflow, settling threads and settled flag in one machine. A worker
    settles with what its workflow returned, or with the recorded licences when its attempt failed; a reconciler
    settles with the recorded licences, whatever has become of the worker, which may still go on afterwards. */
module Settlement {
  import opened SeatWorkflow
  import opened Text
  import JobLease

  /** A thread about to call mark_settled. `recorded` remembers whether the licences were recorded when it decided
      on its charge. */
  datatype Settler = Settler(charge: nat, recorded: bool)

  /** `added`: some call has had Google add seats. */
  datatype Case = Case(work: State, added: bool, settlers: seq<Settler>, settled: Option<Settler>)

  datatype Move =
    | Work(step: Step)
    | WorkerSettles
    | ReconcilerSettles
    | MarkSettled(k: nat)     // the compare-and-swap; JobLease.MarkSettled is the call

  function FromRecord(w: World): Settler {
    Settler(Noted(w), w.job.licencesAdded.Some?)
  }

  /** A settled job is never claimed again, so no attempt is resumed; one that is alive may go on. */
  ghost predicate Goes(c: Case, d: Case, move: Move) {
    match move
    case Work(step) =>
      && (step.Resume? ==> c.settled.None?)
      && Next(c.work, d.work, step)
      && d == c.(work := d.work, added := c.added || AddsSeats(c.work, step))
    case WorkerSettles =>
      && (c.work.pc.Completed? || c.work.pc.Failed?)
      && d == c.(settlers := c.settlers + [if c.work.pc.Completed? then Settler(c.work.pc.charge, true)
                                           else FromRecord(c.work.world)])
    case ReconcilerSettles => d == c.(settlers := c.settlers + [FromRecord(c.work.world)])
    case MarkSettled(k) =>
      k < |c.settlers| && d == if c.settled.None? then c.(settled := Some(c.settlers[k])) else c
  }

  ghost predicate IsHistory(history: seq<Case>, moves: seq<Move>) {
    && |history| == |moves| + 1
    && Init(history[0].work) && !history[0].added && history[0].settlers == [] && history[0].settled.None?
    && forall i {:trigger moves[i]} :: 0 <= i < |moves| ==> Goes(history[i], history[i + 1], moves[i])
  }

  /** A settler knows the exact charge, or found nothing recorded and charges nothing. */
  ghost predicate SettlerOk(c: Case, start: nat, w: Settler) {
    if w.recorded then SeatsIn(c.work) == c.work.req.licences && w.charge == Charge(c.work.req, start)
    else w.charge == 0
  }

  ghost predicate CaseOk(c: Case, start: nat) {
    && Inv(c.work, start)
    && (c.added <==> SeatsIn(c.work) > start)
    && (forall k :: 0 <= k < |c.settlers| ==> SettlerOk(c, start, c.settlers[k]))
    && (c.settled.Some? ==> SettlerOk(c, start, c.settled.value))
  }

  /** Once Google has exactly the seats asked for, it keeps them. */
  lemma TargetStays(s: State, t: State, step: Step, start: nat)
    requires Inv(s, start) && Next(s, t, step) && SeatsIn(s) == s.req.licences
    ensures SeatsIn(t) == t.req.licences
  {
    KeepInv(s, t, step, start);
  }

  lemma KeepOk(c: Case, d: Case, move: Move, start: nat)
    requires CaseOk(c, start) && Goes(c, d, move)
    ensures CaseOk(d, start) && d.work.req == c.work.req
  {
    if move.Work? {
      KeepInv(c.work, d.work, move.step, start);
      StepAdds(c.work, d.work, move.step, start);
      forall w: Settler | SettlerOk(c, start, w) ensures SettlerOk(d, start, w) {
        if w.recorded {
          TargetStays(c.work, d.work, move.step, start);
        }
      }
    }
  }

  lemma {:induction false} HistoryOk(history: seq<Case>, moves: seq<Move>, i: nat)
    requires IsHistory(history, moves) && i < |history|
    ensures CaseOk(history[i], SeatsIn(history[0].work)) && history[i].work.req == history[0].work.req
  {
    if i > 0 {
      HistoryOk(history, moves, i - 1);
      assert Goes(history[i - 1], history[i], moves[i - 1]);
      KeepOk(history[i - 1], history[i], moves[i - 1], SeatsIn(history[0].work));
    }
  }

  // ---- Results ----

  /** At every moment since the job was settled, whoever settled it and whatever its worker has done meanwhile: it
      is charged exactly what Google has added by then if and only if the licences had been recorded when the
      settling thread decided on its charge, or Google has added nothing. */
  lemma SettledChargeIff(history: seq<Case>, moves: seq<Move>, i: nat)
    requires IsHistory(history, moves) && i < |history| && history[i].settled.Some?
    ensures history[i].settled.value.charge == SeatsIn(history[i].work) - SeatsIn(history[0].work) <==>
              history[i].settled.value.recorded || !history[i].added
  {
    HistoryOk(history, moves, i);
  }

  predicate Adds(c: Case, move: Move) {
    move.Work? && AddsSeats(c.work, move.step)
  }

  function Marks(history: seq<Case>, moves: seq<Move>): (marks: seq<bool>)
    requires |history| == |moves| + 1
    ensures |marks| == |moves| && forall m :: 0 <= m < |moves| ==> marks[m] == Adds(history[m], moves[m])
  {
    seq(|moves|, m requires 0 <= m < |moves| => Adds(history[m], moves[m]))
  }

  ghost predicate Marked(history: seq<Case>, marks: seq<bool>) {
    && |history| == |marks| + 1 && !history[0].added
    && forall m {:trigger marks[m]} :: 0 <= m < |marks| ==> history[m + 1].added == (history[m].added || marks[m])
  }

  lemma {:induction false} MarkedIff(history: seq<Case>, marks: seq<bool>, i: nat)
    requires Marked(history, marks) && i < |history|
    ensures history[i].added <==> true in marks[..i]
  {
    if i > 0 {
      MarkedIff(history, marks, i - 1);
      assert marks[..i] == marks[..i - 1] + [marks[i - 1]];
    }
  }

  lemma HistoryMarked(history: seq<Case>, moves: seq<Move>)
    requires IsHistory(history, moves)
    ensures Marked(history, Marks(history, moves))
  {
    forall m | 0 <= m < |moves|
      ensures history[m + 1].added == (history[m].added || Marks(history, moves)[m])
    {
      assert Goes(history[m], history[m + 1], moves[m]);
    }
  }

  /** What `added` says really happened. */
  lemma AddedIff(history: seq<Case>, moves: seq<Move>, i: nat)
    requires IsHistory(history, moves) && i < |history|
    ensures history[i].added <==> exists m :: 0 <= m < i && Adds(history[m], moves[m])
  {
    HistoryMarked(history, moves);
    var marks := Marks(history, moves);
    MarkedIff(history, marks, i);
    if exists m :: 0 <= m < i && Adds(history[m], moves[m]) {
      var m :| 0 <= m < i && Adds(history[m], moves[m]);
      assert marks[..i][m];
    }
    if true in marks[..i] {
      var m :| 0 <= m < i && marks[..i][m];
      assert marks[m];
    }
  }

  /** The charge that was settled stays. */
  lemma {:induction false} ChargeStays(history: seq<Case>, moves: seq<Move>, i: nat, j: nat)
    requires IsHistory(history, moves) && i <= j < |history| && history[i].settled.Some?
    ensures history[j].settled == history[i].settled
    decreases j
  {
    if i < j {
      ChargeStays(history, moves, i, j - 1);
      assert Goes(history[j - 1], history[j], moves[j - 1]);
    }
  }

  /** A worker whose attempt completed decides on exactly what Google has added. */
  lemma CompletedWorkerSettlesExactly(history: seq<Case>, moves: seq<Move>, i: nat)
    requires IsHistory(history, moves) && i < |moves| && moves[i].WorkerSettles? && history[i].work.pc.Completed?
    ensures var n := |history[i].settlers|;
            && |history[i + 1].settlers| == n + 1 && history[i + 1].settlers[n].recorded
            && history[i + 1].settlers[n].charge == SeatsIn(history[i].work) - SeatsIn(history[0].work)
  {
    HistoryOk(history, moves, i);
    assert Goes(history[i], history[i + 1], moves[i]);
  }

  /** The stored record says the same: what mark_settled wrote from a charge read at moment i is what Google has
      added by moment j under the same condition. */
  lemma RecordedChargeIff(
    run: seq<State>, steps: seq<Step>, i: nat, j: nat,
    records: seq<Option<JobLease.Record>>, at: nat, r: JobLease.Settling)
    requires IsRun(run, steps) && i <= j < |run|
    requires r.Settled? && JobLease.SettledAt(records, at, Noted(run[i].world), r)
    ensures r.record.added == SeatsIn(run[j]) - SeatsIn(run[0]) <==>
              run[i].world.job.licencesAdded.Some? || !SeatsAddedBefore(run, steps, j)
  {
    NotedChargeIff(run, steps, i, j);
  }

  /** Once an attempt has completed, Google adds nothing more, however often the job is run again. */
  lemma NothingMoreAdded(run: seq<State>, steps: seq<Step>, i: nat, j: nat)
    requires IsRun(run, steps) && i <= j < |run| && run[i].pc.Completed?
    ensures SeatsIn(run[j]) - SeatsIn(run[0]) == run[i].pc.charge == run[0].req.licences - SeatsIn(run[0])
  {
    CompletedExactly(run, steps, i);
    RunInv(run, steps, i);
    RunInv(run, steps, j);
    SeatsOnlyGrow(run, steps, i, j);
  }

  // ---- It does go wrong ----

  ghost predicate CanBe(start: State, c: Case) {
    exists history: seq<Case>, moves: seq<Move> ::
      IsHistory(history, moves) && history[0].work == start && history[|moves|] == c
  }

  lemma Further(start: State, c: Case, d: Case, move: Move)
    requires CanBe(start, c) && Goes(c, d, move)
    ensures CanBe(start, d)
  {
    var history: seq<Case>, moves: seq<Move> :|
      IsHistory(history, moves) && history[0].work == start && history[|moves|] == c;
    assert IsHistory(history + [d], moves + [move]);
  }

  /** Up to its first scaling call a job adds nothing. */
  lemma ScalingCase(req: Request)
    requires req.licences > 10
    ensures CanBe(Before(req), Case(Scaled(req, 10), false, [], None))
  {
    OneSub(req, 10);
    var s0, found := Before(req), Some(Found(0, 10));
    var c0 := Case(s0, false, [], None);
    var c1, c2, c3, c4 := c0.(work := s0.(pc := FindCustomer)), c0.(work := s0.(pc := ListSubs(0))),
      c0.(work := s0.(pc := ReadBefore(0, found))), c0.(work := s0.(pc := WriteBefore(0, found)));
    assert IsHistory([c0], []);
    Further(s0, c0, c1, Work(Resume));
    Further(s0, c1, c2, Work(Call));
    Further(s0, c2, c3, Work(Call));
    Further(s0, c3, c4, Work(Call));
    Further(s0, c4, c0.(work := Scaled(req, 10)), Work(Call));
  }

  /** The reconciler finds nothing recorded and settles the job with no charge. */
  lemma SettledCase(req: Request)
    requires req.licences > 10
    ensures CanBe(Before(req), Case(Scaled(req, 10), false, [Settler(0, false)], Some(Settler(0, false))))
  {
    var c := Case(Scaled(req, 10), false, [], None);
    var looked := c.(settlers := [Settler(0, false)]);
    ScalingCase(req);
    Further(Before(req), c, looked, ReconcilerSettles);
    Further(Before(req), looked, looked.(settled := Some(Settler(0, false))), MarkSettled(0));
  }

  /** Ten seats, 110 asked for. The worker stalls before its scaling call, the reconciler settles the job with no
      charge, and then the worker goes on: a hundred seats are never charged. */
  lemma StalledWorkerUncharged(domain: Domain, sku: Sku)
    ensures exists start, c ::
              && CanBe(start, c) && c.settled.Some? && c.settled.value.charge == 0
              && SeatsIn(c.work) - SeatsIn(start) == 100
  {
    var req := Request(domain, sku, 110);
    OneSub(req, 10);
    OneSub(req, 110);
    SettledCase(req);
    ScaledOnce(req);
    var settled := Some(Settler(0, false));
    var c := Case(Scaled(req, 10), false, [Settler(0, false)], settled);
    var d := Case(Scaled(req, 110), true, [Settler(0, false)], settled);
    Further(Before(req), c, d, Work(Call));
    assert SeatsIn(d.work) - SeatsIn(Before(req)) == 100;
  }
}
