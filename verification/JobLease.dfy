/** The lease on one job record: claims, heartbeats and settlement by any number of workers. A read, the
    decision on what was read, and the compare-and-swap are three separate steps on one monotone clock. */
module JobLease {
  import opened Shared
  import opened Text

  type Owner = nat

  const CAS_ATTEMPTS: nat := 30

  /** `added` is licences_added, what the job is charged once settled. */
  datatype Record = Record(owner: Option<Owner>, heartbeat: Option<int>, attempts: nat, settled: bool, added: nat)

  datatype Phase =
    | Start
    | Saw(record: Record, version: nat)
    | Willing(record: Record, version: nat, at: int) // will try to write its claim, stamped `at`
    | Claimed
    | Refused

  datatype Claimer = Claimer(owner: Owner, phase: Phase)

  /** `silent`: since the last claim there has been a moment when the heartbeat was at least a lease old. */
  datatype State = State(lease: nat, now: int, record: Record, version: nat, claimers: seq<Claimer>, silent: bool)

  datatype Step =
    | Tick(time: int)
    | Arrive(who: Owner)
    | Read(k: nat)
    | Decide(k: nat)
    | Swap(k: nat)
    | GiveUp(k: nat)
    | Beat(at: int)    // heartbeat(): a field update by anybody, with a time read a little earlier
    | Touch            // any other field update
    | Settle(charge: nat)

  function LastBeat(r: Record): int {
    if r.heartbeat.Some? then r.heartbeat.value else 0
  }

  /** claim(): somebody else holds the job and was heard of within the lease. */
  predicate Busy(r: Record, who: Owner, now: int, lease: nat) {
    r.owner.Some? && r.owner.value != who && LastBeat(r) > now - lease
  }

  /** The record a successful claim writes. */
  function Taken(r: Record, who: Owner, at: int): Record {
    r.(owner := Some(who), heartbeat := Some(at), attempts := r.attempts + 1)
  }

  /** The record mark_settled writes. */
  function Closed(r: Record, charge: nat): Record {
    r.(settled := true, owner := None, added := charge)
  }

  predicate Stale(s: State) {
    s.record.owner.Some? && LastBeat(s.record) <= s.now - s.lease
  }

  /** The step is a compare-and-swap of a claim that goes through. */
  predicate Claims(s: State, step: Step) {
    && step.Swap? && step.k < |s.claimers|
    && s.claimers[step.k].phase.Willing? && s.claimers[step.k].phase.version == s.version
  }

  function At(s: State, k: nat, phase: Phase): State
    requires k < |s.claimers|
  {
    s.(claimers := s.claimers[k := s.claimers[k].(phase := phase)])
  }

  /** Everything but `silent`. */
  ghost predicate Moves(s: State, t: State, step: Step) {
    match step
    case Tick(time) => time >= s.now && t == s.(now := time, silent := t.silent)
    case Arrive(who) => t == s.(claimers := s.claimers + [Claimer(who, Start)], silent := t.silent)
    case Read(k) =>
      && k < |s.claimers| && s.claimers[k].phase.Start?
      && t == At(s, k, Saw(s.record, s.version)).(silent := t.silent)
    case Decide(k) =>
      && k < |s.claimers| && s.claimers[k].phase.Saw?
      && var c := s.claimers[k];
         t == At(s, k, if c.phase.record.settled || Busy(c.phase.record, c.owner, s.now, s.lease) then Refused
                       else Willing(c.phase.record, c.phase.version, s.now)).(silent := t.silent)
    case Swap(k) =>
      && k < |s.claimers| && s.claimers[k].phase.Willing?
      && var c := s.claimers[k];
         t == (if c.phase.version == s.version then
                 At(s, k, Claimed).(record := Taken(c.phase.record, c.owner, c.phase.at), version := s.version + 1)
               else At(s, k, Start)).(silent := t.silent)
    case GiveUp(k) => k < |s.claimers| && s.claimers[k].phase.Start? && t == At(s, k, Refused).(silent := t.silent)
    case Beat(at) =>
      at <= s.now && t == s.(record := s.record.(heartbeat := Some(at)), version := s.version + 1, silent := t.silent)
    case Touch => t == s.(version := s.version + 1, silent := t.silent)
    case Settle(charge) =>
      && !s.record.settled
      && t == s.(record := Closed(s.record, charge), version := s.version + 1, silent := t.silent)
  }

  ghost predicate Next(s: State, t: State, step: Step) {
    Moves(s, t, step) && t.silent == (Stale(t) || (s.silent && !Claims(s, step)))
  }

  ghost predicate Init(s: State) {
    s.record == Record(None, None, 0, false, 0) && s.claimers == [] && !s.silent
  }

  ghost predicate IsRun(run: seq<State>, steps: seq<Step>) {
    && |run| == |steps| + 1
    && Init(run[0])
    && forall i {:trigger steps[i]} :: 0 <= i < |steps| ==> Next(run[i], run[i + 1], steps[i])
  }

  // ---- Invariant ----

  ghost predicate ClaimerOk(s: State, c: Claimer) {
    match c.phase
    case Saw(r, v) => v <= s.version && (v == s.version ==> r == s.record)
    case Willing(r, v, at) =>
      && v <= s.version && !r.settled
      && (v == s.version ==> r == s.record && at <= s.now
                             && (r.owner.Some? && r.owner.value != c.owner ==> s.silent))
    case _ => true
  }

  ghost predicate Inv(s: State) {
    && (Stale(s) ==> s.silent)
    && forall k :: 0 <= k < |s.claimers| ==> ClaimerOk(s, s.claimers[k])
  }

  lemma ClaimerStays(s: State, t: State, step: Step, k: nat)
    requires Inv(s) && Next(s, t, step) && k < |s.claimers| && k < |t.claimers|
    ensures ClaimerOk(t, t.claimers[k])
  {
    assert ClaimerOk(s, s.claimers[k]);
  }

  lemma KeepInv(s: State, t: State, step: Step)
    requires Inv(s) && Next(s, t, step)
    ensures Inv(t) && s.version <= t.version && s.now <= t.now && t.lease == s.lease
  {
    forall k | 0 <= k < |t.claimers| ensures ClaimerOk(t, t.claimers[k]) {
      if k < |s.claimers| {
        ClaimerStays(s, t, step, k);
      }
    }
  }

  lemma {:induction false} RunInv(run: seq<State>, steps: seq<Step>, i: nat)
    requires IsRun(run, steps) && i < |run|
    ensures Inv(run[i])
  {
    if i > 0 {
      RunInv(run, steps, i - 1);
      assert Next(run[i - 1], run[i], steps[i - 1]);
      KeepInv(run[i - 1], run[i], steps[i - 1]);
    }
  }

  // ---- Results ----

  ghost predicate NoClaimsIn(run: seq<State>, steps: seq<Step>, first: nat, last: nat)
    requires |run| == |steps| + 1 && last <= |steps|
  {
    forall n :: first <= n < last ==> !Claims(run[n], steps[n])
  }

  /** What `silent` records really happened. */
  lemma {:induction false} SilentMoment(run: seq<State>, steps: seq<Step>, i: nat) returns (m: nat)
    requires IsRun(run, steps) && i < |run| && run[i].silent
    ensures m <= i && Stale(run[m]) && NoClaimsIn(run, steps, m, i)
  {
    m := i;
    if !Stale(run[i]) {
      assert i > 0;
      assert Next(run[i - 1], run[i], steps[i - 1]);
      m := SilentMoment(run, steps, i - 1);
    }
  }

  /** Between one owner's claim and any later moment at which another owner holds the job there was a
      moment when the heartbeat was at least the lease old. */
  lemma {:induction false} HandoverNeedsSilence(run: seq<State>, steps: seq<Step>, i: nat, j: nat, a: Owner, b: Owner)
    requires IsRun(run, steps) && i < j < |run| && a != b
    requires Claims(run[i], steps[i]) && run[i].claimers[steps[i].k].owner == a
    requires run[j].record.owner == Some(b)
    ensures exists m :: i < m <= j && Stale(run[m])
    decreases j
  {
    var p := j - 1;
    assert Next(run[p], run[j], steps[p]);
    var owner := run[j].record.owner;
    assert p == i ==> owner == Some(a);
    if run[p].record.owner == Some(b) {
      HandoverNeedsSilence(run, steps, i, p, a, b);
    } else {
      RunInv(run, steps, p);
      assert ClaimerOk(run[p], run[p].claimers[steps[p].k]);
      HeldAfterClaim(run, steps, i, p);
      var m := SilentMoment(run, steps, p);
      var claimed := Claims(run[i], steps[i]);
      assert m <= i < p ==> !claimed;
    }
  }

  /** Once claimed, a job has an owner until it is settled. */
  lemma {:induction false} HeldAfterClaim(run: seq<State>, steps: seq<Step>, i: nat, j: nat)
    requires IsRun(run, steps) && i < j < |run| && Claims(run[i], steps[i])
    ensures run[j].record.owner.Some? || run[j].record.settled
    decreases j
  {
    assert Next(run[j - 1], run[j], steps[j - 1]);
    if i < j - 1 {
      HeldAfterClaim(run, steps, i, j - 1);
      RunInv(run, steps, j - 1);
      if steps[j - 1].Swap? {
        assert ClaimerOk(run[j - 1], run[j - 1].claimers[steps[j - 1].k]);
      }
    }
  }

  lemma {:induction false} VersionsGrow(run: seq<State>, steps: seq<Step>, i: nat, j: nat)
    requires IsRun(run, steps) && i <= j < |run|
    ensures run[i].version <= run[j].version
    decreases j
  {
    if i < j {
      VersionsGrow(run, steps, i, j - 1);
      assert Next(run[j - 1], run[j], steps[j - 1]);
    }
  }

  /** A heartbeat that lands between a claimer's read and its write defeats that write. */
  lemma HeartbeatDefeatsClaim(run: seq<State>, steps: seq<Step>, i: nat, n: nat, j: nat, k: nat, v: nat)
    requires IsRun(run, steps) && i <= n < j < |run| && steps[n].Beat?
    requires k < |run[i].claimers| && k < |run[j].claimers|
    requires run[i].claimers[k].phase.Saw? || run[i].claimers[k].phase.Willing?
    requires run[i].claimers[k].phase.version == v
    requires run[j].claimers[k].phase.Willing? && run[j].claimers[k].phase.version == v
    ensures !Claims(run[j], Swap(k))
  {
    RunInv(run, steps, i);
    assert ClaimerOk(run[i], run[i].claimers[k]);
    VersionsGrow(run, steps, i, n);
    assert Next(run[n], run[n + 1], steps[n]);
    VersionsGrow(run, steps, n + 1, j);
  }

  // ---- What a lease is worth ----

  /** The step is heard of: `who` claims the job, or its heartbeat is renewed while `who` holds it, with a clock
      that read `at`. */
  ghost predicate Heard(s: State, step: Step, who: Owner, at: int) {
    || (Claims(s, step) && s.claimers[step.k].owner == who && s.claimers[step.k].phase.at == at)
    || (step == Beat(at) && s.record.owner == Some(who) && !s.record.settled)
  }

  /** Since `at` the job is held by `who`, or settled; and nobody else is about to get it. */
  ghost predicate HeldSince(s: State, who: Owner, at: int) {
    && (if s.record.settled then s.record.owner.None?
        else s.record.owner == Some(who) && s.record.heartbeat.Some? && s.record.heartbeat.value >= at)
    && forall k :: 0 <= k < |s.claimers| && s.claimers[k].phase.Willing? && s.claimers[k].phase.version == s.version ==>
         s.claimers[k].owner == who && s.claimers[k].phase.at >= at
  }

  lemma HeardHolds(s: State, t: State, step: Step, who: Owner, at: int)
    requires Inv(s) && Next(s, t, step) && Heard(s, step, who, at)
    ensures HeldSince(t, who, at) && at <= s.now
  {
    if Claims(s, step) {
      assert ClaimerOk(s, s.claimers[step.k]);
    }
    forall k | 0 <= k < |t.claimers| && t.claimers[k].phase.Willing? ensures t.claimers[k].phase.version != t.version {
      assert ClaimerOk(s, s.claimers[k]);
    }
  }

  lemma HeldOn(s: State, t: State, step: Step, who: Owner, at: int)
    requires Inv(s) && Inv(t) && Next(s, t, step) && HeldSince(s, who, at)
    requires t.now < at + s.lease && (step.Beat? ==> step.at >= at) && at <= s.now <= t.now
    ensures HeldSince(t, who, at)
  {
    forall k | 0 <= k < |t.claimers| && t.claimers[k].phase.Willing? && t.claimers[k].phase.version == t.version
      ensures t.claimers[k].owner == who && t.claimers[k].phase.at >= at
    {
      if k < |s.claimers| {
        assert ClaimerOk(s, s.claimers[k]) && ClaimerOk(t, t.claimers[k]);
      }
    }
  }

  lemma {:induction false} TimeGrows(run: seq<State>, steps: seq<Step>, i: nat, j: nat)
    requires IsRun(run, steps) && i <= j < |run|
    ensures run[i].now <= run[j].now && run[i].lease == run[j].lease
    decreases j
  {
    if i < j {
      TimeGrows(run, steps, i, j - 1);
      assert Next(run[j - 1], run[j], steps[j - 1]);
    }
  }

  lemma {:induction false} HeldWithinLease(run: seq<State>, steps: seq<Step>, i: nat, j: nat, who: Owner, at: int)
    requires IsRun(run, steps) && i < j < |run| && Heard(run[i], steps[i], who, at)
    requires run[j].now < at + run[i].lease
    requires forall m :: i < m < j && steps[m].Beat? ==> steps[m].at >= at
    ensures HeldSince(run[j], who, at)
    decreases j
  {
    assert Next(run[j - 1], run[j], steps[j - 1]);
    RunInv(run, steps, i);
    RunInv(run, steps, j - 1);
    RunInv(run, steps, j);
    TimeGrows(run, steps, i, j - 1);
    assert Next(run[i], run[i + 1], steps[i]);
    HeardHolds(run[i], run[i + 1], steps[i], who, at);
    if j > i + 1 {
      HeldWithinLease(run, steps, i, j - 1, who, at);
      HeldOn(run[j - 1], run[j], steps[j - 1], who, at);
    }
  }

  /** A claim that went through, and every heartbeat of a job that is held, is worth a whole lease from its clock
      reading `at` on, unless an older heartbeat is written over it. Until then the job is its owner's, or settled;
      another owner's claim does not go through; and another owner who looks at the record as it is is refused. */
  lemma LeaseProtects(run: seq<State>, steps: seq<Step>, i: nat, j: nat, who: Owner, at: int)
    requires IsRun(run, steps) && i < j < |run| && Heard(run[i], steps[i], who, at)
    requires run[j].now < at + run[i].lease
    requires forall m :: i < m < j && steps[m].Beat? ==> steps[m].at >= at
    ensures var s := run[j];
            && (if s.record.settled then s.record.owner.None?
                else s.record.owner == Some(who) && s.record.heartbeat.Some? && s.record.heartbeat.value >= at)
            && forall k :: 0 <= k < |s.claimers| && s.claimers[k].owner != who ==>
                 && !Claims(s, Swap(k))
                 && (j < |steps| && steps[j] == Decide(k) && s.claimers[k].phase.version == s.version ==>
                       run[j + 1].claimers[k].phase.Refused?)
  {
    HeldWithinLease(run, steps, i, j, who, at);
    RunInv(run, steps, j);
    TimeGrows(run, steps, i, j);
    if j < |steps| && steps[j].Decide? {
      assert Next(run[j], run[j + 1], steps[j]);
      assert ClaimerOk(run[j], run[j].claimers[steps[j].k]);
    }
  }

  /** A thread that looks at the record as it is goes for the job exactly when that is not settled, and free, its
      own or silent for a lease; and unless another writer gets ahead of it, takes it, with its clock reading as
      the new heartbeat. */
  lemma FreeJobIsTaken(s: State, t: State, u: State, k: nat)
    requires Inv(s) && Next(s, t, Decide(k)) && s.claimers[k].phase.version == s.version
    requires t.claimers[k].phase.Willing? ==> Next(t, u, Swap(k))
    ensures var r, who := s.record, s.claimers[k].owner;
            var heard := if r.heartbeat.Some? then r.heartbeat.value else 0;
            if !r.settled && (r.owner.None? || r.owner.value == who || heard <= s.now - s.lease) then
              && t.claimers[k].phase.Willing? && Claims(t, Swap(k)) && u.claimers[k].phase.Claimed?
              && u.record == Record(Some(who), Some(s.now), r.attempts + 1, false, r.added)
            else t.claimers[k].phase.Refused? && t.record == r
  {
    assert ClaimerOk(s, s.claimers[k]);
  }

  function CountClaims(run: seq<State>, steps: seq<Step>, n: nat): nat
    requires |run| == |steps| + 1 && n <= |steps|
  {
    if n == 0 then 0 else CountClaims(run, steps, n - 1) + (if Claims(run[n - 1], steps[n - 1]) then 1 else 0)
  }

  /** A settled record refuses every claim and stays settled; otherwise only a claim counts an attempt. */
  lemma RecordStep(s: State, t: State, step: Step)
    requires Inv(s) && Next(s, t, step)
    ensures s.record.settled ==> !Claims(s, step) && t.record.settled
    ensures t.record.attempts == s.record.attempts + (if Claims(s, step) then 1 else 0)
    ensures t.record.settled && !s.record.settled ==> t.record.owner.None?
    ensures s.record.settled ==> t.record.owner == s.record.owner
  {
    if step.Swap? {
      assert ClaimerOk(s, s.claimers[step.k]);
    }
  }

  /** `attempts` is the number of claims that went through; a settled job stays settled, unowned, and is
      never claimed again. */
  lemma {:induction false} AttemptsAreClaims(run: seq<State>, steps: seq<Step>, i: nat)
    requires IsRun(run, steps) && i < |run|
    ensures run[i].record.attempts == CountClaims(run, steps, i)
    ensures run[i].record.settled ==> run[i].record.owner.None?
    ensures i < |steps| && run[i].record.settled ==> !Claims(run[i], steps[i]) && run[i + 1].record.settled
  {
    RunInv(run, steps, i);
    if i > 0 {
      AttemptsAreClaims(run, steps, i - 1);
      assert Next(run[i - 1], run[i], steps[i - 1]);
      RunInv(run, steps, i - 1);
      RecordStep(run[i - 1], run[i], steps[i - 1]);
    }
    if i < |steps| {
      assert Next(run[i], run[i + 1], steps[i]);
      RecordStep(run[i], run[i + 1], steps[i]);
    }
  }

  // ---- The retry loops themselves, run by one thread while the others do as they like ----

  datatype ClaimAnswer = TookIt | IsBusy | IsDone | IsMissing // "claimed", "busy", "done", "missing"

  /** What an answer of `claim` says about the record as it stood at history[at], at the time `now`: it is
      busy while somebody else owns it and was heard of less than a lease ago; otherwise it is taken, with
      owner, heartbeat and attempts written and the rest left alone. */
  ghost predicate ClaimedAt(
    history: seq<Option<Record>>, at: nat, now: int, who: Owner, lease: nat, answer: ClaimAnswer)
  {
    && at < |history|
    && (answer.IsMissing? <==> history[at].None?)
    && (history[at].Some? ==>
          var r := history[at].value;
          var heard := if r.heartbeat.Some? then r.heartbeat.value else 0;
          && (answer.IsDone? <==> r.settled)
          && (answer.IsBusy? <==> !r.settled && r.owner.Some? && r.owner.value != who && heard > now - lease)
          && (answer.TookIt? ==>
                && at + 1 < |history|
                && history[at + 1] == Some(Record(Some(who), Some(now), r.attempts + 1, false, r.added))))
  }

  /** So for a whole lease nobody else gets a job that was just claimed. */
  lemma FreshClaimIsBusy(history: seq<Option<Record>>, at: nat, now: int, who: Owner, lease: nat,
                         later: int, other: Owner, answer: ClaimAnswer)
    requires ClaimedAt(history, at, now, who, lease, TookIt)
    requires ClaimedAt(history, at + 1, later, other, lease, answer)
    ensures other != who && later < now + lease ==> answer == IsBusy
    ensures other == who || later >= now + lease ==> answer == TookIt
  {
  }

  /** One turn of the loop; None when another writer got in between the read and the write. */
  method TryToClaim(job: SharedCell<Record>, clock: Clock, who: Owner, lease: nat)
    returns (answer: Option<ClaimAnswer>, ghost at: nat, ghost now: int)
    requires job.Valid()
    modifies job, clock
    ensures job.Valid() && old(job.history) <= job.history && old(clock.now) <= now <= clock.now
    ensures answer.Some? ==> old(|job.history|) <= at + 1 && ClaimedAt(job.history, at, now, who, lease, answer.value)
    ensures answer.None? ==> old(|job.history|) < |job.history|
    ensures job.saves == old(job.saves) + (if answer == Some(TookIt) then 1 else 0)
  {
    var data, version := job.GetVersioned();
    at := |job.history| - 1;
    now := clock.now;
    if data.None? {
      return Some(IsMissing), at, now;
    }
    if data.value.settled {
      return Some(IsDone), at, now;
    }
    var time := clock.Read();
    now := time;
    if Busy(data.value, who, time, lease) {
      return Some(IsBusy), at, now;
    }
    job.OthersRun();
    ghost var before := job.history;
    at := |before| - 1;
    var saved := job.SetIfVersion(Taken(data.value, who, time), Some(version));
    answer := if saved then Some(TookIt) else None;
    assert saved ==> job.history[at] == before[at] == data;
  }

  /** Takes the job exactly as the record stood when it was written, or says why not; "busy" without a live
      owner means that all thirty attempts lost to other writers. */
  method Claim(job: SharedCell<Record>, clock: Clock, who: Owner, lease: nat)
    returns (answer: ClaimAnswer, ghost at: nat, ghost now: int)
    requires job.Valid()
    modifies job, clock
    ensures job.Valid() && old(job.history) <= job.history && old(clock.now) <= now <= clock.now
    ensures || (old(|job.history|) <= at + 1 && ClaimedAt(job.history, at, now, who, lease, answer))
            || (answer.IsBusy? && |job.history| >= old(|job.history|) + 30)
    ensures job.saves == old(job.saves) + (if answer.TookIt? then 1 else 0)
  {
    for attempt := 0 to CAS_ATTEMPTS
      invariant job.Valid() && old(job.history) <= job.history && old(clock.now) <= clock.now
      invariant job.saves == old(job.saves) && |job.history| >= old(|job.history|) + attempt
    {
      var tried;
      tried, at, now := TryToClaim(job, clock, who, lease);
      if tried.Some? {
        return tried.value, at, now;
      }
      job.OthersRun();
    }
    return IsBusy, 0, clock.now;
  }

  datatype Settling = Settled(record: Record) | NotMine | Contention

  ghost predicate SettledAt(history: seq<Option<Record>>, at: nat, charge: nat, r: Settling) {
    && at < |history|
    && match r
       case NotMine => history[at].None? || history[at].value.settled
       case Settled(record) =>
         && history[at].Some? && !history[at].value.settled
         && record == Record(None, history[at].value.heartbeat, history[at].value.attempts, true, charge)
         && at + 1 < |history| && history[at + 1] == Some(record)
       case Contention => false
  }

  /** Flips the flag of an unsettled record exactly as it stood when it was written, or tells that somebody
      else had; it gives up only when all thirty attempts lost to other writers. */
  method MarkSettled(job: SharedCell<Record>, charge: nat) returns (r: Settling, ghost at: nat)
    requires job.Valid()
    modifies job
    ensures job.Valid() && old(job.history) <= job.history
    ensures || (old(|job.history|) <= at + 1 && SettledAt(job.history, at, charge, r))
            || (r.Contention? && |job.history| >= old(|job.history|) + 30)
    ensures job.saves == old(job.saves) + (if r.Settled? then 1 else 0)
  {
    for attempt := 0 to CAS_ATTEMPTS
      invariant job.Valid() && old(job.history) <= job.history
      invariant job.saves == old(job.saves) && |job.history| >= old(|job.history|) + attempt
    {
      var data, version := job.GetVersioned();
      at := |job.history| - 1;
      if data.None? || data.value.settled {
        return NotMine, at;
      }
      job.OthersRun();
      ghost var before := job.history;
      at := |before| - 1;
      var saved := job.SetIfVersion(Closed(data.value, charge), Some(version));
      if saved {
        assert job.history[at] == before[at] == data;
        return Settled(Closed(data.value, charge)), at;
      }
      job.OthersRun();
    }
    return Contention, 0;
  }

  /** Writers that respect the flag: a settled record stays, and stays settled. */
  ghost predicate FlagStays(history: seq<Option<Record>>) {
    forall i :: 0 <= i < |history| - 1 && history[i].Some? && history[i].value.settled ==>
      history[i + 1].Some? && history[i + 1].value.settled
  }

  lemma {:induction false} SettledStays(history: seq<Option<Record>>, i: nat, j: nat)
    requires FlagStays(history) && i <= j < |history| && history[i].Some? && history[i].value.settled
    ensures history[j].Some? && history[j].value.settled
    decreases j
  {
    if i < j {
      SettledStays(history, i, j - 1);
    }
  }

  /** Of all the calls of mark_settled ever made on a job, only one returns it. */
  lemma OneSettlement(history: seq<Option<Record>>, p: nat, q: nat, c: nat, d: nat, r: Settling, r': Settling)
    requires FlagStays(history)
    requires r.Settled? && SettledAt(history, p, c, r) && r'.Settled? && SettledAt(history, q, d, r')
    ensures p == q && r == r'
  {
    if p < q {
      SettledStays(history, p + 1, q);
    } else if q < p {
      SettledStays(history, q + 1, p);
    }
  }
}
