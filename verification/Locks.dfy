/** The expiring lock on one key: acquire, renew and release by any number of threads and servers. A read,
    the decision on what was read, and the conditional write are separate steps on one monotone clock.
    Versions never repeat (the store's `updateTime`); `StaleReleaseBreaksLock` shows why that matters. */
module Locks {
  import opened Shared
  import opened Text
  import opened Values
  import Store

  type Token = nat

  datatype Record = Record(token: Token, expires: int)

  datatype Phase =
    // acquire
    | WillCreate                                              // first write: only if absent
    | WillLook                                                // it was refused
    | SawOther(seen: Option<Record>, version: nat)
    | WillCreateAgain                                         // the record had gone meanwhile
    | WillTakeOver(version: nat)                              // the record had expired
    | Got
    | Refused
    // renew
    | RenewStart
    | RenewSaw(seen: Option<Record>, version: nat)
    | WillRenew(version: nat, expires: int)
    | RenewOver
    // release
    | ReleaseStart
    | ReleaseSaw(seen: Option<Record>, version: nat)
    | ReleaseOver

  /** An acquiring thread's record is `Record(token, expires)`, made before its first write. */
  datatype Thread = Thread(token: Token, expires: int, phase: Phase)

  /** `granted` remembers, for every token that was acquired and not released, the expiry it last wrote. */
  datatype State = State(
    now: int, record: Option<Record>, version: nat,
    threads: seq<Thread>, nextToken: Token, granted: map<Token, int>)

  datatype Step =
    | Tick(time: int)
    | BeginAcquire(ttl: nat)
    | BeginRenew(token: Token)
    | BeginRelease(token: Token)
    | Create(k: nat)
    | Look(k: nat)
    | Judge(k: nat)
    | TakeOver(k: nat)
    | LookToRenew(k: nat)
    | JudgeRenewal(k: nat, ttl: nat)
    | Renew(k: nat)
    | LookToRelease(k: nat)
    | Drop(k: nat)

  function At(s: State, k: nat, phase: Phase): State
    requires k < |s.threads|
  {
    s.(threads := s.threads[k := s.threads[k].(phase := phase)])
  }

  ghost predicate AcquireStep(s: State, t: State, step: Step)
    requires step.Create? || step.Look? || step.Judge? || step.TakeOver?
  {
    var k := step.k;
    && k < |s.threads|
    && var me := s.threads[k];
       match step
       case Create(_) =>
         && (me.phase.WillCreate? || me.phase.WillCreateAgain?)
         && t == if s.record.None? then
                   At(s, k, Got).(record := Some(Record(me.token, me.expires)), version := s.version + 1,
                                  granted := s.granted[me.token := me.expires])
                 else At(s, k, if me.phase.WillCreate? then WillLook else Refused)
       case Look(_) => me.phase.WillLook? && t == At(s, k, SawOther(s.record, s.version))
       case Judge(_) =>
         && me.phase.SawOther?
         && t == At(s, k, if me.phase.seen.None? then WillCreateAgain
                          else if me.phase.seen.value.expires < s.now then WillTakeOver(me.phase.version)
                          else Refused)
       case TakeOver(_) =>
         && me.phase.WillTakeOver?
         && t == if s.record.Some? && s.version == me.phase.version then
                   At(s, k, Got).(record := Some(Record(me.token, me.expires)), version := s.version + 1,
                                  granted := s.granted[me.token := me.expires])
                 else At(s, k, Refused)
  }

  ghost predicate RenewStep(s: State, t: State, step: Step)
    requires step.LookToRenew? || step.JudgeRenewal? || step.Renew?
  {
    var k := step.k;
    && k < |s.threads|
    && var me := s.threads[k];
       match step
       case LookToRenew(_) => me.phase.RenewStart? && t == At(s, k, RenewSaw(s.record, s.version))
       case JudgeRenewal(_, ttl) =>
         && me.phase.RenewSaw?
         && t == At(s, k, if me.phase.seen.None? || me.phase.seen.value.token != me.token then RenewOver
                          else WillRenew(me.phase.version, s.now + ttl))
       case Renew(_) =>
         && me.phase.WillRenew?
         && t == if s.record.Some? && s.version == me.phase.version then
                   At(s, k, RenewOver).(record := Some(s.record.value.(expires := me.phase.expires)),
                                        version := s.version + 1, granted := s.granted[me.token := me.phase.expires])
                 else At(s, k, RenewOver)
  }

  ghost predicate ReleaseStep(s: State, t: State, step: Step)
    requires step.LookToRelease? || step.Drop?
  {
    var k := step.k;
    && k < |s.threads|
    && var me := s.threads[k];
       match step
       case LookToRelease(_) => me.phase.ReleaseStart? && t == At(s, k, ReleaseSaw(s.record, s.version))
       case Drop(_) =>
         && me.phase.ReleaseSaw?
         && t == if me.phase.seen.Some? && me.phase.seen.value.token == me.token
                    && s.record.Some? && s.version == me.phase.version then
                   At(s, k, ReleaseOver).(record := None, version := s.version + 1, granted := s.granted - {me.token})
                 else At(s, k, ReleaseOver)
  }

  ghost predicate Next(s: State, t: State, step: Step) {
    match step
    case Tick(time) => time >= s.now && t == s.(now := time)
    case BeginAcquire(ttl) =>
      t == s.(threads := s.threads + [Thread(s.nextToken, s.now + ttl, WillCreate)], nextToken := s.nextToken + 1)
    case BeginRenew(token) => t == s.(threads := s.threads + [Thread(token, 0, RenewStart)])
    case BeginRelease(token) => t == s.(threads := s.threads + [Thread(token, 0, ReleaseStart)])
    case Create(_) => AcquireStep(s, t, step)
    case Look(_) => AcquireStep(s, t, step)
    case Judge(_) => AcquireStep(s, t, step)
    case TakeOver(_) => AcquireStep(s, t, step)
    case LookToRenew(_) => RenewStep(s, t, step)
    case JudgeRenewal(_, _) => RenewStep(s, t, step)
    case Renew(_) => RenewStep(s, t, step)
    case LookToRelease(_) => ReleaseStep(s, t, step)
    case Drop(_) => ReleaseStep(s, t, step)
  }

  ghost predicate Init(s: State) {
    s.record.None? && s.threads == [] && s.granted == map[]
  }

  ghost predicate IsRun(run: seq<State>, steps: seq<Step>) {
    && |run| == |steps| + 1
    && Init(run[0])
    && forall i {:trigger steps[i]} :: 0 <= i < |steps| ==> Next(run[i], run[i + 1], steps[i])
  }

  // ---- Invariant ----

  ghost predicate SeenOk(s: State, seen: Option<Record>, version: nat) {
    version <= s.version && (version == s.version ==> seen == s.record)
  }

  predicate Acquiring(p: Phase) {
    p.WillCreate? || p.WillLook? || p.SawOther? || p.WillCreateAgain? || p.WillTakeOver?
  }

  ghost predicate ThreadOk(s: State, th: Thread) {
    && (Acquiring(th.phase) ==> th.token < s.nextToken && th.token !in s.granted
                                && (s.record.Some? ==> s.record.value.token != th.token))
    && match th.phase
       case SawOther(seen, v) => SeenOk(s, seen, v)
       case WillTakeOver(v) =>
         v <= s.version && (v == s.version ==> s.record.Some? && s.record.value.expires < s.now)
       case RenewSaw(seen, v) => SeenOk(s, seen, v)
       case WillRenew(v, _) => v <= s.version && (v == s.version ==> s.record.Some? && s.record.value.token == th.token)
       case ReleaseSaw(seen, v) => SeenOk(s, seen, v)
       case _ => true
  }

  /** Acquiring threads have different tokens. */
  ghost predicate FreshTokens(s: State) {
    forall k, l :: 0 <= k < l < |s.threads| && Acquiring(s.threads[k].phase) && Acquiring(s.threads[l].phase) ==>
      s.threads[k].token != s.threads[l].token
  }

  /** The record is its token's last grant, and every grant that is not the record has expired. */
  ghost predicate GrantsOk(s: State) {
    && (s.record.Some? ==>
          s.record.value.token in s.granted && s.granted[s.record.value.token] == s.record.value.expires)
    && (forall token :: token in s.granted ==>
          token < s.nextToken && ((s.record.Some? && s.record.value.token == token) || s.granted[token] < s.now))
  }

  ghost predicate Inv(s: State) {
    && GrantsOk(s) && FreshTokens(s)
    && forall k :: 0 <= k < |s.threads| ==> ThreadOk(s, s.threads[k])
  }

  predicate Writes(step: Step) {
    step.Create? || step.TakeOver? || step.Renew? || step.Drop?
  }

  /** A step that writes nothing leaves every thread but the one that moves in order. */
  lemma BystanderStays(s: State, t: State, step: Step, k: nat)
    requires Inv(s) && Next(s, t, step) && k < |s.threads| && t.threads[k] == s.threads[k] && !Writes(step)
    ensures ThreadOk(t, t.threads[k])
  {
    assert ThreadOk(s, s.threads[k]);
  }

  /** A write moves the version on, so what others saw binds them no longer. */
  lemma OvertakenStays(s: State, t: State, step: Step, k: nat)
    requires Inv(s) && Next(s, t, step) && Writes(step) && k < |s.threads| && k != step.k
    ensures ThreadOk(t, t.threads[k])
  {
    assert ThreadOk(s, s.threads[k]) && ThreadOk(s, s.threads[step.k]);
    var low, high := if k < step.k then k else step.k, if k < step.k then step.k else k;
    assert Acquiring(s.threads[low].phase) && Acquiring(s.threads[high].phase) ==>
        s.threads[low].token != s.threads[high].token;
  }

  lemma MoverStays(s: State, t: State, step: Step, k: nat)
    requires Inv(s) && Next(s, t, step) && k < |t.threads|
    requires !step.Tick? && (step.BeginAcquire? || step.BeginRenew? || step.BeginRelease? || k == step.k)
    requires k < |s.threads| ==> !(step.BeginAcquire? || step.BeginRenew? || step.BeginRelease?)
    ensures ThreadOk(t, t.threads[k])
  {
    if k < |s.threads| {
      assert ThreadOk(s, s.threads[k]);
    }
  }

  lemma ThreadStays(s: State, t: State, step: Step, k: nat)
    requires Inv(s) && Next(s, t, step) && k < |t.threads|
    ensures ThreadOk(t, t.threads[k])
  {
    match step
    case Tick(_) => BystanderStays(s, t, step, k);
    case BeginAcquire(_) => if k < |s.threads| { BystanderStays(s, t, step, k); } else { MoverStays(s, t, step, k); }
    case BeginRenew(_) => if k < |s.threads| { BystanderStays(s, t, step, k); } else { MoverStays(s, t, step, k); }
    case BeginRelease(_) => if k < |s.threads| { BystanderStays(s, t, step, k); } else { MoverStays(s, t, step, k); }
    case _ =>
      if k == step.k {
        MoverStays(s, t, step, k);
      } else if Writes(step) {
        OvertakenStays(s, t, step, k);
      } else {
        BystanderStays(s, t, step, k);
      }
  }

  lemma KeepInv(s: State, t: State, step: Step)
    requires Inv(s) && Next(s, t, step)
    ensures Inv(t)
  {
    forall k | 0 <= k < |t.threads| ensures ThreadOk(t, t.threads[k]) {
      ThreadStays(s, t, step, k);
    }
    GrantsStay(s, t, step);
    TokensStayFresh(s, t, step);
  }

  lemma GrantsStay(s: State, t: State, step: Step)
    requires Inv(s) && Next(s, t, step)
    ensures GrantsOk(t)
  {
    if step.Create? || step.TakeOver? || step.Renew? || step.Drop? {
      assert ThreadOk(s, s.threads[step.k]);
    }
  }

  lemma TokensStayFresh(s: State, t: State, step: Step)
    requires Inv(s) && Next(s, t, step)
    ensures FreshTokens(t)
  {
    forall k, l | 0 <= k < l < |t.threads| && Acquiring(t.threads[k].phase) && Acquiring(t.threads[l].phase)
      ensures t.threads[k].token != t.threads[l].token
    {
      assert ThreadOk(s, s.threads[k]);
    }
  }

  lemma {:induction false} RunInv(run: seq<State>, steps: seq<Step>, i: nat)
    requires IsRun(run, steps) && i < |run|
    ensures Inv(run[i])
  {
    if i > 0 {
      RunInv(run, steps, i - 1);
      assert Next(run[i - 1], run[i], steps[i - 1]);
      KeepInv(run[i - 1], run[i], steps[i - 1]);
    }
  }

  // ---- Results ----

  /** The holder of `token` may still believe in its lock: acquired, not released, last expiry not past. */
  predicate Live(s: State, token: Token) {
    token in s.granted && s.granted[token] >= s.now
  }

  /** Mutual exclusion: at most one token is live, and its record is the one stored. */
  lemma OneLiveHolder(run: seq<State>, steps: seq<Step>, i: nat, a: Token, b: Token)
    requires IsRun(run, steps) && i < |run| && Live(run[i], a) && Live(run[i], b)
    ensures a == b && run[i].record == Some(Record(a, run[i].granted[a]))
  {
    RunInv(run, steps, i);
  }

  /** Whatever the interleaving, a record only changes hands in three ways: a token is granted where there
      was no record or an expired one; its own holder extends it; its own holder removes it. */
  lemma OnlyOwnerOrExpiry(run: seq<State>, steps: seq<Step>, i: nat)
    requires IsRun(run, steps) && i < |steps| && run[i + 1].record != run[i].record
    ensures var s, t := run[i], run[i + 1];
            && (steps[i].Create? || steps[i].TakeOver? || steps[i].Renew? || steps[i].Drop?)
            && steps[i].k < |s.threads|
            && var me := s.threads[steps[i].k];
               if steps[i].Create? || steps[i].TakeOver? then
                 && t.record == Some(Record(me.token, me.expires))
                 && (s.record.Some? ==> s.record.value.expires < s.now && s.record.value.token != me.token)
               else
                 && s.record.Some? && s.record.value.token == me.token
                 && (t.record.Some? ==> steps[i].Renew? && t.record.value.token == me.token)
  {
    RunInv(run, steps, i);
    assert Next(run[i], run[i + 1], steps[i]);
    assert ThreadOk(run[i], run[i].threads[steps[i].k]);
  }

  /** A first write takes the lock exactly when there is no record, with a fresh token, for as long as was asked;
      and then the token is live. */
  lemma AbsentLockIsTaken(s: State, t: State, u: State, ttl: nat)
    requires Inv(s) && Next(s, t, BeginAcquire(ttl)) && Next(t, u, Create(|s.threads|))
    ensures s.nextToken !in s.granted
    ensures if s.record.None? then
              && u.threads[|s.threads|].phase.Got? && u.record == Some(Record(s.nextToken, s.now + ttl))
              && Live(u, s.nextToken)
            else u.record == s.record && !u.threads[|s.threads|].phase.Got?
  {
  }

  /** A thread that judges the record as it is, and that nobody gets ahead of, takes the lock exactly when the
      record has gone or has expired by then; otherwise it is refused. */
  lemma ExpiredLockIsTaken(s: State, t: State, u: State, k: nat)
    requires Inv(s) && Next(s, t, Judge(k)) && s.threads[k].phase.version == s.version
    requires t.threads[k].phase.WillCreateAgain? ==> Next(t, u, Create(k))
    requires t.threads[k].phase.WillTakeOver? ==> Next(t, u, TakeOver(k))
    ensures if s.record.None? || s.record.value.expires < s.now then
              && !t.threads[k].phase.Refused? && u.threads[k].phase.Got?
              && u.record == Some(Record(s.threads[k].token, s.threads[k].expires))
            else t.threads[k].phase.Refused? && t.record == s.record
  {
    assert ThreadOk(s, s.threads[k]);
  }

  /** A renewal that sees the record as it is, and that nobody gets ahead of, extends it exactly when it is the
      holder's own. */
  lemma OwnLockIsExtended(s: State, t: State, u: State, k: nat, ttl: nat)
    requires Inv(s) && Next(s, t, JudgeRenewal(k, ttl)) && s.threads[k].phase.version == s.version
    requires t.threads[k].phase.WillRenew? ==> Next(t, u, Renew(k))
    ensures if s.record.Some? && s.record.value.token == s.threads[k].token then
              && t.threads[k].phase.WillRenew?
              && u.record == Some(Record(s.threads[k].token, s.now + ttl))
            else t.threads[k].phase.RenewOver? && t.record == s.record
  {
    assert ThreadOk(s, s.threads[k]);
  }

  /** The step writes the stored record, or removes it. */
  predicate TakesEffect(s: State, step: Step) {
    match step
    case Create(k) => k < |s.threads| && s.record.None?
    case TakeOver(k) =>
      k < |s.threads| && s.threads[k].phase.WillTakeOver? && s.record.Some? && s.version == s.threads[k].phase.version
    case Renew(k) =>
      k < |s.threads| && s.threads[k].phase.WillRenew? && s.record.Some? && s.version == s.threads[k].phase.version
    case Drop(k) =>
      && k < |s.threads| && s.threads[k].phase.ReleaseSaw? && s.record.Some? && s.version == s.threads[k].phase.version
      && s.threads[k].phase.seen.Some? && s.threads[k].phase.seen.value.token == s.threads[k].token
    case _ => false
  }

  lemma EffectStep(s: State, t: State, step: Step)
    requires Next(s, t, step)
    ensures t.version == s.version + (if TakesEffect(s, step) then 1 else 0)
    ensures !TakesEffect(s, step) ==> t.record == s.record
  {
  }

  /** Which steps of the run took effect. */
  function Effects(run: seq<State>, steps: seq<Step>): (effects: seq<bool>)
    requires |run| == |steps| + 1
    ensures |effects| == |steps| && forall m :: 0 <= m < |steps| ==> effects[m] == TakesEffect(run[m], steps[m])
  {
    seq(|steps|, m requires 0 <= m < |steps| => TakesEffect(run[m], steps[m]))
  }

  /** Along the run the version counts the effects, and the record waits for one. */
  ghost predicate Counted(run: seq<State>, effects: seq<bool>) {
    && |run| == |effects| + 1
    && forall m {:trigger effects[m]} :: 0 <= m < |effects| ==>
         && run[m + 1].version == run[m].version + (if effects[m] then 1 else 0)
         && (!effects[m] ==> run[m + 1].record == run[m].record)
  }

  lemma RunCounted(run: seq<State>, steps: seq<Step>)
    requires IsRun(run, steps)
    ensures Counted(run, Effects(run, steps))
  {
    forall m | 0 <= m < |steps|
      ensures run[m + 1].version == run[m].version + (if Effects(run, steps)[m] then 1 else 0)
      ensures !Effects(run, steps)[m] ==> run[m + 1].record == run[m].record
    {
      EffectStep(run[m], run[m + 1], steps[m]);
    }
  }

  /** The version moves exactly when a write takes effect, and the record only then. */
  lemma {:induction false} VersionCounts(run: seq<State>, effects: seq<bool>, i: nat, j: nat)
    requires Counted(run, effects) && i < j <= |effects|
    ensures run[j].version > run[i + 1].version <==> true in effects[i + 1..j]
    ensures run[j].version >= run[i + 1].version
    ensures true !in effects[i + 1..j] ==> run[j].record == run[i + 1].record
    decreases j
  {
    if i + 1 < j {
      VersionCounts(run, effects, i, j - 1);
      assert effects[i + 1..j] == effects[i + 1..j - 1] + [effects[j - 1]];
    }
  }

  /** Somebody's write took effect after step i and before step j. */
  ghost predicate EffectBetween(run: seq<State>, steps: seq<Step>, i: nat, j: nat)
    requires |run| == |steps| + 1 && j <= |steps|
  {
    exists m :: i < m < j && TakesEffect(run[m], steps[m])
  }

  lemma EffectsBetween(run: seq<State>, steps: seq<Step>, i: nat, j: nat)
    requires |run| == |steps| + 1 && i < j <= |steps|
    ensures EffectBetween(run, steps, i, j) <==> true in Effects(run, steps)[i + 1..j]
  {
    var effects := Effects(run, steps);
    if EffectBetween(run, steps, i, j) {
      var m :| i < m < j && TakesEffect(run[m], steps[m]);
      assert effects[i + 1..j][m - i - 1] == effects[m];
    }
    if true in effects[i + 1..j] {
      var n :| 0 <= n < |effects[i + 1..j]| && effects[i + 1..j][n];
      assert effects[i + 1 + n];
    }
  }

  /** A holder's release removes its record exactly when no write of anybody took effect since its read; its
      own renewal is such a write. Otherwise the conditional delete changes nothing. */
  lemma ReleaseTakesEffectIff(run: seq<State>, steps: seq<Step>, i: nat, j: nat, k: nat)
    requires IsRun(run, steps) && i < j < |steps|
    requires steps[i] == LookToRelease(k) && steps[j] == Drop(k) && run[j].threads[k] == run[i + 1].threads[k]
    requires run[i].record.Some? && run[i].record.value.token == run[i].threads[k].token
    ensures run[j + 1].record.None? && run[j].record.Some? <==> !EffectBetween(run, steps, i, j)
    ensures EffectBetween(run, steps, i, j) ==> run[j + 1].record == run[j].record
  {
    assert Next(run[i], run[i + 1], steps[i]) && Next(run[j], run[j + 1], steps[j]);
    RunCounted(run, steps);
    VersionCounts(run, Effects(run, steps), i, j);
    EffectsBetween(run, steps, i, j);
  }

  ghost predicate Reachable(s: State) {
    exists run, steps :: IsRun(run, steps) && run[|steps|] == s
  }

  lemma Onward(s: State, t: State, step: Step)
    requires Reachable(s) && Next(s, t, step)
    ensures Reachable(t)
  {
    var run, steps :| IsRun(run, steps) && run[|steps|] == s;
    assert IsRun(run + [t], steps + [step]);
  }

  /** One holder, which has read its record in order to release it. */
  const RELEASING := State(
    0, Some(Record(0, 10)), 1,
    [Thread(0, 10, Got), Thread(0, 0, ReleaseSaw(Some(Record(0, 10)), 1))], 1, map[0 := 10])

  lemma ReleasingIsReachable()
    ensures Reachable(RELEASING)
  {
    var s0 := State(0, None, 0, [], 0, map[]);
    var s1 := s0.(threads := [Thread(0, 10, WillCreate)], nextToken := 1);
    var s2 := RELEASING.(threads := [Thread(0, 10, Got)]);
    var s3 := RELEASING.(threads := [Thread(0, 10, Got), Thread(0, 0, ReleaseStart)]);
    assert IsRun([s0], []);
    Onward(s0, s1, BeginAcquire(10));
    Onward(s1, s2, Create(0));
    Onward(s2, s3, BeginRelease(0));
    Onward(s3, RELEASING, LookToRelease(1));
  }

  const RENEWED := RELEASING.(
    threads := RELEASING.threads + [Thread(0, 0, RenewOver)], record := Some(Record(0, 20)), version := 2,
    granted := map[0 := 20])

  lemma RenewedIsReachable()
    ensures Reachable(RENEWED)
  {
    var s := RELEASING;
    var s1 := s.(threads := s.threads + [Thread(0, 0, RenewStart)]);
    var s2 := s.(threads := s.threads + [Thread(0, 0, RenewSaw(Some(Record(0, 10)), 1))]);
    var s3 := s.(threads := s.threads + [Thread(0, 0, WillRenew(1, 20))]);
    ReleasingIsReachable();
    Onward(s, s1, BeginRenew(0));
    Onward(s1, s2, LookToRenew(2));
    Onward(s2, s3, JudgeRenewal(2, 20));
    Onward(s3, RENEWED, Renew(2));
  }

  /** A heartbeat's renewal gets in between, and the holder's own release leaves the lock in place. */
  lemma RenewalLosesRelease()
    ensures exists s, t ::
              && Reachable(s) && Next(s, t, Drop(1)) && t.threads[1].phase == ReleaseOver
              && s.record.Some? && s.record.value.token == s.threads[1].token && t.record == s.record
  {
    RenewedIsReachable();
    assert Next(RENEWED, At(RENEWED, 1, ReleaseOver), Drop(1));
  }

  // ---- What non-repeating versions are needed for ----

  /** The in-memory store drops the version counter with the document: after an effective release it is 0,
      as `Store.InMemoryStore.DeleteIfVersion` leaves it, and the next create makes it 1 again. */
  ghost predicate RecyclingNext(s: State, t: State, step: Step) {
    exists u :: Next(s, u, step) && t == if step.Drop? && u.record != s.record then u.(version := 0) else u
  }

  ghost predicate IsRecyclingRun(run: seq<State>, steps: seq<Step>) {
    && |run| == |steps| + 1
    && Init(run[0])
    && forall i {:trigger steps[i]} :: 0 <= i < |steps| ==> RecyclingNext(run[i], run[i + 1], steps[i])
  }

  ghost predicate RecyclingReachable(s: State) {
    exists run, steps :: IsRecyclingRun(run, steps) && run[|steps|] == s
  }

  lemma RecyclingOnward(s: State, t: State, step: Step)
    requires RecyclingReachable(s) && RecyclingNext(s, t, step)
    ensures RecyclingReachable(t)
  {
    var run, steps :| IsRecyclingRun(run, steps) && run[|steps|] == s;
    assert IsRecyclingRun(run + [t], steps + [step]);
  }

  lemma PlainOnward(s: State, t: State, step: Step)
    requires RecyclingReachable(s) && Next(s, t, step) && !step.Drop?
    ensures RecyclingReachable(t)
  {
    assert RecyclingNext(s, t, step);
    RecyclingOnward(s, t, step);
  }

  /** The threads of the story below: A's acquire and its release, B's acquire and its release, C's acquire. */
  function Cast(a: Phase, releaseA: Phase, others: seq<Thread>): seq<Thread> {
    [Thread(0, 10, a), Thread(0, 0, releaseA)] + others
  }

  const A_SAW := ReleaseSaw(Some(Record(0, 10)), 1)

  /** A holds the lock and has read its record in order to release it, at version 1. */
  lemma AReleases()
    ensures RecyclingReachable(State(0, Some(Record(0, 10)), 1, Cast(Got, A_SAW, []), 1, map[0 := 10]))
  {
    var s0 := State(0, None, 0, [], 0, map[]);
    var s1 := s0.(threads := [Thread(0, 10, WillCreate)], nextToken := 1);
    var s2 := State(0, Some(Record(0, 10)), 1, [Thread(0, 10, Got)], 1, map[0 := 10]);
    var s3 := s2.(threads := Cast(Got, ReleaseStart, []));
    var s4 := s2.(threads := Cast(Got, A_SAW, []));
    assert IsRecyclingRun([s0], []);
    PlainOnward(s0, s1, BeginAcquire(10));
    PlainOnward(s1, s2, Create(0));
    PlainOnward(s2, s3, BeginRelease(0));
    PlainOnward(s3, s4, LookToRelease(1));
  }

  /** A's lock expires, and B takes it over. */
  lemma BTakesOver()
    ensures RecyclingReachable(State(11, Some(Record(1, 21)), 2, Cast(Got, A_SAW, [Thread(1, 21, Got)]), 2,
                                     map[0 := 10, 1 := 21]))
  {
    var s0 := State(0, Some(Record(0, 10)), 1, Cast(Got, A_SAW, []), 1, map[0 := 10]);
    AReleases();
    var s1 := s0.(now := 11);
    var s2 := s1.(threads := Cast(Got, A_SAW, [Thread(1, 21, WillCreate)]), nextToken := 2);
    var s3 := s2.(threads := Cast(Got, A_SAW, [Thread(1, 21, WillLook)]));
    var s4 := s2.(threads := Cast(Got, A_SAW, [Thread(1, 21, SawOther(Some(Record(0, 10)), 1))]));
    var s5 := s2.(threads := Cast(Got, A_SAW, [Thread(1, 21, WillTakeOver(1))]));
    var s6 := State(11, Some(Record(1, 21)), 2, Cast(Got, A_SAW, [Thread(1, 21, Got)]), 2, map[0 := 10, 1 := 21]);
    PlainOnward(s0, s1, Tick(11));
    PlainOnward(s1, s2, BeginAcquire(10));
    PlainOnward(s2, s3, Create(2));
    PlainOnward(s3, s4, Look(2));
    PlainOnward(s4, s5, Judge(2));
    PlainOnward(s5, s6, TakeOver(2));
  }

  /** B is done, and its record is gone: the counter is back at 0. */
  lemma BReleases()
    ensures RecyclingReachable(
              State(11, None, 0, Cast(Got, A_SAW, [Thread(1, 21, Got), Thread(1, 0, ReleaseOver)]), 2, map[0 := 10]))
  {
    var b := Thread(1, 21, Got);
    var s0 := State(11, Some(Record(1, 21)), 2, Cast(Got, A_SAW, [b]), 2, map[0 := 10, 1 := 21]);
    BTakesOver();
    var s1 := s0.(threads := Cast(Got, A_SAW, [b, Thread(1, 0, ReleaseStart)]));
    var s2 := s0.(threads := Cast(Got, A_SAW, [b, Thread(1, 0, ReleaseSaw(Some(Record(1, 21)), 2))]));
    var s3 := State(11, None, 0, Cast(Got, A_SAW, [b, Thread(1, 0, ReleaseOver)]), 2, map[0 := 10]);
    PlainOnward(s0, s1, BeginRelease(1));
    PlainOnward(s1, s2, LookToRelease(3));
    assert Next(s2, s3.(version := 3), Drop(3)) by {
      assert map[0 := 10, 1 := 21] - {1} == map[0 := 10];
    }
    assert RecyclingNext(s2, s3, Drop(3));
    RecyclingOnward(s2, s3, Drop(3));
  }

  /** C acquires: the counter is at 1 once more. */
  lemma CAcquires()
    ensures RecyclingReachable(
              State(11, Some(Record(2, 21)), 1,
                    Cast(Got, A_SAW, [Thread(1, 21, Got), Thread(1, 0, ReleaseOver), Thread(2, 21, Got)]), 3,
                    map[0 := 10, 2 := 21]))
  {
    var b, over, c := Thread(1, 21, Got), Thread(1, 0, ReleaseOver), Thread(2, 21, Got);
    BReleases();
    var s3 := State(11, None, 0, Cast(Got, A_SAW, [b, over]), 2, map[0 := 10]);
    var s4 := s3.(threads := Cast(Got, A_SAW, [b, over, c.(phase := WillCreate)]), nextToken := 3);
    var s5 := State(11, Some(Record(2, 21)), 1, Cast(Got, A_SAW, [b, over, c]), 3, map[0 := 10, 2 := 21]);
    PlainOnward(s3, s4, BeginAcquire(10));
    PlainOnward(s4, s5, Create(4));
  }

  /** In a store that restarts its counter after a deletion, a release that was overtaken removes a stranger's
      lock. A acquires and reads its record to release it. Its lock expires, B takes it over and releases it;
      C acquires. A's conditional delete still fits: C's lock is live, and gone. */
  lemma StaleReleaseBreaksLock()
    ensures exists s, t ::
              && RecyclingReachable(s) && RecyclingNext(s, t, Drop(1)) && s.threads[1].token == 0
              && s.record.Some? && s.record.value.token == 2 && Live(t, 2) && t.record.None?
  {
    CAcquires();
    var others := [Thread(1, 21, Got), Thread(1, 0, ReleaseOver), Thread(2, 21, Got)];
    var s := State(11, Some(Record(2, 21)), 1, Cast(Got, A_SAW, others), 3, map[0 := 10, 2 := 21]);
    var u := State(11, None, 2, Cast(Got, ReleaseOver, others), 3, map[2 := 21]);
    assert Next(s, u, Drop(1)) by {
      assert map[0 := 10, 2 := 21] - {0} == map[2 := 21];
    }
    var t := u.(version := 0);
    assert RecyclingNext(s, t, Drop(1));
  }

  /** The token arithmetic behind it: what the in-memory store makes of such a history. */
  lemma StaleTokenFits(a: Doc, b: Doc, c: Doc)
    ensures var read := Store.Written(Store.ABSENT, a);
            var now := Store.After(read, [Store.Put(b), Store.Drop, Store.Put(c)]);
            now.doc == Some(c) && Store.DropAllowed(now, Store.Count(read))
  {
    var h := [Store.Put(b), Store.Drop, Store.Put(c)];
    assert Store.PutsAtEnd(h[..2]) == 0;
    assert h[1] == Store.Drop;
    Store.TokenAcceptedIff(Store.Written(Store.ABSENT, a), h);
  }

  // ---- The calls themselves, run by one thread while the others do as they like ----

  /** Since `first` only the content at `own` may be one's own. */
  ghost predicate OnlyOwnAt(lock: SharedCell<Record>, first: nat, own: nat)
    reads lock
  {
    forall i :: first <= i < |lock.history| && i != own && lock.history[i].Some? ==> !lock.mine(lock.history[i].value)
  }

  /** Grants the token where, at the very write, there was no record or one that had expired; with nobody else
      writing, refuses only a record that has not. */
  method Acquire(lock: SharedCell<Record>, clock: Clock, token: Token, ttl: nat)
    returns (ok: bool, ghost at: nat, ghost began: int, ghost now: int)
    requires lock.Valid()
    modifies lock, clock
    ensures lock.Valid() && old(lock.history) <= lock.history
    ensures old(clock.now) <= began <= now <= clock.now && old(|lock.history|) <= at + 1
    ensures ok ==> at + 1 < |lock.history| && lock.history[at + 1] == Some(Record(token, began + ttl))
                   && (lock.history[at].Some? ==> lock.history[at].value.expires < now)
    ensures !ok && |lock.history| == old(|lock.history|) ==>
              at < |lock.history| && lock.history[at].Some? && lock.history[at].value.expires >= now
    ensures lock.saves == old(lock.saves) + (if ok then 1 else 0)
    ensures if ok then OnlyOwnAt(lock, old(|lock.history|), at + 1) else lock.Foreign(old(|lock.history|))
  {
    var start := clock.Read();
    began, now := start, start;
    var record := Record(token, start + ttl);
    at := |lock.history| - 1;
    ok := lock.SetIfVersion(record, None);
    if ok {
      return;
    }
    lock.OthersRun();
    var current, version := lock.GetVersioned();
    if current.None? {
      lock.OthersRun();
      at := |lock.history| - 1;
      ok := lock.SetIfVersion(record, None);
      return;
    }
    at := |lock.history| - 1;
    var time := clock.Read();
    now := time;
    if current.value.expires < time {
      lock.OthersRun();
      ghost var before := lock.history;
      at := |before| - 1;
      ok := lock.SetIfVersion(record, Some(version));
      assert ok ==> lock.history[at] == before[at] == current;
    }
  }

  /** Extends the lock only while the stored record is the caller's own. */
  method Extend(lock: SharedCell<Record>, clock: Clock, token: Token, ttl: nat)
    returns (ok: bool, ghost at: nat, ghost now: int)
    requires lock.Valid()
    modifies lock, clock
    ensures lock.Valid() && old(lock.history) <= lock.history
    ensures old(clock.now) <= now <= clock.now && old(|lock.history|) <= at + 1 <= |lock.history|
    ensures ok ==> at + 1 < |lock.history| && lock.history[at].Some? && lock.history[at].value.token == token
                   && lock.history[at + 1] == Some(Record(token, now + ttl))
    ensures !ok ==>
              |lock.history| > old(|lock.history|) || lock.history[at].None? || lock.history[at].value.token != token
    ensures lock.saves == old(lock.saves) + (if ok then 1 else 0)
  {
    var current, version := lock.GetVersioned();
    at := |lock.history| - 1;
    now := clock.now;
    if current.None? || current.value.token != token {
      return false, at, now;
    }
    var time := clock.Read();
    now := time;
    lock.OthersRun();
    ghost var before := lock.history;
    at := |before| - 1;
    ok := lock.SetIfVersion(current.value.(expires := time + ttl), Some(version));
    assert ok ==> lock.history[at] == before[at] == current;
  }

  /** Removes the record only when it is the caller's own at the very write; its own lock survives only if
      another writer got in between. */
  method Release(lock: SharedCell<Record>, token: Token) returns (ghost at: nat)
    requires lock.Valid()
    modifies lock
    ensures lock.Valid() && old(lock.history) <= lock.history && old(|lock.history|) <= at + 1 <= |lock.history|
    ensures lock.Foreign(old(|lock.history|))
    ensures lock.saves == old(lock.saves) || lock.saves == old(lock.saves) + 1
    ensures lock.saves > old(lock.saves) ==> at + 1 < |lock.history| && lock.history[at].Some?
                                             && lock.history[at].value.token == token && lock.history[at + 1].None?
    ensures lock.saves == old(lock.saves) ==>
              |lock.history| > old(|lock.history|) || lock.history[at].None? || lock.history[at].value.token != token
  {
    var current, version := lock.GetVersioned();
    at := |lock.history| - 1;
    if current.Some? && current.value.token == token {
      lock.OthersRun();
      ghost var before := lock.history;
      at := |before| - 1;
      var gone := lock.DeleteIfVersion(version);
      assert gone ==> lock.history[at] == before[at] == current;
    }
  }
}
