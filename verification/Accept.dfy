/** One call of `accept`, on the partner's counter, the domain lock and the idempotency record, while all other
    threads do as they like between its calls. Every call into a store or a queue may raise instead, without
    effect. */
module Accept {
  import opened PlanSlots
  import opened Quota
  import opened Shared
  import opened Text
  import Idempotency
  import Locks

  datatype ClaimAnswer = KeyClaimed | SameRequest | OtherRequest | ClaimRaises
  datatype LockAnswer = Granted | Busy | LockRaises
  datatype SlotAnswer = Slot(first: nat) | SlotContended | SlotRaises
  datatype CutAnswer = Cut | CutContended | CutRaises

  /** What the stores and queues do not decide: which calls raise or meet contention, which slot the counter
      hands out, and whether the request is the one a used key was used for. The three clean-up calls are made at
      most once each. */
  datatype Faults = Faults(
    claimRaises: bool,
    sameRequest: bool,
    lockRaises: bool,
    reserveContended: bool,
    reserveRaises: bool,
    slot: SlotAnswer,
    cut: CutAnswer,
    createRaises: bool,
    dispatchRaises: bool,
    giveBackRaises: bool,
    releaseRaises: bool,
    forgetRaises: bool)

  /** The faults, and how key, lock and counter answered. */
  datatype World = World(f: Faults, claim: ClaimAnswer, lock: LockAnswer, reserve: ReserveAnswer)

  datatype Settings = Settings(planMix: bool, every: int, commitmentCap: nat, flexibleCap: nat)

  /** `plan`: the client named one. `bulkPlan` is the plan a bulk call has already chosen. */
  datatype Request = Request(seats: nat, hasKey: bool, plan: bool, bulkPlan: Option<Plan>)

  datatype Exit = Accepted(seats: nat) | Replayed | Raised(status: nat)

  /** `check_plan_rules`. */
  predicate RulesHold(q: Request, cfg: Settings) {
    if cfg.planMix then q.seats <= cfg.flexibleCap else q.plan
  }

  predicate PlanIsCommitment(q: Request, cfg: Settings, f: Faults) {
    if q.bulkPlan.Some? then q.bulkPlan.value.Commitment?
    else f.slot.Slot? && PlanForSlot(f.slot.first + 1, cfg.every).Commitment?
  }

  /** The plan mix takes the slot's plan and cuts a commitment domain down to its cap. */
  predicate IsCut(q: Request, cfg: Settings, f: Faults) {
    cfg.planMix && PlanIsCommitment(q, cfg, f) && q.seats > cfg.commitmentCap
  }

  predicate SlotFails(q: Request, cfg: Settings, f: Faults) {
    cfg.planMix && q.bulkPlan.None? && !f.slot.Slot?
  }

  /** Between the reservation and the stored job something fails. */
  predicate FailsBeforeJob(q: Request, cfg: Settings, f: Faults) {
    SlotFails(q, cfg, f) || (IsCut(q, cfg, f) && !f.cut.Cut?) || f.createRaises
  }

  /** Everything up to and including the reservation went well. */
  predicate HoldsSeats(q: Request, cfg: Settings, w: World) {
    RulesHold(q, cfg) && (q.hasKey ==> w.claim.KeyClaimed?) && w.lock.Granted? && w.reserve.Reserved?
  }

  predicate StoresJob(q: Request, cfg: Settings, w: World) {
    HoldsSeats(q, cfg, w) && !FailsBeforeJob(q, cfg, w.f)
  }

  /** The failures `accept` does not undo, each at the guard of the branch that meets it. */
  predicate LeavesTraces(q: Request, cfg: Settings, w: World) {
    if !RulesHold(q, cfg) || (q.hasKey && !w.claim.KeyClaimed?) then false
    else if w.lock.LockRaises? then q.hasKey
    else if w.lock.Busy? then q.hasKey && w.f.forgetRaises
    else if w.reserve.ReserveRaises? then true
    else if !w.reserve.Reserved? then CleanUpRaises(q, w.f)
    else if FailsBeforeJob(q, cfg, w.f) then w.f.giveBackRaises || CleanUpRaises(q, w.f)
    else w.f.dispatchRaises // the job stays stored
  }

  /** No call that is made raises or meets contention. */
  predicate Sound(q: Request, cfg: Settings, f: Faults) {
    && !(q.hasKey && f.claimRaises) && !f.lockRaises && !f.reserveContended && !f.reserveRaises
    && (cfg.planMix && q.bulkPlan.None? ==> f.slot.Slot?)
    && (cfg.planMix && q.seats > cfg.commitmentCap ==> f.cut.Cut?)
    && !f.createRaises && !f.dispatchRaises
  }

  predicate CleanUpRaises(q: Request, f: Faults) {
    f.releaseRaises || (q.hasKey && f.forgetRaises)
  }

  /** When a call that raises has which status; refused, busy or contended, everything is undone. */
  predicate Says(q: Request, cfg: Settings, w: World, status: nat) {
    && status in {400, 409, 422, 500, 503}
    && (status in {400, 409, 503} ==> !LeavesTraces(q, cfg, w))
    && (status == 422 <==> !RulesHold(q, cfg))
    && (status == 400 <==> w.reserve.TooMany? && !CleanUpRaises(q, w.f))
    && (status == 409 <==> w.claim.OtherRequest? || (w.lock.Busy? && !(q.hasKey && w.f.forgetRaises)))
    && (status == 503 <==>
          !CleanUpRaises(q, w.f) && (w.reserve.Contended? || (w.reserve.Reserved? && !w.f.giveBackRaises
                                                              && MeetsContention(q, cfg, w.f))))
  }

  /** After the reservation the call met contention, on the slot counter or on the cut. */
  predicate MeetsContention(q: Request, cfg: Settings, f: Faults) {
    if SlotFails(q, cfg, f) then f.slot.SlotContended? else IsCut(q, cfg, f) && f.cut.CutContended?
  }

  /** Key and lock were had, and the reservation answered. */
  function Then(f: Faults, reserve: ReserveAnswer): World {
    World(f, KeyClaimed, Granted, reserve)
  }

  // ---- The stores ----

  /** How often lock and key have been written, by anybody and by us, and what we and others did to the counter. */
  datatype Mark = Mark(
    locks: nat, lockSaves: nat, keys: nat, keySaves: nat, mine: int, cut: nat, others: nat)

  /** The three documents of one call; token and result id are fresh, so nobody else writes them. */
  class Stores {
    const partner: Partner
    const lock: SharedCell<Locks.Record>
    const key: SharedCell<Idempotency.Id>
    const clock: Clock
    const token: Locks.Token
    const id: Idempotency.Id

    constructor (partner: Partner, lock: SharedCell<Locks.Record>, key: SharedCell<Idempotency.Id>, clock: Clock,
                 token: Locks.Token, id: Idempotency.Id)
      ensures this.partner == partner && this.lock == lock && this.key == key && this.clock == clock
      ensures this.token == token && this.id == id
    {
      this.partner, this.lock, this.key, this.clock, this.token, this.id := partner, lock, key, clock, token, id;
    }

    ghost predicate Valid()
      reads this, partner, lock, key
    {
      && partner.Valid() && lock.Valid() && key.Valid()
      && (forall r {:trigger lock.mine(r)} :: lock.mine(r) <==> r.token == token)
      && (forall i {:trigger key.mine(i)} :: key.mine(i) <==> i == id)
    }

    /** Our lock record is stored. */
    ghost predicate Locked()
      reads this, lock
    {
      lock.doc.Some? && lock.doc.value.token == token
    }

    /** Our claim of the key is stored. */
    ghost predicate Claimed()
      reads this, key
    {
      key.doc == Some(id)
    }

    method OthersRun()
      requires Valid()
      modifies partner`used, partner`cap, partner`others, lock, key
      ensures Valid() && old(lock.history) <= lock.history && old(key.history) <= key.history
      ensures lock.Foreign(old(|lock.history|)) && key.Foreign(old(|key.history|))
      ensures lock.saves == old(lock.saves) && key.saves == old(key.saves) && partner.others >= old(partner.others)
      ensures partner.others == old(partner.others) ==>
                partner.used == old(partner.used) && partner.cap == old(partner.cap)
      ensures Locked() ==> old(Locked())
      ensures Claimed() ==> old(Claimed())
    {
      partner.OthersRun();
      lock.OthersRun();
      key.OthersRun();
    }

    ghost function Now(): Mark
      reads this, partner, lock, key
    {
      Mark(|lock.history|, lock.saves, |key.history|, key.saves, partner.mine, partner.cut, partner.others)
    }

    /** Since the mark nothing was unwritten; our own writes are among all writes. */
    ghost predicate Grew(m: Mark)
      reads this, partner, lock, key
    {
      && partner.others >= m.others
      && 0 <= lock.saves - m.lockSaves <= |lock.history| - m.locks
      && 0 <= key.saves - m.keySaves <= |key.history| - m.keys
    }

    /** Nobody else wrote lock or key since the mark. */
    ghost predicate Undisturbed(m: Mark)
      reads this, lock, key
    {
      |lock.history| - m.locks == lock.saves - m.lockSaves && |key.history| - m.keys == key.saves - m.keySaves
    }

    /** And nobody else changed the counter either. */
    ghost predicate Alone(m: Mark)
      reads this, partner, lock, key
    {
      Undisturbed(m) && partner.others == m.others
    }

    /** Since `from` our lock has been written with this expiry. */
    ghost predicate LockedUntil(from: nat, expires: int)
      reads this, lock
    {
      exists at :: from <= at < |lock.history| && lock.history[at] == Some(Locks.Record(token, expires))
    }

    /** Since the mark the counter moved by `seats`, up to what the clamp at zero cut off. */
    ghost predicate Took(m: Mark, seats: int)
      reads this, partner
    {
      partner.mine - m.mine == seats + partner.cut - m.cut
    }

    /** Nothing is left of a call: no job, no lock, no claim, and on the counter no more than the clamp at zero
        took away from what was given back. */
    ghost predicate Traceless(m: Mark, job: Option<nat>)
      reads this, partner, lock, key
    {
      job.None? && !Locked() && !Claimed() && Took(m, 0)
    }
  }

  /** _forget. */
  method ForgetKey(q: Request, f: Faults, st: Stores) returns (forgotten: bool)
    requires st.Valid()
    modifies st.key
    ensures st.Valid() && st.Grew(old(st.Now()))
    ensures forgotten <==> !(q.hasKey && f.forgetRaises)
    ensures st.Claimed() ==> old(st.Claimed()) && !(forgotten && q.hasKey)
    ensures !forgotten ==> st.Claimed() == old(st.Claimed())
  {
    if q.hasKey {
      if f.forgetRaises {
        return false;
      }
      ghost var _ := Idempotency.Forget(st.key, st.id);
    }
    return true;
  }

  /** locks.release, then _forget; the first that raises ends the clean-up. */
  method ReleaseAndForget(q: Request, f: Faults, st: Stores) returns (cleaned: bool)
    requires st.Valid()
    modifies st.partner`used, st.partner`cap, st.partner`others, st.lock, st.key
    ensures st.Valid() && st.Grew(old(st.Now())) && old(st.lock.history) <= st.lock.history
    ensures cleaned <==> !f.releaseRaises && !(q.hasKey && f.forgetRaises)
    ensures st.Locked() ==> f.releaseRaises && old(st.Locked())
    ensures st.Claimed() ==> old(st.Claimed()) && !(cleaned && q.hasKey)
    ensures !cleaned && st.Undisturbed(old(st.Now())) ==>
              if f.releaseRaises then st.Locked() == old(st.Locked()) else st.Claimed() == old(st.Claimed())
  {
    st.OthersRun();
    if f.releaseRaises {
      return false;
    }
    ghost var _ := Locks.Release(st.lock, st.token);
    st.OthersRun();
    cleaned := ForgetKey(q, f, st);
  }

  /** The try block: the plan slot, the cut, the job, the dispatch. */
  method TryToStore(q: Request, cfg: Settings, f: Faults, st: Stores)
    returns (seats: nat, failed: bool, job: Option<nat>)
    requires st.Valid()
    modifies st.partner, st.lock, st.key
    ensures st.Valid() && st.Grew(old(st.Now())) && old(st.lock.history) <= st.lock.history
    ensures st.Locked() ==> old(st.Locked())
    ensures st.Claimed() ==> old(st.Claimed())
    ensures st.Undisturbed(old(st.Now())) ==> st.Locked() == old(st.Locked()) && st.Claimed() == old(st.Claimed())
    ensures failed <==> FailsBeforeJob(q, cfg, f) || f.dispatchRaises
    ensures job == if FailsBeforeJob(q, cfg, f) then None else Some(seats)
    ensures !failed ==> seats == if IsCut(q, cfg, f) then cfg.commitmentCap else q.seats
    ensures st.Took(old(st.Now()), seats - q.seats)
  {
    seats, failed, job := q.seats, true, None;
    if cfg.planMix {
      st.OthersRun();
      if q.bulkPlan.None? && !f.slot.Slot? {
        return;
      }
      var plan := if q.bulkPlan.Some? then q.bulkPlan.value else PlanForSlot(f.slot.first + 1, cfg.every);
      if plan.Commitment? && seats > cfg.commitmentCap {
        st.OthersRun();
        if !f.cut.Cut? {
          return;
        }
        var _ := st.partner.Change(cfg.commitmentCap - seats, false);
        seats := cfg.commitmentCap;
      }
    }
    st.OthersRun();
    if f.createRaises {
      return;
    }
    job := Some(seats);
    failed := f.dispatchRaises;
  }

  /** The try block and its rollback: either the job is stored and holds the seats, or the seats are given back. */
  method StoreOrRollBack(q: Request, cfg: Settings, f: Faults, st: Stores) returns (exit: Exit, job: Option<nat>)
    requires st.Valid() && RulesHold(q, cfg)
    modifies st.partner, st.lock, st.key
    ensures st.Valid() && st.Grew(old(st.Now())) && old(st.lock.history) <= st.lock.history
    ensures st.Locked() ==> old(st.Locked())
    ensures st.Claimed() ==> old(st.Claimed())
    ensures !exit.Replayed? && (exit.Accepted? <==> StoresJob(q, cfg, Then(f, Reserved)) && !f.dispatchRaises)
    ensures job.Some? <==> StoresJob(q, cfg, Then(f, Reserved))
    ensures exit.Accepted? ==>
              && job == Some(exit.seats) && exit.seats == (if IsCut(q, cfg, f) then cfg.commitmentCap else q.seats)
              && st.Took(old(st.Now()), exit.seats - q.seats)
    ensures exit.Accepted? && st.Undisturbed(old(st.Now())) ==>
              st.Locked() == old(st.Locked()) && st.Claimed() == old(st.Claimed())
    ensures exit.Raised? ==> Says(q, cfg, Then(f, Reserved), exit.status)
    ensures exit.Raised? && !LeavesTraces(q, cfg, Then(f, Reserved)) ==>
              job.None? && !st.Locked() && !(q.hasKey && st.Claimed()) && st.Took(old(st.Now()), -(q.seats as int))
    ensures exit.Raised? && LeavesTraces(q, cfg, Then(f, Reserved)) && st.Undisturbed(old(st.Now())) ==>
              job.Some? || st.Locked() == old(st.Locked()) || (q.hasKey && st.Claimed() == old(st.Claimed()))
  {
    var seats, failed;
    seats, failed, job := TryToStore(q, cfg, f, st);
    st.OthersRun();
    if !failed {
      return Accepted(seats), job;
    }
    if f.giveBackRaises {
      return Raised(500), job;
    }
    var _ := st.partner.Change(-(seats as int), false);
    var cleaned := ReleaseAndForget(q, f, st);
    return Raised(if cleaned && MeetsContention(q, cfg, f) then 503 else 500), job;
  }

  /** The reservation: with nobody else at the counter it succeeds exactly when the seats fit. */
  method Reserve(q: Request, f: Faults, st: Stores) returns (reserve: ReserveAnswer)
    requires st.Valid()
    modifies st.partner, st.lock, st.key
    ensures st.Valid() && st.Grew(old(st.Now())) && old(st.lock.history) <= st.lock.history
    ensures st.Locked() ==> old(st.Locked())
    ensures st.Claimed() ==> old(st.Claimed())
    ensures st.Undisturbed(old(st.Now())) ==> st.Locked() == old(st.Locked()) && st.Claimed() == old(st.Claimed())
    ensures reserve.ReserveRaises? <==> f.reserveRaises
    ensures reserve.Contended? <==> !f.reserveRaises && f.reserveContended
    ensures st.partner.others == old(st.partner.others) && !f.reserveRaises && !f.reserveContended ==>
              (reserve.Reserved? <==> q.seats == 0 || old(st.partner.used) + q.seats <= old(st.partner.cap))
    ensures st.Took(old(st.Now()), if reserve.Reserved? then q.seats else 0)
  {
    st.OthersRun();
    if f.reserveRaises {
      return ReserveRaises;
    }
    if f.reserveContended {
      return Contended;
    }
    var reserved := st.partner.Change(q.seats, true);
    return if reserved then Reserved else TooMany;
  }

  /** The reservation was refused: nothing was taken, so only lock and key are cleaned up. */
  method Refuse(q: Request, f: Faults, st: Stores, contended: bool) returns (exit: Exit)
    requires st.Valid()
    modifies st.partner`used, st.partner`cap, st.partner`others, st.lock, st.key
    ensures st.Valid() && st.Grew(old(st.Now())) && old(st.lock.history) <= st.lock.history
    ensures st.Locked() ==> old(st.Locked())
    ensures st.Claimed() ==> old(st.Claimed())
    ensures exit == Raised(if CleanUpRaises(q, f) then 500 else if contended then 503 else 400)
    ensures !CleanUpRaises(q, f) ==> !st.Locked() && !(q.hasKey && st.Claimed())
    ensures CleanUpRaises(q, f) && st.Undisturbed(old(st.Now())) ==>
              st.Locked() == old(st.Locked()) || (q.hasKey && st.Claimed() == old(st.Claimed()))
  {
    var cleaned := ReleaseAndForget(q, f, st);
    return Raised(if !cleaned then 500 else if contended then 503 else 400);
  }

  /** From the reservation on, with the lock granted and the key claimed if there is one. */
  method ReserveAndStore(q: Request, cfg: Settings, f: Faults, st: Stores)
    returns (exit: Exit, job: Option<nat>, ghost reserve: ReserveAnswer)
    requires st.Valid() && RulesHold(q, cfg)
    requires !q.hasKey ==> !st.Claimed()
    modifies st.partner, st.lock, st.key
    ensures st.Valid() && st.Grew(old(st.Now())) && old(st.lock.history) <= st.lock.history
    ensures st.Locked() ==> old(st.Locked())
    ensures st.Claimed() ==> old(st.Claimed())
    ensures !exit.Replayed? && (exit.Accepted? <==> StoresJob(q, cfg, Then(f, reserve)) && !f.dispatchRaises)
    ensures job.Some? <==> StoresJob(q, cfg, Then(f, reserve))
    ensures exit.Raised? ==> Says(q, cfg, Then(f, reserve), exit.status)
    ensures exit.Raised? && !LeavesTraces(q, cfg, Then(f, reserve)) ==> st.Traceless(old(st.Now()), job)
    ensures exit.Raised? && LeavesTraces(q, cfg, Then(f, reserve)) && st.Undisturbed(old(st.Now())) ==>
              job.Some? || st.Locked() == old(st.Locked()) || (q.hasKey && st.Claimed() == old(st.Claimed()))
    ensures exit.Accepted? ==>
              && job == Some(exit.seats) && exit.seats == (if IsCut(q, cfg, f) then cfg.commitmentCap else q.seats)
              && st.Took(old(st.Now()), exit.seats)
    ensures exit.Accepted? && st.Undisturbed(old(st.Now())) ==>
              st.Locked() == old(st.Locked()) && st.Claimed() == old(st.Claimed())
    ensures !f.reserveRaises && !f.reserveContended && st.partner.others == old(st.partner.others) ==>
              (reserve.Reserved? <==> q.seats == 0 || old(st.partner.used) + q.seats <= old(st.partner.cap))
    ensures reserve.ReserveRaises? <==> f.reserveRaises
    ensures reserve.Contended? <==> !f.reserveRaises && f.reserveContended
  {
    var answer := Reserve(q, f, st);
    reserve := answer;
    match answer {
      case ReserveRaises =>
        return Raised(500), None, reserve;
      case Reserved =>
        exit, job := StoreOrRollBack(q, cfg, f, st);
      case _ =>
        exit := Refuse(q, f, st, answer.Contended?);
        return exit, None, reserve;
    }
  }

  const LOCK_SECONDS: nat := 15 * 60

  /** The lock, for fifteen minutes: with nobody else at it, granted exactly when there is none or it has expired. */
  method TakeLock(st: Stores) returns (granted: bool, ghost began: int)
    requires st.Valid() && !st.Locked()
    modifies st.partner`used, st.partner`cap, st.partner`others, st.lock, st.key, st.clock
    ensures st.Valid() && st.Grew(old(st.Now())) && old(st.lock.history) <= st.lock.history
    ensures st.Claimed() ==> old(st.Claimed())
    ensures st.Undisturbed(old(st.Now())) ==> st.Claimed() == old(st.Claimed())
    ensures st.partner.others == old(st.partner.others) ==>
              st.partner.used == old(st.partner.used) && st.partner.cap == old(st.partner.cap)
    ensures granted ==> st.lock.saves > old(st.lock.saves)
    ensures granted ==> st.LockedUntil(old(|st.lock.history|), began + 900)
    ensures if granted then st.Undisturbed(old(st.Now())) ==> st.Locked() else !st.Locked()
    ensures old(st.clock.now) <= began <= st.clock.now
    ensures st.Undisturbed(old(st.Now())) ==>
              && (granted ==> old(st.lock.doc).None? || old(st.lock.doc).value.expires < st.clock.now)
              && (!granted ==> old(st.lock.doc).Some? && old(st.lock.doc).value.expires >= old(st.clock.now))
  {
    st.OthersRun();
    ghost var at, start, now;
    granted, at, start, now := Locks.Acquire(st.lock, st.clock, st.token, LOCK_SECONDS);
    began := start;
    assert granted ==> st.lock.history[at + 1] == Some(Locks.Record(st.token, began + 900));
  }

  /** From the lock on, with the key claimed if there is one. */
  method LockAndReserve(q: Request, cfg: Settings, f: Faults, st: Stores)
    returns (exit: Exit, job: Option<nat>, ghost w: World, ghost began: int)
    requires st.Valid() && !st.Locked() && RulesHold(q, cfg)
    requires !q.hasKey ==> !st.Claimed()
    modifies st.partner, st.lock, st.key, st.clock
    ensures st.Valid() && st.Grew(old(st.Now())) && w.f == f && w.claim.KeyClaimed?
    ensures old(st.lock.history) <= st.lock.history
    ensures st.Claimed() ==> old(st.Claimed())
    ensures exit.Raised? && !LeavesTraces(q, cfg, w) ==> st.Traceless(old(st.Now()), job)
    ensures exit.Raised? && LeavesTraces(q, cfg, w) && st.Undisturbed(old(st.Now())) ==>
              job.Some? || st.Locked() || (q.hasKey && st.Claimed() == old(st.Claimed()))
    ensures !exit.Replayed? && (exit.Accepted? <==> StoresJob(q, cfg, w) && !f.dispatchRaises)
    ensures exit.Accepted? ==>
              && job == Some(exit.seats) && exit.seats == (if IsCut(q, cfg, f) then cfg.commitmentCap else q.seats)
              && st.Took(old(st.Now()), exit.seats)
    ensures exit.Accepted? && st.Undisturbed(old(st.Now())) ==> st.Locked() && st.Claimed() == old(st.Claimed())
    ensures job.Some? <==> StoresJob(q, cfg, w)
    ensures exit.Raised? ==> Says(q, cfg, w, exit.status)
    ensures w.lock.Granted? ==> st.lock.saves > old(st.lock.saves)
    ensures old(st.clock.now) <= began <= st.clock.now
    ensures w.lock.Granted? ==> st.LockedUntil(old(|st.lock.history|), began + 900)
    ensures st.Alone(old(st.Now())) && exit.Accepted? ==>
              && (old(st.lock.doc).Some? ==> old(st.lock.doc).value.expires < st.clock.now)
              && (q.seats > 0 ==> old(st.partner.used) + q.seats <= old(st.partner.cap))
    ensures && st.Alone(old(st.Now())) && Sound(q, cfg, f)
            && (old(st.lock.doc).Some? ==> old(st.lock.doc).value.expires < old(st.clock.now))
            && old(st.partner.used) + q.seats <= old(st.partner.cap)
            ==> exit.Accepted?
    ensures w.lock.LockRaises? <==> f.lockRaises
    ensures if w.lock.Granted? then (w.reserve.ReserveRaises? <==> f.reserveRaises)
                                    && (w.reserve.Contended? <==> !f.reserveRaises && f.reserveContended)
            else w.reserve.ReserveRaises?
  {
    began := st.clock.now;
    w, job := World(f, KeyClaimed, LockRaises, ReserveRaises), None;
    if f.lockRaises {
      st.OthersRun();
      return Raised(500), job, w, began;
    }
    var granted;
    granted, began := TakeLock(st);
    if !granted {
      w := w.(lock := Busy);
      var forgotten := ForgetKey(q, f, st);
      return Raised(if forgotten then 409 else 500), job, w, began;
    }
    w := w.(lock := Granted);
    ghost var reserve;
    exit, job, reserve := ReserveAndStore(q, cfg, f, st);
    w := w.(reserve := reserve);
  }

  /** The idempotency key, if there is one: with nobody else at it, claimed exactly when it is free. A used key
      counts as the same request also when its record has gone again. */
  method ClaimKey(q: Request, f: Faults, st: Stores) returns (claim: ClaimAnswer)
    requires st.Valid() && !st.Locked() && !st.Claimed()
    modifies st.partner`used, st.partner`cap, st.partner`others, st.lock, st.key
    ensures st.Valid() && st.Grew(old(st.Now())) && old(st.lock.history) <= st.lock.history && !st.Locked()
    ensures st.partner.others == old(st.partner.others) ==>
              st.partner.used == old(st.partner.used) && st.partner.cap == old(st.partner.cap)
    ensures st.Undisturbed(old(st.Now())) ==>
              && st.lock.doc == old(st.lock.doc) && (st.Claimed() <==> q.hasKey && claim.KeyClaimed?)
              && (q.hasKey && !f.claimRaises ==> (claim.KeyClaimed? <==> old(st.key.doc).None?))
    ensures claim.ClaimRaises? <==> q.hasKey && f.claimRaises
    ensures st.Claimed() || !claim.KeyClaimed? ==> q.hasKey
    ensures !claim.KeyClaimed? ==> !st.Claimed()
    ensures claim.KeyClaimed? && q.hasKey ==> st.key.saves > old(st.key.saves)
    ensures claim.OtherRequest? ==> !f.sameRequest
    ensures claim.SameRequest? ==>
              f.sameRequest || exists at :: old(|st.key.history|) <= at < |st.key.history| && st.key.history[at].None?
  {
    st.OthersRun();
    if !q.hasKey {
      return KeyClaimed;
    }
    if f.claimRaises {
      return ClaimRaises;
    }
    var claimed, result;
    ghost var at;
    claimed, result, at := Idempotency.Claim(st.key, st.id);
    if claimed {
      return KeyClaimed;
    }
    return if result == st.id || f.sameRequest then SameRequest else OtherRequest;
  }

  /** A call that raises leaves nothing behind, unless it met a listed failure; and if it met one, and nobody
      else wrote lock or key meanwhile, something is left. A busy, refused or contended answer always leaves
      nothing. Accepting leaves a job holding exactly the seats taken from the quota, also after the cut. */
  method Run(q: Request, cfg: Settings, f: Faults, st: Stores)
    returns (exit: Exit, job: Option<nat>, ghost w: World)
    requires st.Valid() && !st.Locked() && !st.Claimed()
    modifies st.partner, st.lock, st.key, st.clock
    ensures st.Valid() && w.f == f
    ensures exit.Raised? && !LeavesTraces(q, cfg, w) ==> st.Traceless(old(st.Now()), job)
    ensures exit.Raised? && LeavesTraces(q, cfg, w) && st.Undisturbed(old(st.Now())) ==>
              !st.Traceless(old(st.Now()), job)
    ensures exit.Replayed? ==> st.Traceless(old(st.Now()), job)
    ensures exit.Accepted? <==> StoresJob(q, cfg, w) && !f.dispatchRaises
    ensures exit.Accepted? ==>
              && job == Some(exit.seats) && st.Took(old(st.Now()), exit.seats)
              && var commitment := if q.bulkPlan.Some? then q.bulkPlan.value.Commitment?
                                   else f.slot.Slot? && cfg.every > 0 && (f.slot.first + 1) % cfg.every == 0;
                 exit.seats == if cfg.planMix && commitment && q.seats > cfg.commitmentCap then cfg.commitmentCap
                               else q.seats
    ensures exit.Accepted? && st.Undisturbed(old(st.Now())) ==> st.Locked() && (q.hasKey ==> st.Claimed())
    ensures job.Some? <==> StoresJob(q, cfg, w)
    ensures exit.Raised? ==> Says(q, cfg, w, exit.status)
    ensures w.claim.KeyClaimed? && q.hasKey ==> st.key.saves > old(st.key.saves)
    ensures w.lock.Granted? ==> st.lock.saves > old(st.lock.saves)
    ensures RulesHold(q, cfg) ==> (w.claim.ClaimRaises? <==> q.hasKey && f.claimRaises)
    ensures RulesHold(q, cfg) && w.claim.KeyClaimed? ==> (w.lock.LockRaises? <==> f.lockRaises)
    ensures w.lock.Granted? ==> (w.reserve.ReserveRaises? <==> f.reserveRaises)
                                && (w.reserve.Contended? <==> !f.reserveRaises && f.reserveContended)
    ensures exit == Raised(422) <==> if cfg.planMix then q.seats > cfg.flexibleCap else !q.plan
    ensures exit.Replayed? <==> q.hasKey && w.claim.SameRequest?
    ensures w.claim.OtherRequest? ==> q.hasKey && !f.sameRequest
    ensures st.Alone(old(st.Now())) && exit.Accepted? ==>
              && (if cfg.planMix then q.seats <= cfg.flexibleCap else q.plan)
              && (q.hasKey ==> old(st.key.doc).None?)
              && (old(st.lock.doc).Some? ==> old(st.lock.doc).value.expires < st.clock.now)
              && (q.seats > 0 ==> old(st.partner.used) + q.seats <= old(st.partner.cap))
    ensures && st.Alone(old(st.Now())) && Sound(q, cfg, f)
            && (if cfg.planMix then q.seats <= cfg.flexibleCap else q.plan)
            && (q.hasKey ==> old(st.key.doc).None?)
            && (old(st.lock.doc).Some? ==> old(st.lock.doc).value.expires < old(st.clock.now))
            && old(st.partner.used) + q.seats <= old(st.partner.cap)
            ==> exit.Accepted?
  {
    if !RulesHold(q, cfg) {
      return Raised(422), None, World(f, ClaimRaises, LockRaises, ReserveRaises);
    }
    var claim := ClaimKey(q, f, st);
    if !claim.KeyClaimed? {
      exit := if claim.SameRequest? then Replayed else Raised(if claim.OtherRequest? then 409 else 500);
      return exit, None, World(f, claim, LockRaises, ReserveRaises);
    }
    ghost var began;
    exit, job, w, began := LockAndReserve(q, cfg, f, st);
  }
}
