/** The quota update of a partner record, and the cap under group commit. */
module Quota {
  import opened Text
  import opened Values
  import opened Batching
  import GC = GroupCommit
  import Saving

  function Max(a: int, b: int): int {
    if a > b then a else b
  }

  datatype Adjusted = NowUsed(used: int) | OverCap

  /** `adjust_licences_used` on the two numbers it looks at. */
  function Adjust(used: int, cap: int, delta: int, enforceCap: bool): Adjusted {
    var newUsed := Max(0, used + delta);
    if enforceCap && delta > 0 && newUsed > cap then OverCap else NowUsed(newUsed)
  }

  /** What a reservation may answer. */
  datatype ReserveAnswer = Reserved | TooMany | Contended | ReserveRaises

  /** A partner's counter as one thread sees it. `mine` sums what this thread's own changes did to it, `cut` what
      the clamp at zero kept them from doing, and `others` moves whenever another thread changed something. */
  class Partner {
    var used: int
    var cap: int
    ghost var mine: int
    ghost var cut: nat
    ghost var others: nat

    ghost predicate Valid()
      reads this
    {
      used >= 0
    }

    constructor (used: nat, cap: int)
      ensures Valid() && this.used == used && this.cap == cap && mine == 0 && cut == 0
    {
      this.used, this.cap, mine, cut, others := used, cap, 0, 0, 0;
    }

    /** What this thread did to the counter since then, had the clamp at zero not cut anything off. */
    ghost function Moved(mineThen: int, cutThen: nat): int
      reads this
    {
      (mine - mineThen) - (cut - cutThen)
    }

    /** `adjust_licences_used`; False stands for the quota error. */
    method Change(delta: int, enforceCap: bool) returns (ok: bool)
      requires Valid()
      modifies this
      ensures Valid() && cap == old(cap) && others == old(others)
      ensures !ok <==> enforceCap && delta > 0 && old(used) + delta > cap
      ensures ok ==> used == Max(0, old(used) + delta) && mine == old(mine) + used - old(used)
                     && cut == old(cut) + (used - old(used) - delta)
      ensures !ok ==> used == old(used) && mine == old(mine) && cut == old(cut)
      ensures delta >= 0 ==> cut == old(cut)
    {
      match Adjust(used, cap, delta, enforceCap) {
        case OverCap => return false;
        case NowUsed(newUsed) =>
          mine, cut := mine + newUsed - used, cut + (newUsed - used - delta);
          used := newUsed;
          return true;
      }
    }

    /** Whatever the partner's other requests, workers and administrators do meanwhile. */
    method OthersRun()
      requires Valid()
      modifies this`used, this`cap, this`others
      ensures Valid() && others >= old(others)
      ensures others == old(others) ==> used == old(used) && cap == old(cap)
    {
      if * {
        var n :| n >= 0;
        used, cap, others := n, *, others + 1;
      }
    }
  }

  // ---- The update on the stored record ----

  /** The record parses: a cap, and a running counter that defaults to 0. */
  predicate IsReseller(d: Doc) {
    "max_licence_cap" in d && d["max_licence_cap"].Int? && ("licences_used" in d ==> d["licences_used"].Int?)
  }

  function UsedOf(d: Doc): int {
    if "licences_used" in d && d["licences_used"].Int? then d["licences_used"].i else 0
  }

  function CapOf(d: Doc): int {
    if "max_licence_cap" in d && d["max_licence_cap"].Int? then d["max_licence_cap"].i else 0
  }

  function AdjustOp(delta: int, enforceCap: bool, updatedAt: string): Op {
    (d: Doc) =>
      if !IsReseller(d) then Raised(d, OpFailed("invalid record"))
      else
        match Adjust(UsedOf(d), CapOf(d), delta, enforceCap)
        case OverCap => Raised(d, QuotaExceeded(delta, UsedOf(d), CapOf(d)))
        case NowUsed(used) =>
          var after := d["licences_used" := Int(used)]["updated_at" := Str(updatedAt)];
          Returned(after, Dict(after))
  }

  datatype Request = Request(delta: int, enforceCap: bool)

  /** Both records say the same outside the two fields a quota update writes. */
  ghost predicate SameElsewhere(d: Doc, after: Doc) {
    after - {"licences_used", "updated_at"} == d - {"licences_used", "updated_at"}
  }

  /** What matters of an adjusting update: the counter moves as `Adjust` says, nothing but the counter and the
      update time changes, the caller sees the record right after its own change. */
  ghost predicate Adjusts(op: Op, r: Request) {
    forall d: Doc {:trigger op(d)} :: IsReseller(d) ==>
      match Adjust(UsedOf(d), CapOf(d), r.delta, r.enforceCap)
      case OverCap => op(d).Raised? && op(d).exc == QuotaExceeded(r.delta, UsedOf(d), CapOf(d))
      case NowUsed(used) =>
        && op(d).Returned? && op(d).value == Dict(op(d).doc)
        && IsReseller(op(d).doc) && UsedOf(op(d).doc) == used && CapOf(op(d).doc) == CapOf(d)
        && SameElsewhere(d, op(d).doc)
  }

  lemma AdjustedElsewhere(d: Doc, used: int, updatedAt: string)
    ensures SameElsewhere(d, d["licences_used" := Int(used)]["updated_at" := Str(updatedAt)])
  {
  }

  /** The update on any record: an unreadable one raises; on a readable one it is refused, with what was asked
      for, used and allowed, exactly beyond the cap; otherwise every other field stays and the two are set. */
  lemma AdjustOpAdjusts(r: Request, updatedAt: string)
    ensures Adjusts(AdjustOp(r.delta, r.enforceCap, updatedAt), r)
    ensures forall d: Doc ::
              var after := AdjustOp(r.delta, r.enforceCap, updatedAt)(d);
              var before := if "licences_used" in d && d["licences_used"].Int? then d["licences_used"].i else 0;
              var used := if before + r.delta > 0 then before + r.delta else 0;
              if !("max_licence_cap" in d && d["max_licence_cap"].Int?)
                 || ("licences_used" in d && !d["licences_used"].Int?) then after.Raised? && after.exc.OpFailed?
              else if r.enforceCap && r.delta > 0 && used > d["max_licence_cap"].i then
                after.Raised? && after.exc == QuotaExceeded(r.delta, before, d["max_licence_cap"].i)
              else
                && after.Returned? && after.value == Dict(after.doc)
                && "licences_used" in after.doc && after.doc["licences_used"] == Int(used)
                && "updated_at" in after.doc && after.doc["updated_at"] == Str(updatedAt)
                && (forall k :: k != "licences_used" && k != "updated_at" ==>
                      (k in after.doc <==> k in d) && (k in d ==> after.doc[k] == d[k]))
  {
    forall d: Doc | IsReseller(d)
      ensures var after := AdjustOp(r.delta, r.enforceCap, updatedAt)(d);
              after.Returned? ==> SameElsewhere(d, after.doc)
    {
      AdjustedElsewhere(d, Max(0, UsedOf(d) + r.delta), updatedAt);
    }
  }

  function Used(doc: Option<Doc>): int {
    if doc.Some? then UsedOf(doc.value) else 0
  }

  function Cap(doc: Option<Doc>): int {
    if doc.Some? then CapOf(doc.value) else 0
  }

  predicate Readable(doc: Option<Doc>) {
    doc.Some? && IsReseller(doc.value)
  }

  /** Only quota updates go through the queues, every increase asks for the cap check, and rival writers
      (field-level updates such as a new cap or a login time) leave the counter alone. */
  ghost predicate QuotaDoc(order: GC.Order, requests: map<GC.CallId, Request>) {
    && Readable(order.start)
    && forall p :: 0 <= p < |order.log| ==>
         match order.log[p]
         case Update(id, op, _) =>
           id in requests && Adjusts(op, requests[id]) && (requests[id].delta > 0 ==> requests[id].enforceCap)
         case Rival(change) =>
           forall d {:trigger change(d)} :: Readable(d) ==> Readable(change(d)) && Used(change(d)) == Used(d)
  }

  ghost predicate CapFixed(order: GC.Order) {
    forall p :: 0 <= p < |order.log| && order.log[p].Rival? ==>
      forall d {:trigger order.log[p].change(d)} :: Cap(order.log[p].change(d)) == Cap(d)
  }

  lemma QuotaStep(order: GC.Order, requests: map<GC.CallId, Request>, p: nat)
    requires QuotaDoc(order, requests) && p < |order.log| && Readable(GC.DocAt(order, p))
    ensures var before, after := GC.DocAt(order, p), GC.DocAt(order, p + 1);
            && Readable(after)
            && (Used(after) > Used(before) >= 0 ==> Used(after) <= Cap(after))
            && (Used(before) >= 0 ==> Used(after) >= 0)
            && (CapFixed(order) ==> Cap(after) == Cap(before))
  {
    assert order.log[..p + 1][..p] == order.log[..p];
    var before := GC.DocAt(order, p);
    match order.log[p]
    case Update(id, op, _) => assert op(before.value) == op(before.value);
    case Rival(change) => assert change(before) == change(before);
  }

  lemma {:induction false} QuotaReadable(order: GC.Order, requests: map<GC.CallId, Request>, p: nat)
    requires QuotaDoc(order, requests) && p <= |order.log|
    ensures Readable(GC.DocAt(order, p))
    ensures Used(order.start) >= 0 ==> Used(GC.DocAt(order, p)) >= 0
  {
    if p == 0 {
      assert order.log[..0] == [];
    } else {
      QuotaReadable(order, requests, p - 1);
      QuotaStep(order, requests, p - 1);
    }
  }

  /** Whatever the cap does meanwhile, no entry of the order ever raises usage beyond the cap in force. */
  lemma NeverRaisedPastCap(order: GC.Order, requests: map<GC.CallId, Request>, p: nat)
    requires QuotaDoc(order, requests) && p < |order.log| && Used(order.start) >= 0
    ensures Used(GC.DocAt(order, p + 1)) > Used(GC.DocAt(order, p)) ==>
              Used(GC.DocAt(order, p + 1)) <= Cap(GC.DocAt(order, p + 1))
  {
    QuotaReadable(order, requests, p);
    QuotaStep(order, requests, p);
  }

  lemma {:induction false} WithinCap(order: GC.Order, requests: map<GC.CallId, Request>, p: nat)
    requires QuotaDoc(order, requests) && CapFixed(order) && p <= |order.log|
    requires 0 <= Used(order.start) <= Cap(order.start)
    ensures Cap(GC.DocAt(order, p)) == Cap(order.start)
    ensures 0 <= Used(GC.DocAt(order, p)) <= Cap(order.start)
  {
    if p == 0 {
      assert order.log[..0] == [];
    } else {
      WithinCap(order, requests, p - 1);
      QuotaReadable(order, requests, p - 1);
      QuotaStep(order, requests, p - 1);
    }
  }

  /** Entry p of the order leaves every other field of the record as it was. */
  ghost predicate LeavesElsewhere(order: GC.Order, p: nat)
    requires p < |order.log|
  {
    var before, after := GC.DocAt(order, p), GC.DocAt(order, p + 1);
    before.Some? && after.Some? && SameElsewhere(before.value, after.value)
  }

  ghost predicate OnlyRivalsWriteElsewhere(order: GC.Order) {
    forall p: nat :: p < |order.log| && order.log[p].Update? ==> LeavesElsewhere(order, p)
  }

  lemma UpdatesLeaveElsewhere(order: GC.Order, requests: map<GC.CallId, Request>)
    requires QuotaDoc(order, requests)
    ensures OnlyRivalsWriteElsewhere(order)
  {
    forall p: nat | p < |order.log| && order.log[p].Update? ensures LeavesElsewhere(order, p) {
      QuotaReadable(order, requests, p);
      assert order.log[..p + 1][..p] == order.log[..p];
      var before, op := GC.DocAt(order, p).value, order.log[p].op;
      assert op(before) == op(before);
    }
  }

  /** In every reachable state of a partner record with a fixed cap, usage is within 0..cap, and every
      caller that has returned was refused exactly when its own seats did not fit at its own place in
      the order; otherwise it saw the usage right after its own change. All other fields of the record move
      only by rival writes. */
  lemma CapIsSafe(run: seq<GC.State>, steps: seq<GC.Step>, i: nat, requests: map<GC.CallId, Request>)
    requires GC.IsRun(run, steps) && i < |run|
    requires QuotaDoc(run[i].order, requests) && CapFixed(run[i].order)
    requires 0 <= Used(run[i].order.start) <= Cap(run[i].order.start)
    ensures 0 <= Used(run[i].doc) <= Cap(run[i].order.start)
    ensures var s := run[i];
            forall id :: id in s.calls && s.calls[id].stage.Back? && !s.calls[id].stage.reply.NotSaved? ==>
              id in requests && HasPlace(s.order, id, requests[id], s.calls[id].stage.reply)
    ensures OnlyRivalsWriteElsewhere(run[i].order)
  {
    GC.Linearizable(run, steps, i);
    var s := run[i];
    UpdatesLeaveElsewhere(s.order, requests);
    assert s.order.log[..|s.order.log|] == s.order.log;
    WithinCap(s.order, requests, |s.order.log|);
    forall id | id in s.calls && s.calls[id].stage.Back? && !s.calls[id].stage.reply.NotSaved?
      ensures id in requests && HasPlace(s.order, id, requests[id], s.calls[id].stage.reply)
    {
      var p: nat :| GC.Placed(s.order, id, s.calls[id].stage.reply, p);
      ReplyIsExact(s.order, requests, id, s.calls[id].stage.reply, p);
    }
  }

  ghost predicate HasPlace(order: GC.Order, id: GC.CallId, r: Request, reply: Reply) {
    exists p: nat ::
      p < |order.log| && order.log[p].Update? && order.log[p].id == id && RepliedAt(order, r, reply, p)
  }

  ghost predicate RepliedAt(order: GC.Order, r: Request, reply: Reply, p: nat)
    requires p < |order.log|
  {
    var before, after := GC.DocAt(order, p), GC.DocAt(order, p + 1);
    if r.enforceCap && r.delta > 0 && Used(before) + r.delta > Cap(before) then
      reply == Refused(QuotaExceeded(r.delta, Used(before), Cap(before))) && after == before
    else
      after.Some? && reply == Answer(Dict(after.value)) && Used(after) == Max(0, Used(before) + r.delta)
  }

  lemma ReplyIsExact(order: GC.Order, requests: map<GC.CallId, Request>, id: GC.CallId, reply: Reply, p: nat)
    requires QuotaDoc(order, requests) && Used(order.start) >= 0 && GC.Placed(order, id, reply, p)
    ensures id in requests && RepliedAt(order, requests[id], reply, p)
  {
    QuotaReadable(order, requests, p);
    assert order.log[..p + 1][..p] == order.log[..p];
    var before := GC.DocAt(order, p);
    var op := order.log[p].op;
    assert op(before.value) == op(before.value);
  }

  /** A reservation that no store failure, rival write or other server gets in the way of is decided: refused
      exactly when its seats do not fit at its place in the order, otherwise saved. */
  lemma UndisturbedIsDecided(run: seq<GC.State>, steps: seq<GC.Step>, c: nat, i: nat, id: GC.CallId,
                             requests: map<GC.CallId, Request>)
    requires GC.IsRun(run, steps) && c <= i < |run| && id !in run[c].calls
    requires QuotaDoc(run[i].order, requests) && Used(run[i].order.start) >= 0
    requires id in run[i].calls && !run[i].calls[id].stage.Waiting?
    requires forall m {:trigger steps[m]} :: c <= m < i ==>
               && !steps[m].RivalWrite?
               && (steps[m].Swap? ==> steps[m].sv == run[i].calls[id].server)
               && (steps[m].Read? || steps[m].Swap? ==> !steps[m].raises)
    ensures id in requests && HasPlace(run[i].order, id, requests[id], run[i].calls[id].stage.reply)
  {
    Saving.UndisturbedIsSaved(run, steps, c, i, id);
    var reply := run[i].calls[id].stage.reply;
    var p: nat :| GC.Placed(run[i].order, id, reply, p);
    ReplyIsExact(run[i].order, requests, id, reply, p);
  }
}
