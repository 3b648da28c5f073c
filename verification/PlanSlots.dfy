/** The per-partner slot counter: which accepted domains get the commitment plan. */
module PlanSlots {
  import opened Text
  import opened Values
  import opened Batching
  import GC = GroupCommit

  datatype Plan = Commitment | Flexible

  /** Slot numbers start at 1; every `every`-th one is a commitment slot. */
  function PlanForSlot(slot: nat, every: int): Plan {
    if every > 0 && slot % every == 0 then Commitment else Flexible
  }

  // ---- Density ----

  /** Commitment slots among first+1 .. first+n. */
  function CommitmentSlots(first: nat, n: nat, every: int): nat {
    if n == 0 then 0
    else CommitmentSlots(first, n - 1, every) + (if PlanForSlot(first + n, every).Commitment? then 1 else 0)
  }

  lemma MulStep(e: nat, a: nat, b: nat)
    requires a < b
    ensures e * a + e <= e * b
  {
    var d := b - a - 1;
    assert e * b == e * a + e + e * d;
  }

  lemma QuotientUnique(e: nat, q: nat, r: nat, q': nat, r': nat)
    requires r < e && r' < e && e * q + r == e * q' + r'
    ensures q == q' && r == r'
  {
    if q < q' {
      MulStep(e, q, q');
    } else if q' < q {
      MulStep(e, q', q);
    }
  }

  lemma DivUnique(x: nat, e: nat, q: nat, r: nat)
    requires e > 0 && r < e && x == e * q + r
    ensures x / e == q && x % e == r
  {
    QuotientUnique(e, q, r, x / e, x % e);
  }

  lemma DivStep(x: nat, e: nat)
    requires e > 0
    ensures (x + 1) / e == x / e + (if (x + 1) % e == 0 then 1 else 0)
  {
    if x % e + 1 == e {
      assert e * (x / e) + x % e + 1 == e * (x / e + 1);
      DivUnique(x + 1, e, x / e + 1, 0);
    } else {
      DivUnique(x + 1, e, x / e, x % e + 1);
    }
  }

  lemma {:induction false} Density(first: nat, n: nat, every: nat)
    requires every > 0
    ensures CommitmentSlots(first, n, every) == (first + n) / every - first / every
  {
    if n > 0 {
      Density(first, n - 1, every);
      DivStep(first + n - 1, every);
    }
  }

  /** Wherever the counter stands, k * every consecutive slots hold exactly k commitment slots. */
  lemma ExactShare(first: nat, k: nat, every: nat)
    requires every > 0
    ensures CommitmentSlots(first, k * every, every) == k
  {
    Density(first, k * every, every);
    var q := first / every;
    assert every * (q + k) == every * q + k * every;
    DivUnique(first + k * every, every, q + k, first % every);
  }

  lemma {:induction false} NoCommitments(first: nat, n: nat, every: int)
    requires every <= 0
    ensures CommitmentSlots(first, n, every) == 0
  {
    if n > 0 {
      NoCommitments(first, n - 1, every);
    }
  }

  function Accepted(valid: seq<bool>): nat {
    if valid == [] then 0 else Accepted(valid[..|valid| - 1]) + (if valid[|valid| - 1] then 1 else 0)
  }

  function Chosen(plans: seq<Option<Plan>>): nat {
    if plans == [] then 0
    else Chosen(plans[..|plans| - 1]) + (if plans[|plans| - 1] == Some(Commitment) then 1 else 0)
  }

  /** accept_bulk: the valid items of a bulk call take one block of slots, in list order. */
  ghost predicate BulkPlans(first: nat, valid: seq<bool>, every: int, plans: seq<Option<Plan>>) {
    && |plans| == |valid|
    && forall i :: 0 <= i < |valid| ==>
         plans[i] == if valid[i] then Some(PlanForSlot(first + Accepted(valid[..i]) + 1, every)) else None
  }

  method AssignBulkPlans(first: nat, valid: seq<bool>, every: int) returns (plans: seq<Option<Plan>>, taken: nat)
    ensures taken == Accepted(valid) && BulkPlans(first, valid, every, plans)
    ensures Chosen(plans) == CommitmentSlots(first, taken, every)
  {
    plans, taken := [], 0;
    for index := 0 to |valid|
      invariant taken == Accepted(valid[..index]) && |plans| == index
      invariant forall i :: 0 <= i < index ==>
        plans[i] == if valid[i] then Some(PlanForSlot(first + Accepted(valid[..i]) + 1, every)) else None
    {
      assert valid[..index + 1][..index] == valid[..index];
      if valid[index] {
        taken := taken + 1;
        plans := plans + [Some(PlanForSlot(first + taken, every))];
      } else {
        plans := plans + [None];
      }
    }
    assert valid[..|valid|] == valid;
    BulkShare(first, valid, every, plans);
  }

  lemma {:induction false} BulkShare(first: nat, valid: seq<bool>, every: int, plans: seq<Option<Plan>>)
    requires BulkPlans(first, valid, every, plans)
    ensures Chosen(plans) == CommitmentSlots(first, Accepted(valid), every)
  {
    if valid != [] {
      var n := |valid| - 1;
      forall i | 0 <= i < n
        ensures plans[..n][i] ==
                  if valid[..n][i] then Some(PlanForSlot(first + Accepted(valid[..n][..i]) + 1, every)) else None
      {
        assert valid[..n][..i] == valid[..i];
      }
      BulkShare(first, valid[..n], every, plans[..n]);
    }
  }

  // ---- Blocks of slots under group commit ----

  function CountOf(d: Doc): int {
    if "count" in d && d["count"].Int? then d["count"].i else 0
  }

  /** `reserve`: the update each caller queues. */
  function Take(n: nat, updatedAt: string): Op {
    (d: Doc) => Returned(d["count" := Int(CountOf(d) + n)]["updated_at" := Str(updatedAt)], Int(CountOf(d)))
  }

  function FreshCounter(reseller: string): Doc {
    map["reseller_id" := Str(reseller), "count" := Int(0)]
  }

  /** Both records say the same outside the two fields `reserve` writes. */
  ghost predicate SameElsewhere(d: Doc, after: Doc) {
    after - {"count", "updated_at"} == d - {"count", "updated_at"}
  }

  ghost predicate TakesBlock(op: Op, n: nat) {
    forall d: Doc ::
      && op(d).Returned? && op(d).value == Int(CountOf(d))
      && CountOf(op(d).doc) == CountOf(d) + n && SameElsewhere(d, op(d).doc)
  }

  lemma TakenElsewhere(d: Doc, n: nat, updatedAt: string)
    ensures SameElsewhere(d, Take(n, updatedAt)(d).doc)
  {
  }

  /** The update takes its block and sets the update time; the record it starts from is the partner's and
      counts nothing. */
  lemma TakeTakesBlock(n: nat, updatedAt: string, reseller: string)
    ensures TakesBlock(Take(n, updatedAt), n)
    ensures forall d: Doc :: var after := Take(n, updatedAt)(d).doc;
              && "count" in after && after["count"] == Int(CountOf(d) + n)
              && "updated_at" in after && after["updated_at"] == Str(updatedAt)
    ensures var d := FreshCounter(reseller);
            && CountOf(d) == 0 && "reseller_id" in d && d["reseller_id"] == Str(reseller)
            && d.Keys == {"reseller_id", "count"}
  {
    forall d: Doc ensures SameElsewhere(d, Take(n, updatedAt)(d).doc) {
      TakenElsewhere(d, n, updatedAt);
    }
  }

  function Counter(doc: Option<Doc>): int {
    if doc.Some? then CountOf(doc.value) else 0
  }

  /** Only `reserve` goes through the queues; rival writers leave the count alone. */
  ghost predicate CounterDoc(order: GC.Order, sizes: map<GC.CallId, nat>) {
    forall p :: 0 <= p < |order.log| ==>
      match order.log[p]
      case Update(id, op, missing) =>
        && id in sizes && sizes[id] > 0 && TakesBlock(op, sizes[id])
        && missing.Some? && CountOf(missing.value) == 0
      case Rival(change) => forall d :: Counter(change(d)) == Counter(d)
  }

  function CounterAt(order: GC.Order, p: nat): int
    requires p <= |order.log|
  {
    Counter(GC.DocAt(order, p))
  }

  /** Entry p of the order leaves every other field of the record as it was. */
  ghost predicate LeavesElsewhere(order: GC.Order, p: nat)
    requires p < |order.log|
  {
    var before, after := GC.DocAt(order, p), GC.DocAt(order, p + 1);
    after.Some? && (before.Some? ==> SameElsewhere(before.value, after.value))
  }

  ghost predicate OnlyRivalsWriteElsewhere(order: GC.Order) {
    forall p: nat :: p < |order.log| && order.log[p].Update? ==> LeavesElsewhere(order, p)
  }

  lemma CounterStep(order: GC.Order, sizes: map<GC.CallId, nat>, p: nat)
    requires CounterDoc(order, sizes) && p < |order.log|
    ensures order.log[p].Update? ==>
              && CounterAt(order, p + 1) == CounterAt(order, p) + sizes[order.log[p].id]
              && Alone(GC.DocAt(order, p), order.log[p].missing, order.log[p].op).reply ==
                 Answer(Int(CounterAt(order, p)))
              && LeavesElsewhere(order, p)
    ensures order.log[p].Rival? ==> CounterAt(order, p + 1) == CounterAt(order, p)
  {
    assert order.log[..p + 1][..p] == order.log[..p];
    var before := GC.DocAt(order, p);
    match order.log[p]
    case Update(id, op, missing) =>
      var d := if before.Some? then before.value else missing.value;
      assert op(d).Returned? && op(d).value == Int(CountOf(d));
    case Rival(change) => assert Counter(change(before)) == Counter(before);
  }

  /** Every entry moves the counter up, by the size of its block if it takes one. */
  ghost predicate CounterSteps(order: GC.Order) {
    forall p {:trigger order.log[p]} :: 0 <= p < |order.log| ==>
      if order.log[p].Update? then CounterAt(order, p) < CounterAt(order, p + 1)
      else CounterAt(order, p) == CounterAt(order, p + 1)
  }

  lemma CounterStepsUp(order: GC.Order, sizes: map<GC.CallId, nat>)
    requires CounterDoc(order, sizes)
    ensures CounterSteps(order)
  {
    forall p | 0 <= p < |order.log|
      ensures if order.log[p].Update? then CounterAt(order, p) < CounterAt(order, p + 1)
              else CounterAt(order, p) == CounterAt(order, p + 1)
    {
      CounterStep(order, sizes, p);
    }
  }

  /** Slot `k` is in the block that entry `p` took. */
  ghost predicate Owns(order: GC.Order, p: nat, k: int) {
    p < |order.log| && order.log[p].Update? && CounterAt(order, p) < k <= CounterAt(order, p + 1)
  }

  ghost predicate SlotTaken(order: GC.Order, k: int) {
    exists p: nat :: Owns(order, p, k)
  }

  lemma {:induction false} CounterGrows(order: GC.Order, p: nat, q: nat)
    requires CounterSteps(order) && p <= q <= |order.log|
    ensures CounterAt(order, p) <= CounterAt(order, q)
    decreases q
  {
    if p < q {
      CounterGrows(order, p, q - 1);
      assert order.log[q - 1] == order.log[q - 1];
    }
  }

  lemma {:induction false} SlotHasOwner(order: GC.Order, q: nat, k: int)
    requires CounterSteps(order) && q <= |order.log|
    requires CounterAt(order, 0) < k <= CounterAt(order, q)
    ensures SlotTaken(order, k)
  {
    if k > CounterAt(order, q - 1) && order.log[q - 1].Update? {
      assert Owns(order, q - 1, k);
    } else {
      SlotHasOwner(order, q - 1, k);
    }
  }

  lemma OneOwner(order: GC.Order, p: nat, q: nat, k: int)
    requires CounterSteps(order) && Owns(order, p, k) && Owns(order, q, k)
    ensures p == q
  {
    if p < q {
      CounterGrows(order, p + 1, q);
    } else if q < p {
      CounterGrows(order, q + 1, p);
    }
  }

  /** The reply is the counter before a block of this size that the call took at its place in the order. */
  ghost predicate ToldItsBlock(order: GC.Order, id: GC.CallId, reply: Reply, size: nat) {
    exists p: nat ::
      && p < |order.log| && order.log[p].Update? && order.log[p].id == id
      && reply == Answer(Int(CounterAt(order, p)))
      && CounterAt(order, p + 1) == CounterAt(order, p) + size
  }

  lemma PlacedIsTold(order: GC.Order, sizes: map<GC.CallId, nat>, id: GC.CallId, reply: Reply, p: nat)
    requires CounterDoc(order, sizes) && GC.Placed(order, id, reply, p)
    ensures id in sizes && ToldItsBlock(order, id, reply, sizes[id])
  {
    CounterStep(order, sizes, p);
  }

  lemma SlotsOwnedOnce(order: GC.Order, sizes: map<GC.CallId, nat>)
    requires CounterDoc(order, sizes)
    ensures forall k :: CounterAt(order, 0) < k <= CounterAt(order, |order.log|) ==> SlotTaken(order, k)
    ensures forall k, p: nat, q: nat :: Owns(order, p, k) && Owns(order, q, k) ==> p == q
  {
    CounterStepsUp(order, sizes);
    forall k | CounterAt(order, 0) < k <= CounterAt(order, |order.log|) ensures SlotTaken(order, k) {
      SlotHasOwner(order, |order.log|, k);
    }
    forall k, p: nat, q: nat | Owns(order, p, k) && Owns(order, q, k) ensures p == q {
      OneOwner(order, p, q, k);
    }
  }

  lemma CallerTold(run: seq<GC.State>, steps: seq<GC.Step>, i: nat, sizes: map<GC.CallId, nat>, id: GC.CallId)
    requires GC.IsRun(run, steps) && i < |run| && CounterDoc(run[i].order, sizes)
    requires id in run[i].calls && run[i].calls[id].stage.Back? && !run[i].calls[id].stage.reply.NotSaved?
    ensures id in sizes && ToldItsBlock(run[i].order, id, run[i].calls[id].stage.reply, sizes[id])
  {
    GC.Linearizable(run, steps, i);
    var reply := run[i].calls[id].stage.reply;
    var p: nat :| GC.Placed(run[i].order, id, reply, p);
    PlacedIsTold(run[i].order, sizes, id, reply, p);
  }

  lemma DocIsCounted(run: seq<GC.State>, steps: seq<GC.Step>, i: nat)
    requires GC.IsRun(run, steps) && i < |run|
    ensures Counter(run[i].doc) == CounterAt(run[i].order, |run[i].order.log|)
  {
    GC.Linearizable(run, steps, i);
    assert run[i].order.log[..|run[i].order.log|] == run[i].order.log;
  }

  /** At every moment of every run on a counter document: every slot handed out so far belongs to exactly
      one call, and every caller that has returned was told the counter before its own block. */
  lemma BlocksPartitionSlots(run: seq<GC.State>, steps: seq<GC.Step>, i: nat, sizes: map<GC.CallId, nat>)
    requires GC.IsRun(run, steps) && i < |run| && CounterDoc(run[i].order, sizes)
    ensures var s := run[i];
            && (forall k :: CounterAt(s.order, 0) < k <= Counter(s.doc) ==> SlotTaken(s.order, k))
            && (forall k, p: nat, q: nat :: Owns(s.order, p, k) && Owns(s.order, q, k) ==> p == q)
            && (forall id :: id in s.calls && s.calls[id].stage.Back? && !s.calls[id].stage.reply.NotSaved? ==>
                  id in sizes && ToldItsBlock(s.order, id, s.calls[id].stage.reply, sizes[id]))
    ensures OnlyRivalsWriteElsewhere(run[i].order)
  {
    SlotsOwnedOnce(run[i].order, sizes);
    forall p: nat | p < |run[i].order.log| && run[i].order.log[p].Update? ensures LeavesElsewhere(run[i].order, p) {
      CounterStep(run[i].order, sizes, p);
    }
    DocIsCounted(run, steps, i);
    forall id | id in run[i].calls && run[i].calls[id].stage.Back? && !run[i].calls[id].stage.reply.NotSaved?
      ensures id in sizes && ToldItsBlock(run[i].order, id, run[i].calls[id].stage.reply, sizes[id])
    {
      CallerTold(run, steps, i, sizes, id);
    }
  }
}
