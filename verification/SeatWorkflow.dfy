/** The seat part of a provisioning job, killed and resumed any number of times. Every call to Google and
    every access to the job record is one step; between any two the worker may die. One attempt is alive at a
    time (the job's lease and the domain lock); `OverlappingAttemptsShrink` shows what that is for. */
module SeatWorkflow {
  import opened Text
  import opened SeatPlan

  type Domain = string
  type Sku = string

  datatype Sub = Sub(customer: nat, sku: Sku, seats: nat)

  /** Google, as the mock keeps it: customers by id with their domain, subscriptions by id. */
  datatype Google = Google(customers: seq<Domain>, subs: seq<Sub>)

  datatype Request = Request(domain: Domain, sku: Sku, licences: nat)

  /** What the job record keeps between attempts. */
  datatype Job = Job(seatsBefore: Option<nat>, licencesAdded: Option<nat>)

  datatype World = World(google: Google, job: Job)

  datatype Found = Found(sub: nat, seats: nat)

  datatype Pc =
    | Down                                                        // no attempt is alive
    | FindCustomer
    | CreateCustomer
    | ListSubs(customer: nat)
    | ReadBefore(customer: nat, found: Option<Found>)             // _seats_before: look at the job
    | WriteBefore(customer: nat, found: Option<Found>)            // _seats_before: first attempt, record it
    | CreateSub(customer: nat, before: nat)
    | GetSub(sub: nat, before: nat)                               // it existed already
    | Scaling(sub: nat, current: nat, before: nat)
    | Record(charge: nat)                                         // SUBSCRIPTION_CREATED with licences_added
    | Rest(charge: nat)                                           // users, e-mails
    | Completed(charge: nat)
    | Failed

  datatype State = State(req: Request, world: World, pc: Pc)

  /** A call may be answered; be applied but its answer lost, so that it is made again; or fail for good. */
  datatype Step = Resume | Call | LostReply | GivesUp | Crash

  // ---- Google ----

  function FindDomain(customers: seq<Domain>, d: Domain, n: nat): (r: Option<nat>)
    requires n <= |customers|
    ensures r.Some? ==> r.value < n && customers[r.value] == d
    ensures r.None? ==> forall i :: 0 <= i < n ==> customers[i] != d
  {
    if n == 0 then None else if customers[n - 1] == d then Some(n - 1) else FindDomain(customers, d, n - 1)
  }

  function FindSku(subs: seq<Sub>, customer: nat, sku: Sku, n: nat): (r: Option<nat>)
    requires n <= |subs|
    ensures r.Some? ==> r.value < n && subs[r.value].customer == customer && subs[r.value].sku == sku
    ensures r.None? ==> forall i :: 0 <= i < n ==> !(subs[i].customer == customer && subs[i].sku == sku)
  {
    if n == 0 then None
    else if subs[n - 1].customer == customer && subs[n - 1].sku == sku then Some(n - 1)
    else FindSku(subs, customer, sku, n - 1)
  }

  function CustomerOf(g: Google, d: Domain): Option<nat> {
    FindDomain(g.customers, d, |g.customers|)
  }

  function SubOf(g: Google, customer: nat, sku: Sku): Option<nat> {
    FindSku(g.subs, customer, sku, |g.subs|)
  }

  /** create_customer: refused when the domain has one. */
  function WithCustomer(g: Google, d: Domain): Google {
    if CustomerOf(g, d).Some? then g else g.(customers := g.customers + [d])
  }

  /** create_subscription: refused when the customer has one for this SKU. */
  function WithSub(g: Google, customer: nat, sku: Sku, seats: nat): Google {
    if SubOf(g, customer, sku).Some? then g else g.(subs := g.subs + [Sub(customer, sku, seats)])
  }

  function WithSeats(g: Google, sub: nat, seats: nat): Google
    requires sub < |g.subs|
  {
    g.(subs := g.subs[sub := g.subs[sub].(seats := seats)])
  }

  /** The seats the request's domain has for its SKU. */
  function Seats(g: Google, req: Request): nat {
    var c := CustomerOf(g, req.domain);
    if c.None? then 0
    else
      var s := SubOf(g, c.value, req.sku);
      if s.None? then 0 else g.subs[s.value].seats
  }

  // ---- One attempt ----

  function Charge(req: Request, before: nat): nat {
    if req.licences > before then req.licences - before else 0
  }

  /** Once the seats before are known: refuse a reduction, scale up, or be done. */
  function Proceed(req: Request, customer: nat, found: Option<Found>, before: nat): Pc {
    if found.None? then CreateSub(customer, before)
    else if req.licences < found.value.seats then Failed
    else if req.licences > found.value.seats then Scaling(found.value.sub, found.value.seats, before)
    else Record(Charge(req, before))
  }

  /** The effect of the attempt's next call, and where it leads when the answer arrives. */
  ghost predicate Answered(req: Request, w: World, pc: Pc, w': World, pc': Pc) {
    match pc
    case FindCustomer =>
      var c := CustomerOf(w.google, req.domain);
      w' == w && pc' == if c.Some? then ListSubs(c.value) else CreateCustomer
    case CreateCustomer =>
      var g := WithCustomer(w.google, req.domain);
      w' == w.(google := g) && CustomerOf(g, req.domain).Some? && pc' == ListSubs(CustomerOf(g, req.domain).value)
    case ListSubs(c) =>
      var s := SubOf(w.google, c, req.sku);
      w' == w && pc' == ReadBefore(c, if s.Some? then Some(Found(s.value, w.google.subs[s.value].seats)) else None)
    case ReadBefore(c, found) =>
      w' == w && pc' == if w.job.seatsBefore.Some? then Proceed(req, c, found, w.job.seatsBefore.value)
                        else WriteBefore(c, found)
    case WriteBefore(c, found) =>
      var before := if found.Some? then found.value.seats else 0;
      w' == w.(job := w.job.(seatsBefore := Some(before))) && pc' == Proceed(req, c, found, before)
    case CreateSub(c, before) =>
      var existing := SubOf(w.google, c, req.sku);
      var first := Least(req.licences, MAX_PER_CALL);
      w' == w.(google := WithSub(w.google, c, req.sku, first))
      && pc' == if existing.Some? then GetSub(existing.value, before) else Scaling(|w.google.subs|, first, before)
    case GetSub(s, before) =>
      s < |w.google.subs| && w' == w && pc' == Scaling(s, w.google.subs[s].seats, before)
    case Scaling(s, current, before) =>
      if current < req.licences then
        var next := Least(current + MAX_PER_CALL, req.licences);
        s < |w.google.subs| && w' == w.(google := WithSeats(w.google, s, next)) && pc' == Scaling(s, next, before)
      else w' == w && pc' == Record(Charge(req, before))
    case Record(charge) => w' == w.(job := w.job.(licencesAdded := Some(charge))) && pc' == Rest(charge)
    case Rest(charge) => w' == w && pc' == Completed(charge)
    case _ => false
  }

  predicate Alive(pc: Pc) {
    !pc.Down? && !pc.Completed? && !pc.Failed?
  }

  ghost predicate Next(s: State, t: State, step: Step) {
    match step
    case Resume => s.pc.Down? && t == s.(pc := FindCustomer)
    case Call => t.req == s.req && Answered(s.req, s.world, s.pc, t.world, t.pc)
    case LostReply => t.req == s.req && t.pc == s.pc && exists pc' :: Answered(s.req, s.world, s.pc, t.world, pc')
    case GivesUp => Alive(s.pc) && t == s.(pc := Failed)
    case Crash => !s.pc.Down? && t == s.(pc := Down) // also when it has ended, before the job is settled
  }

  ghost predicate OnePerDomain(g: Google) {
    forall i, j :: 0 <= i < j < |g.customers| ==> g.customers[i] != g.customers[j]
  }

  ghost predicate OnePerSku(g: Google) {
    forall i, j :: 0 <= i < j < |g.subs| ==> g.subs[i].customer != g.subs[j].customer || g.subs[i].sku != g.subs[j].sku
  }

  ghost predicate Init(s: State) {
    && s.pc.Down? && s.world.job == Job(None, None) && s.req.licences >= 1
    && OnePerDomain(s.world.google) && OnePerSku(s.world.google)
    && forall i :: 0 <= i < |s.world.google.subs| ==> s.world.google.subs[i].customer < |s.world.google.customers|
  }

  ghost predicate IsRun(run: seq<State>, steps: seq<Step>) {
    && |run| == |steps| + 1
    && Init(run[0])
    && forall i {:trigger steps[i]} :: 0 <= i < |steps| ==> Next(run[i], run[i + 1], steps[i])
  }

  // ---- Invariant ----

  ghost predicate GoogleOk(g: Google) {
    && OnePerDomain(g) && OnePerSku(g)
    && forall i :: 0 <= i < |g.subs| ==> g.subs[i].customer < |g.customers|
  }

  ghost predicate FoundOk(g: Google, req: Request, customer: nat, found: Option<Found>) {
    && CustomerOf(g, req.domain) == Some(customer)
    && var s := SubOf(g, customer, req.sku);
       if found.None? then s.None? else s == Some(found.value.sub) && g.subs[s.value].seats == found.value.seats
  }

  ghost predicate OurSub(g: Google, req: Request, sub: nat) {
    && CustomerOf(g, req.domain).Some?
    && SubOf(g, CustomerOf(g, req.domain).value, req.sku) == Some(sub)
  }

  /** `start` is what Google had before the job's first attempt. */
  ghost predicate PcOk(req: Request, w: World, pc: Pc, start: nat) {
    var seats := Seats(w.google, req);
    match pc
    case ListSubs(c) => CustomerOf(w.google, req.domain) == Some(c)
    case ReadBefore(c, found) => FoundOk(w.google, req, c, found)
    case WriteBefore(c, found) => FoundOk(w.google, req, c, found) && seats == start
    case CreateSub(c, before) =>
      CustomerOf(w.google, req.domain) == Some(c) && before == start == 0 && w.job.seatsBefore.Some?
    case GetSub(s, before) =>
      OurSub(w.google, req, s) && before == start && w.job.seatsBefore.Some? && seats <= req.licences
    case Scaling(s, current, before) =>
      && OurSub(w.google, req, s) && before == start && w.job.seatsBefore.Some?
      && start <= current <= seats <= req.licences && seats <= current + MAX_PER_CALL
    case Record(charge) => seats == req.licences && charge == Charge(req, start) && w.job.seatsBefore.Some?
    case Rest(charge) => seats == req.licences && charge == Charge(req, start) && w.job.licencesAdded == Some(charge)
    case Completed(charge) =>
      seats == req.licences && charge == Charge(req, start) && w.job.licencesAdded == Some(charge)
    case _ => true
  }

  ghost predicate BooksOk(req: Request, w: World, start: nat) {
    var seats := Seats(w.google, req);
    && (if w.job.seatsBefore.Some? then w.job.seatsBefore.value == start else seats == start)
    && start <= seats && (start < seats ==> seats <= req.licences)
    && (w.job.licencesAdded.Some? ==> seats == req.licences && w.job.licencesAdded.value == Charge(req, start))
  }

  ghost predicate Inv(s: State, start: nat) {
    && s.req.licences >= 1
    && GoogleOk(s.world.google) && BooksOk(s.req, s.world, start) && PcOk(s.req, s.world, s.pc, start)
  }

  // ---- What the calls do to the seats ----

  lemma {:induction false} SameSkus(xs: seq<Sub>, ys: seq<Sub>, customer: nat, sku: Sku, n: nat)
    requires n <= |xs| && n <= |ys|
    requires forall i :: 0 <= i < n ==> xs[i].customer == ys[i].customer && xs[i].sku == ys[i].sku
    ensures FindSku(xs, customer, sku, n) == FindSku(ys, customer, sku, n)
  {
    if n > 0 {
      SameSkus(xs, ys, customer, sku, n - 1);
    }
  }

  lemma CustomerCreated(g: Google, req: Request)
    requires GoogleOk(g)
    ensures var h := WithCustomer(g, req.domain);
            GoogleOk(h) && CustomerOf(h, req.domain).Some? && Seats(h, req) == Seats(g, req)
  {
    var h := WithCustomer(g, req.domain);
    if CustomerOf(g, req.domain).None? {
      assert CustomerOf(h, req.domain) == Some(|g.customers|);
      assert SubOf(h, |g.customers|, req.sku).None?;
    }
  }

  lemma SubCreated(g: Google, req: Request, c: nat, seats: nat)
    requires GoogleOk(g) && CustomerOf(g, req.domain) == Some(c)
    ensures var h := WithSub(g, c, req.sku, seats);
            && GoogleOk(h) && CustomerOf(h, req.domain) == Some(c)
            && (SubOf(g, c, req.sku).Some? ==> h == g)
            && (SubOf(g, c, req.sku).None? ==> SubOf(h, c, req.sku) == Some(|g.subs|) && Seats(h, req) == seats)
  {
  }

  lemma SeatsChanged(g: Google, req: Request, sub: nat, seats: nat)
    requires GoogleOk(g) && OurSub(g, req, sub)
    ensures var h := WithSeats(g, sub, seats);
            GoogleOk(h) && OurSub(h, req, sub) && Seats(h, req) == seats
  {
    var h := WithSeats(g, sub, seats);
    SameSkus(g.subs, h.subs, CustomerOf(g, req.domain).value, req.sku, |g.subs|);
  }

  ghost predicate Ready(req: Request, w: World, pc: Pc, start: nat) {
    req.licences >= 1 && GoogleOk(w.google) && BooksOk(req, w, start) && PcOk(req, w, pc, start)
  }

  /** The books stay in order whether the answer arrives or the same call has to be made again; seats only
      grow, by at most 100. */
  ghost predicate Kept(req: Request, w: World, pc: Pc, w': World, pc': Pc, start: nat) {
    && Ready(req, w', pc', start) && PcOk(req, w', pc, start)
    && Seats(w.google, req) <= Seats(w'.google, req) <= Seats(w.google, req) + 100
  }

  lemma CreateSubKeeps(req: Request, w: World, pc: Pc, w': World, pc': Pc, start: nat)
    requires Ready(req, w, pc, start) && Answered(req, w, pc, w', pc') && pc.CreateSub?
    ensures Kept(req, w, pc, w', pc', start)
  {
    SubCreated(w.google, req, pc.customer, Least(req.licences, MAX_PER_CALL));
  }

  lemma ScalingKeeps(req: Request, w: World, pc: Pc, w': World, pc': Pc, start: nat)
    requires Ready(req, w, pc, start) && Answered(req, w, pc, w', pc') && pc.Scaling?
    ensures Kept(req, w, pc, w', pc', start)
  {
    if pc.current < req.licences {
      SeatsChanged(w.google, req, pc.sub, Least(pc.current + MAX_PER_CALL, req.licences));
    }
  }

  lemma AnswerKeeps(req: Request, w: World, pc: Pc, w': World, pc': Pc, start: nat)
    requires Ready(req, w, pc, start) && Answered(req, w, pc, w', pc')
    ensures Kept(req, w, pc, w', pc', start)
  {
    match pc
    case CreateCustomer => CustomerCreated(w.google, req);
    case CreateSub(_, _) => CreateSubKeeps(req, w, pc, w', pc', start);
    case Scaling(_, _, _) => ScalingKeeps(req, w, pc, w', pc', start);
    case _ =>
  }

  lemma KeepInv(s: State, t: State, step: Step, start: nat)
    requires Inv(s, start) && Next(s, t, step)
    ensures Inv(t, start) && t.req == s.req
    ensures Seats(s.world.google, s.req) <= Seats(t.world.google, s.req) <= Seats(s.world.google, s.req) + 100
  {
    match step
    case Call => AnswerKeeps(s.req, s.world, s.pc, t.world, t.pc, start);
    case LostReply =>
      var pc' :| Answered(s.req, s.world, s.pc, t.world, pc');
      AnswerKeeps(s.req, s.world, s.pc, t.world, pc', start);
    case _ =>
  }

  function SeatsIn(s: State): nat {
    Seats(s.world.google, s.req)
  }

  lemma {:induction false} RunInv(run: seq<State>, steps: seq<Step>, i: nat)
    requires IsRun(run, steps) && i < |run|
    ensures Inv(run[i], SeatsIn(run[0])) && run[i].req == run[0].req
  {
    if i > 0 {
      RunInv(run, steps, i - 1);
      assert Next(run[i - 1], run[i], steps[i - 1]);
      KeepInv(run[i - 1], run[i], steps[i - 1], SeatsIn(run[0]));
    }
  }

  // ---- Results ----

  /** However often the job is killed, wherever, and resumed: when it completes, the domain has exactly the
      seats asked for, it has one customer with one subscription for the SKU, and the charge is what Google
      had to add to what was there before the first attempt. */
  lemma CompletedExactly(run: seq<State>, steps: seq<Step>, i: nat)
    requires IsRun(run, steps) && i < |run| && run[i].pc.Completed?
    ensures var g, req := run[i].world.google, run[i].req;
            && Seats(g, req) == req.licences
            && run[i].pc.charge == req.licences - SeatsIn(run[0])
            && (exists c: nat :: c < |g.customers| && g.customers[c] == req.domain
                 && (forall d: nat :: d < |g.customers| && g.customers[d] == req.domain ==> d == c)
                 && exists u: nat :: u < |g.subs| && g.subs[u] == Sub(c, req.sku, req.licences)
                      && forall v: nat :: v < |g.subs| && g.subs[v].customer == c && g.subs[v].sku == req.sku ==>
                          v == u)
  {
    RunInv(run, steps, i);
    var g, req := run[i].world.google, run[i].req;
    var c := CustomerOf(g, req.domain).value;
    var u := SubOf(g, c, req.sku).value;
    assert g.subs[u] == Sub(c, req.sku, req.licences);
  }

  /** Seats never shrink, grow by at most 100 per step, and never pass the target. */
  lemma {:induction false} SeatsOnlyGrow(run: seq<State>, steps: seq<Step>, i: nat, j: nat)
    requires IsRun(run, steps) && i <= j < |run|
    ensures Seats(run[i].world.google, run[0].req) <= Seats(run[j].world.google, run[0].req)
    ensures Seats(run[j].world.google, run[0].req) <= Seats(run[i].world.google, run[0].req) + 100 * (j - i)
    ensures Seats(run[j].world.google, run[0].req) > SeatsIn(run[0]) ==>
              Seats(run[j].world.google, run[0].req) <= run[0].req.licences
    decreases j
  {
    RunInv(run, steps, j);
    if i < j {
      SeatsOnlyGrow(run, steps, i, j - 1);
      RunInv(run, steps, j - 1);
      assert Next(run[j - 1], run[j], steps[j - 1]);
      KeepInv(run[j - 1], run[j], steps[j - 1], SeatsIn(run[0]));
    }
  }

  /** The step has Google add seats, whether the answer arrives or is lost: it creates the subscription, or
      scales it below the target. */
  predicate AddsSeats(s: State, step: Step) {
    && (step.Call? || step.LostReply?)
    && match s.pc
       case CreateSub(c, _) => SubOf(s.world.google, c, s.req.sku).None?
       case Scaling(_, current, _) => current < s.req.licences
       case _ => false
  }

  ghost predicate SeatsAddedBefore(run: seq<State>, steps: seq<Step>, i: nat)
    requires |run| == |steps| + 1 && i <= |steps|
  {
    exists m :: 0 <= m < i && AddsSeats(run[m], steps[m])
  }

  lemma AnswerAdds(req: Request, w: World, pc: Pc, w': World, pc': Pc, start: nat)
    requires Ready(req, w, pc, start) && Answered(req, w, pc, w', pc')
    ensures if AddsSeats(State(req, w, pc), Call) then Seats(w'.google, req) > start
            else Seats(w'.google, req) == Seats(w.google, req)
  {
    match pc
    case CreateCustomer => CustomerCreated(w.google, req);
    case CreateSub(c, _) => SubCreated(w.google, req, c, Least(req.licences, MAX_PER_CALL));
    case Scaling(sub, current, _) =>
      if current < req.licences {
        SeatsChanged(w.google, req, sub, Least(current + MAX_PER_CALL, req.licences));
      }
    case _ =>
  }

  lemma StepAdds(s: State, t: State, step: Step, start: nat)
    requires Inv(s, start) && Next(s, t, step)
    ensures if AddsSeats(s, step) then SeatsIn(t) > start else SeatsIn(t) == SeatsIn(s)
    ensures SeatsIn(s) <= SeatsIn(t)
  {
    KeepInv(s, t, step, start);
    match step
    case Call => AnswerAdds(s.req, s.world, s.pc, t.world, t.pc, start);
    case LostReply =>
      var pc' :| Answered(s.req, s.world, s.pc, t.world, pc');
      AnswerAdds(s.req, s.world, s.pc, t.world, pc', start);
    case _ =>
  }

  lemma RunStepAdds(run: seq<State>, steps: seq<Step>, m: nat)
    requires IsRun(run, steps) && m < |steps|
    ensures if AddsSeats(run[m], steps[m]) then SeatsIn(run[m + 1]) > SeatsIn(run[0])
            else SeatsIn(run[m + 1]) == SeatsIn(run[m])
    ensures SeatsIn(run[m]) <= SeatsIn(run[m + 1])
  {
    RunInv(run, steps, m);
    StepAdds(run[m], run[m + 1], steps[m], SeatsIn(run[0]));
  }

  /** A number that a marked step raises above its start, and that never falls and otherwise stays. */
  ghost predicate Raised(numbers: seq<nat>, marks: seq<bool>) {
    && |numbers| == |marks| + 1
    && forall m {:trigger marks[m]} {:trigger numbers[m + 1]} :: 0 <= m < |marks| ==>
         numbers[m] <= numbers[m + 1] && if marks[m] then numbers[m + 1] > numbers[0] else numbers[m + 1] == numbers[m]
  }

  lemma {:induction false} RaisedIff(numbers: seq<nat>, marks: seq<bool>, i: nat)
    requires Raised(numbers, marks) && i < |numbers|
    ensures numbers[i] >= numbers[0]
    ensures numbers[i] > numbers[0] <==> true in marks[..i]
  {
    if i > 0 {
      RaisedIff(numbers, marks, i - 1);
      assert marks[..i] == marks[..i - 1] + [marks[i - 1]];
    }
  }

  function SeatsAlong(run: seq<State>): (numbers: seq<nat>)
    ensures |numbers| == |run| && forall m :: 0 <= m < |run| ==> numbers[m] == SeatsIn(run[m])
  {
    seq(|run|, m requires 0 <= m < |run| => SeatsIn(run[m]))
  }

  function AddsAlong(run: seq<State>, steps: seq<Step>): (marks: seq<bool>)
    requires |run| == |steps| + 1
    ensures |marks| == |steps| && forall m :: 0 <= m < |steps| ==> marks[m] == AddsSeats(run[m], steps[m])
  {
    seq(|steps|, m requires 0 <= m < |steps| => AddsSeats(run[m], steps[m]))
  }

  lemma RunRaises(run: seq<State>, steps: seq<Step>)
    requires IsRun(run, steps)
    ensures Raised(SeatsAlong(run), AddsAlong(run, steps))
  {
    var numbers, marks := SeatsAlong(run), AddsAlong(run, steps);
    forall m | 0 <= m < |marks|
      ensures numbers[m] <= numbers[m + 1]
              && if marks[m] then numbers[m + 1] > numbers[0] else numbers[m + 1] == numbers[m]
    {
      RunStepAdds(run, steps, m);
    }
  }

  lemma AddedBefore(run: seq<State>, steps: seq<Step>, i: nat)
    requires |run| == |steps| + 1 && i <= |steps|
    ensures SeatsAddedBefore(run, steps, i) <==> true in AddsAlong(run, steps)[..i]
  {
    var marks := AddsAlong(run, steps);
    if SeatsAddedBefore(run, steps, i) {
      var m :| 0 <= m < i && AddsSeats(run[m], steps[m]);
      assert marks[..i][m];
    }
    if true in marks[..i] {
      var m :| 0 <= m < i && marks[..i][m];
      assert marks[m];
    }
  }

  /** Google has more seats than before the first attempt exactly when some call had it add seats. */
  lemma GrownIff(run: seq<State>, steps: seq<Step>, i: nat)
    requires IsRun(run, steps) && i < |run|
    ensures SeatsIn(run[i]) > SeatsIn(run[0]) <==> SeatsAddedBefore(run, steps, i)
  {
    RunRaises(run, steps);
    RaisedIff(SeatsAlong(run), AddsAlong(run, steps), i);
    AddedBefore(run, steps, i);
  }

  /** What `run_job` and the reconciler charge when the attempt did not complete. */
  function Noted(w: World): nat {
    if w.job.licencesAdded.Some? then w.job.licencesAdded.value else 0
  }

  /** The recorded licences, read at any moment i, are what Google has added by any later moment j exactly when
      the record had been written at i, or by j no call has had Google add a seat. */
  lemma NotedChargeIff(run: seq<State>, steps: seq<Step>, i: nat, j: nat)
    requires IsRun(run, steps) && i <= j < |run|
    ensures Noted(run[i].world) == SeatsIn(run[j]) - SeatsIn(run[0]) <==>
              run[i].world.job.licencesAdded.Some? || !SeatsAddedBefore(run, steps, j)
  {
    RunInv(run, steps, i);
    RunInv(run, steps, j);
    GrownIff(run, steps, j);
    SeatsOnlyGrow(run, steps, i, j);
  }

  /** So a job that is charged from the record, because its attempt failed or its worker is gone, is charged what
      Google has added so far exactly when the record was written or nothing had been added. */
  lemma FailedChargeIff(run: seq<State>, steps: seq<Step>, i: nat)
    requires IsRun(run, steps) && i < |run|
    ensures Noted(run[i].world) == SeatsIn(run[i]) - SeatsIn(run[0]) <==>
              run[i].world.job.licencesAdded.Some? || !SeatsAddedBefore(run, steps, i)
  {
    NotedChargeIff(run, steps, i, i);
  }

  ghost predicate Reachable(start: State, s: State) {
    exists run, steps :: IsRun(run, steps) && run[0] == start && run[|steps|] == s
  }

  lemma Onward(start: State, s: State, t: State, step: Step)
    requires Reachable(start, s) && Next(s, t, step)
    ensures Reachable(start, t)
  {
    var run, steps :| IsRun(run, steps) && run[0] == start && run[|steps|] == s;
    assert IsRun(run + [t], steps + [step]);
  }

  /** A domain with ten seats, before the first attempt and about to be scaled. */
  function Before(req: Request): State {
    State(req, World(Google([req.domain], [Sub(0, req.sku, 10)]), Job(None, None)), Down)
  }

  function Scaled(req: Request, seats: nat): State {
    State(req, World(Google([req.domain], [Sub(0, req.sku, seats)]), Job(Some(10), None)), Scaling(0, seats, 10))
  }

  lemma OneSub(req: Request, seats: nat)
    ensures var g := Google([req.domain], [Sub(0, req.sku, seats)]);
            CustomerOf(g, req.domain) == Some(0) && SubOf(g, 0, req.sku) == Some(0) && Seats(g, req) == seats
  {
  }

  lemma ScalingReached(req: Request)
    requires req.licences > 10
    ensures Reachable(Before(req), Scaled(req, 10))
  {
    OneSub(req, 10);
    var s0, found := Before(req), Some(Found(0, 10));
    var s1, s2, s3, s4 := s0.(pc := FindCustomer), s0.(pc := ListSubs(0)), s0.(pc := ReadBefore(0, found)),
      s0.(pc := WriteBefore(0, found));
    assert IsRun([s0], []);
    Onward(s0, s0, s1, Resume);
    Onward(s0, s1, s2, Call);
    Onward(s0, s2, s3, Call);
    Onward(s0, s3, s4, Call);
    Onward(s0, s4, Scaled(req, 10), Call);
  }

  lemma ScaledOnce(req: Request)
    requires req.licences >= 110
    ensures Next(Scaled(req, 10), Scaled(req, 110), Call)
  {
    OneSub(req, 10);
    assert WithSeats(Scaled(req, 10).world.google, 0, 110) == Scaled(req, 110).world.google;
  }

  /** Ten seats, 300 asked for: one scaling call gets through, and the job fails for good. It is charged
      nothing for the hundred seats Google added. */
  lemma FailedJobUncharged(domain: Domain, sku: Sku)
    ensures exists start, s ::
              && Reachable(start, s) && s.pc.Failed?
              && SeatsIn(start) == 10 && SeatsIn(s) == 110 && Noted(s.world) == 0
  {
    var req := Request(domain, sku, 300);
    OneSub(req, 10);
    OneSub(req, 110);
    ScalingReached(req);
    ScaledOnce(req);
    Onward(Before(req), Scaled(req, 10), Scaled(req, 110), Call);
    Onward(Before(req), Scaled(req, 110), Scaled(req, 110).(pc := Failed), GivesUp);
  }

  /** A request for fewer seats than there are changes nothing and never completes. */
  lemma ReductionRefused(run: seq<State>, steps: seq<Step>, i: nat)
    requires IsRun(run, steps) && i < |run| && run[0].req.licences < SeatsIn(run[0])
    ensures Seats(run[i].world.google, run[i].req) == SeatsIn(run[0]) && !run[i].pc.Completed?
  {
    RunInv(run, steps, i);
  }

  /** Two attempts alive at once: the first has decided on 200 seats, the second goes on to 300; the first's
      call then takes a hundred seats away. */
  lemma OverlappingAttemptsShrink(domain: Domain, sku: Sku)
    ensures var req := Request(domain, sku, 300);
            var job := Job(Some(0), None);
            var g1 := Google([domain], [Sub(0, sku, 100)]);
            var g2, g3 := WithSeats(g1, 0, 200), WithSeats(g1, 0, 300);
            var mine := Scaling(0, 100, 0);
            && Answered(req, World(g1, job), mine, World(g2, job), Scaling(0, 200, 0))
            && Answered(req, World(g2, job), Scaling(0, 200, 0), World(g3, job), Scaling(0, 300, 0))
            && Answered(req, World(g3, job), mine, World(g2, job), Scaling(0, 200, 0))
            && Seats(g2, req) < Seats(g3, req)
  {
    var req := Request(domain, sku, 300);
    var g1 := Google([domain], [Sub(0, sku, 100)]);
    var g2, g3 := WithSeats(g1, 0, 200), WithSeats(g1, 0, 300);
    assert CustomerOf(g2, domain) == Some(0) && CustomerOf(g3, domain) == Some(0);
    assert SubOf(g2, 0, sku) == Some(0) && SubOf(g3, 0, sku) == Some(0);
    assert WithSeats(g2, 0, 300) == g3 && WithSeats(g3, 0, 200) == g2;
  }
}
