/** The daily licence report: one pass over jobs and audit entries into day rows and partner buckets. */
module Usage {
  import opened Text

  datatype Field = DomainsCreated | LicencesNew | LicencesAddedLater | LicencesRemoved | LicencesReleased | FailedJobs

  datatype Counts = Counts(created: int, newly: int, later: int, removed: int, released: int, failed: int) {
    function Get(f: Field): int {
      match f
      case DomainsCreated => created
      case LicencesNew => newly
      case LicencesAddedLater => later
      case LicencesRemoved => removed
      case LicencesReleased => released
      case FailedJobs => failed
    }

    function Plus(f: Field, n: int): Counts {
      match f
      case DomainsCreated => this.(created := created + n)
      case LicencesNew => this.(newly := newly + n)
      case LicencesAddedLater => this.(later := later + n)
      case LicencesRemoved => this.(removed := removed + n)
      case LicencesReleased => this.(released := released + n)
      case FailedJobs => this.(failed := failed + n)
    }

    function And(other: Counts): Counts {
      Counts(created + other.created, newly + other.newly, later + other.later,
             removed + other.removed, released + other.released, failed + other.failed)
    }

    function Net(): int {
      newly + later - removed - released
    }
  }

  const ZERO := Counts(0, 0, 0, 0, 0, 0)

  datatype JobStatus = Done | Failed | Running

  /** Times are minutes since the epoch, UTC; the reseller id may be empty. */
  datatype Job = Job(reseller: string, status: JobStatus, created: Option<int>, added: int, licensedSeats: Option<int>)

  datatype Action = LicencesChanged | DomainTransfer | OtherAction

  datatype Entry = Entry(reseller: string, success: bool, action: Action, time: Option<int>, licences: int)

  /** The day in India (UTC+5:30) of a moment. */
  function DayOf(time: Option<int>): Option<int> {
    if time.None? then None else Some((time.value + 330) / 1440)
  }

  // ---- What is counted ----

  /** One call of `add`: an amount for a field, on a day, in a partner's bucket. */
  datatype Posting = Posting(day: Option<int>, reseller: string, field: Field, amount: int)

  const NO_PARTNER := "(none)"

  function Bucket(reseller: string): string {
    if reseller == "" then NO_PARTNER else reseller
  }

  function Abs(n: int): int {
    if n < 0 then -n else n
  }

  function JobPostings(j: Job): seq<Posting> {
    var day := DayOf(j.created);
    match j.status
    case Done =>
      var seats := if j.added != 0 then j.added else if j.licensedSeats.Some? then j.licensedSeats.value else 0;
      [Posting(day, j.reseller, DomainsCreated, 1), Posting(day, j.reseller, LicencesNew, seats)]
    case Failed => [Posting(day, j.reseller, FailedJobs, 1)]
    case Running => []
  }

  function EntryPostings(e: Entry): seq<Posting> {
    var day := DayOf(e.time);
    if !e.success then []
    else
      match e.action
      case LicencesChanged =>
        [Posting(day, e.reseller, if e.licences > 0 then LicencesAddedLater else LicencesRemoved, Abs(e.licences))]
      case DomainTransfer => [Posting(day, e.reseller, LicencesReleased, Abs(e.licences))]
      case OtherAction => []
  }

  /** An empty filter means no filter. */
  predicate Passes(reseller: string, filter: string) {
    filter == "" || reseller == filter
  }

  function JobsPostings(jobs: seq<Job>, filter: string): seq<Posting> {
    if jobs == [] then []
    else
      var last := jobs[|jobs| - 1];
      JobsPostings(jobs[..|jobs| - 1], filter) + (if Passes(last.reseller, filter) then JobPostings(last) else [])
  }

  function AuditPostings(audit: seq<Entry>, filter: string): seq<Posting> {
    if audit == [] then []
    else
      var last := audit[|audit| - 1];
      AuditPostings(audit[..|audit| - 1], filter) + (if Passes(last.reseller, filter) then EntryPostings(last) else [])
  }

  function Postings(jobs: seq<Job>, audit: seq<Entry>, filter: string): seq<Posting> {
    JobsPostings(jobs, filter) + AuditPostings(audit, filter)
  }

  // ---- Reference sums ----

  datatype Window = Window(start: int, days: nat)

  datatype Pick = OnDay(day: int) | InBucket(name: string) | Anonymous | All

  predicate Picked(p: Posting, w: Window, pick: Pick) {
    && p.day.Some? && w.start <= p.day.value < w.start + w.days
    && match pick
       case OnDay(day) => p.day.value == day
       case InBucket(name) => Bucket(p.reseller) == name
       case Anonymous => p.reseller == ""
       case All => true
  }

  function Total(ps: seq<Posting>, w: Window, pick: Pick, f: Field): int {
    if ps == [] then 0
    else
      var last := ps[|ps| - 1];
      Total(ps[..|ps| - 1], w, pick, f) + (if last.field == f && Picked(last, w, pick) then last.amount else 0)
  }

  lemma {:induction false} TotalAppend(ps: seq<Posting>, qs: seq<Posting>, w: Window, pick: Pick, f: Field)
    ensures Total(ps + qs, w, pick, f) == Total(ps, w, pick, f) + Total(qs, w, pick, f)
  {
    if qs == [] {
      assert ps + qs == ps;
    } else {
      TotalAppend(ps, qs[..|qs| - 1], w, pick, f);
      assert (ps + qs)[..|ps + qs| - 1] == ps + qs[..|qs| - 1];
    }
  }

  // ---- What the records themselves say ----

  /** Moments are counted by their day in India, which begins 330 minutes before the day in UTC. */
  predicate Counted(time: Option<int>, reseller: string, w: Window, pick: Pick) {
    && time.Some? && w.start * 1440 <= time.value + 330 < (w.start + w.days) * 1440
    && match pick
       case OnDay(day) => day * 1440 <= time.value + 330 < (day + 1) * 1440
       case InBucket(name) => name == if reseller == "" then "(none)" else reseller
       case Anonymous => reseller == ""
       case All => true
  }

  /** A finished job is a domain with its licences, a failed one a failure. */
  function JobSheet(j: Job): Counts {
    if j.status.Done? then
      var seats := if j.added != 0 then j.added else if j.licensedSeats.Some? then j.licensedSeats.value else 0;
      Counts(1, seats, 0, 0, 0, 0)
    else Counts(0, 0, 0, 0, 0, if j.status.Failed? then 1 else 0)
  }

  /** A successful change adds or removes licences, a successful transfer releases them. */
  function EntrySheet(e: Entry): Counts {
    var n := e.licences;
    if e.success && e.action.LicencesChanged? then Counts(0, 0, if n > 0 then n else 0, if n < 0 then -n else 0, 0, 0)
    else Counts(0, 0, 0, 0, if e.success && e.action.DomainTransfer? then (if n < 0 then -n else n) else 0, 0)
  }

  function JobsSheet(jobs: seq<Job>, filter: string, w: Window, pick: Pick): Counts {
    if jobs == [] then Counts(0, 0, 0, 0, 0, 0)
    else
      var last := jobs[|jobs| - 1];
      var before := JobsSheet(jobs[..|jobs| - 1], filter, w, pick);
      if (filter == "" || last.reseller == filter) && Counted(last.created, last.reseller, w, pick)
      then before.And(JobSheet(last)) else before
  }

  function AuditSheet(audit: seq<Entry>, filter: string, w: Window, pick: Pick): Counts {
    if audit == [] then Counts(0, 0, 0, 0, 0, 0)
    else
      var last := audit[|audit| - 1];
      var before := AuditSheet(audit[..|audit| - 1], filter, w, pick);
      if (filter == "" || last.reseller == filter) && Counted(last.time, last.reseller, w, pick)
      then before.And(EntrySheet(last)) else before
  }

  /** What all jobs and audit entries that pass the filter add up to, on a day, for a partner or altogether. */
  function Sheet(jobs: seq<Job>, audit: seq<Entry>, filter: string, w: Window, pick: Pick): Counts {
    JobsSheet(jobs, filter, w, pick).And(AuditSheet(audit, filter, w, pick))
  }

  lemma CountedIsPicked(time: Option<int>, reseller: string, w: Window, pick: Pick, f: Field, amount: int)
    ensures Counted(time, reseller, w, pick) == Picked(Posting(DayOf(time), reseller, f, amount), w, pick)
  {
  }

  lemma TotalOfOne(p: Posting, w: Window, pick: Pick, f: Field)
    ensures Total([p], w, pick, f) == if p.field == f && Picked(p, w, pick) then p.amount else 0
  {
    assert [p][..0] == [];
    assert Total([p][..0], w, pick, f) == 0;
  }

  lemma TotalOfTwo(p: Posting, q: Posting, w: Window, pick: Pick, f: Field)
    ensures Total([p, q], w, pick, f) == Total([p], w, pick, f) + Total([q], w, pick, f)
  {
    assert [p] + [q] == [p, q];
    TotalAppend([p], [q], w, pick, f);
  }

  lemma JobTotal(j: Job, w: Window, pick: Pick, f: Field)
    ensures Total(JobPostings(j), w, pick, f) ==
            if Counted(j.created, j.reseller, w, pick) then JobSheet(j).Get(f) else 0
  {
    forall g, amount { CountedIsPicked(j.created, j.reseller, w, pick, g, amount); }
    var ps := JobPostings(j);
    match j.status
    case Done =>
      TotalOfTwo(ps[0], ps[1], w, pick, f);
      TotalOfOne(ps[0], w, pick, f);
      TotalOfOne(ps[1], w, pick, f);
    case Failed => TotalOfOne(ps[0], w, pick, f);
    case Running =>
  }

  lemma EntryTotal(e: Entry, w: Window, pick: Pick, f: Field)
    ensures Total(EntryPostings(e), w, pick, f) ==
            if Counted(e.time, e.reseller, w, pick) then EntrySheet(e).Get(f) else 0
  {
    forall g, amount { CountedIsPicked(e.time, e.reseller, w, pick, g, amount); }
    var ps := EntryPostings(e);
    if ps != [] {
      assert ps == [ps[0]];
      TotalOfOne(ps[0], w, pick, f);
    }
  }

  lemma AndAdds(a: Counts, b: Counts, f: Field)
    ensures a.And(b).Get(f) == a.Get(f) + b.Get(f)
  {
  }

  lemma {:induction false} JobsTotal(jobs: seq<Job>, filter: string, w: Window, pick: Pick, f: Field)
    ensures Total(JobsPostings(jobs, filter), w, pick, f) == JobsSheet(jobs, filter, w, pick).Get(f)
  {
    if jobs != [] {
      var n := |jobs| - 1;
      JobsTotal(jobs[..n], filter, w, pick, f);
      JobTotal(jobs[n], w, pick, f);
      AndAdds(JobsSheet(jobs[..n], filter, w, pick), JobSheet(jobs[n]), f);
      TotalAppend(JobsPostings(jobs[..n], filter),
                  if Passes(jobs[n].reseller, filter) then JobPostings(jobs[n]) else [], w, pick, f);
    }
  }

  lemma {:induction false} AuditTotal(audit: seq<Entry>, filter: string, w: Window, pick: Pick, f: Field)
    ensures Total(AuditPostings(audit, filter), w, pick, f) == AuditSheet(audit, filter, w, pick).Get(f)
  {
    if audit != [] {
      var n := |audit| - 1;
      AuditTotal(audit[..n], filter, w, pick, f);
      EntryTotal(audit[n], w, pick, f);
      AndAdds(AuditSheet(audit[..n], filter, w, pick), EntrySheet(audit[n]), f);
      TotalAppend(AuditPostings(audit[..n], filter),
                  if Passes(audit[n].reseller, filter) then EntryPostings(audit[n]) else [], w, pick, f);
    }
  }

  /** The amounts handed to `add` come to exactly what the records say, for every field, day and partner. */
  lemma PostingsSaySheet(jobs: seq<Job>, audit: seq<Entry>, filter: string, w: Window, pick: Pick, f: Field)
    ensures Total(Postings(jobs, audit, filter), w, pick, f) == Sheet(jobs, audit, filter, w, pick).Get(f)
  {
    JobsTotal(jobs, filter, w, pick, f);
    AuditTotal(audit, filter, w, pick, f);
    TotalAppend(JobsPostings(jobs, filter), AuditPostings(audit, filter), w, pick, f);
  }

  lemma SameCounts(a: Counts, b: Counts)
    requires forall f :: a.Get(f) == b.Get(f)
    ensures a == b
  {
    assert a.Get(DomainsCreated) == b.Get(DomainsCreated) && a.Get(LicencesNew) == b.Get(LicencesNew);
    assert a.Get(LicencesAddedLater) == b.Get(LicencesAddedLater) && a.Get(LicencesRemoved) == b.Get(LicencesRemoved);
    assert a.Get(LicencesReleased) == b.Get(LicencesReleased) && a.Get(FailedJobs) == b.Get(FailedJobs);
  }

  // ---- The books ----

  datatype Partner = Partner(name: string, counts: Counts)

  /** Day rows, oldest first, and partner buckets in order of first use. */
  datatype Books = Books(window: Window, rows: seq<Counts>, partners: seq<Partner>)

  predicate Named(partners: seq<Partner>, name: string, k: nat) {
    k < |partners| && partners[k].name == name
  }

  function Find(partners: seq<Partner>, name: string): (k: nat)
    ensures k <= |partners| && (k < |partners| ==> partners[k].name == name)
    ensures forall i :: 0 <= i < k ==> partners[i].name != name
  {
    if partners == [] then 0
    else if partners[0].name == name then 0
    else Find(partners[1..], name) + 1
  }

  function PostPartner(partners: seq<Partner>, name: string, f: Field, amount: int): seq<Partner> {
    var k := Find(partners, name);
    if k < |partners| then partners[k := Partner(name, partners[k].counts.Plus(f, amount))]
    else partners + [Partner(name, ZERO.Plus(f, amount))]
  }

  /** `add` */
  function Post(b: Books, p: Posting): Books
    requires |b.rows| == b.window.days
  {
    if p.day.None? || !(b.window.start <= p.day.value < b.window.start + b.window.days) || p.amount == 0 then b
    else
      var i := p.day.value - b.window.start;
      b.(rows := b.rows[i := b.rows[i].Plus(p.field, p.amount)],
         partners := PostPartner(b.partners, Bucket(p.reseller), p.field, p.amount))
  }

  /** A partner's figure; a partner that never posted has none, which counts as 0. */
  function Figure(partners: seq<Partner>, name: string, f: Field): int {
    var k := Find(partners, name);
    if k < |partners| then partners[k].counts.Get(f) else 0
  }

  predicate DistinctNames(partners: seq<Partner>) {
    forall i, j :: 0 <= i < j < |partners| ==> partners[i].name != partners[j].name
  }

  function SumOf(rows: seq<Counts>, f: Field): int {
    if rows == [] then 0 else SumOf(rows[..|rows| - 1], f) + rows[|rows| - 1].Get(f)
  }

  function NetSum(rows: seq<Counts>): int {
    if rows == [] then 0 else NetSum(rows[..|rows| - 1]) + rows[|rows| - 1].Net()
  }

  /** What each partner's bucket holds. */
  function Sheets(partners: seq<Partner>): (rows: seq<Counts>)
    ensures |rows| == |partners| && forall i :: 0 <= i < |rows| ==> rows[i] == partners[i].counts
  {
    seq(|partners|, i requires 0 <= i < |partners| => partners[i].counts)
  }

  /** The books say what the postings add up to: by day, by partner, and both ways in total. */
  ghost predicate Tallies(b: Books, ps: seq<Posting>) {
    && |b.rows| == b.window.days && DistinctNames(b.partners)
    && (forall i, f {:trigger b.rows[i].Get(f)} :: 0 <= i < |b.rows| ==>
          b.rows[i].Get(f) == Total(ps, b.window, OnDay(b.window.start + i), f))
    && (forall name, f :: Figure(b.partners, name, f) == Total(ps, b.window, InBucket(name), f))
    && (forall f :: SumOf(b.rows, f) == Total(ps, b.window, All, f))
    && (forall f :: SumOf(Sheets(b.partners), f) == Total(ps, b.window, All, f))
  }

  lemma {:induction false} RowUpdate(rows: seq<Counts>, k: nat, c: Counts, f: Field)
    requires k < |rows|
    ensures SumOf(rows[k := c], f) == SumOf(rows, f) - rows[k].Get(f) + c.Get(f)
  {
    var n := |rows| - 1;
    if k < n {
      assert rows[k := c][..n] == rows[..n][k := c];
      RowUpdate(rows[..n], k, c, f);
    } else {
      assert rows[k := c][..n] == rows[..n];
    }
  }

  lemma FindIs(partners: seq<Partner>, name: string, k: nat)
    requires DistinctNames(partners) && Named(partners, name, k)
    ensures Find(partners, name) == k
  {
  }

  /** Posting to `name` moves that partner's figure and nobody else's. */
  lemma PostPartnerFigure(partners: seq<Partner>, name: string, f: Field, amount: int, other: string, g: Field)
    requires DistinctNames(partners)
    ensures var after := PostPartner(partners, name, f, amount);
            Figure(after, other, g) == Figure(partners, other, g) + (if other == name && g == f then amount else 0)
  {
    var k := Find(partners, name);
    var after := PostPartner(partners, name, f, amount);
    assert Named(after, name, k);
    if other == name {
      FindIs(after, name, k);
    } else {
      var i := Find(partners, other);
      if i < |partners| {
        assert Named(after, other, i);
        FindIs(after, other, i);
      } else {
        assert forall j :: 0 <= j < |after| ==> after[j].name != other;
      }
    }
  }

  lemma PostPartnerSum(partners: seq<Partner>, name: string, f: Field, amount: int, g: Field)
    ensures SumOf(Sheets(PostPartner(partners, name, f, amount)), g) ==
            SumOf(Sheets(partners), g) + (if g == f then amount else 0)
  {
    var k := Find(partners, name);
    var after := PostPartner(partners, name, f, amount);
    if k < |partners| {
      assert Sheets(after) == Sheets(partners)[k := after[k].counts];
      RowUpdate(Sheets(partners), k, after[k].counts, g);
    } else {
      assert Sheets(after)[..|partners|] == Sheets(partners);
    }
  }

  lemma {:induction false} NetIsLinear(rows: seq<Counts>)
    ensures NetSum(rows) == SumOf(rows, LicencesNew) + SumOf(rows, LicencesAddedLater)
                            - SumOf(rows, LicencesRemoved) - SumOf(rows, LicencesReleased)
  {
    if rows != [] {
      NetIsLinear(rows[..|rows| - 1]);
    }
  }

  /** A posting that falls in the window moves its own day's row, by its own amount and field. */
  lemma PostRows(b: Books, ps: seq<Posting>, p: Posting, i: nat, g: Field)
    requires |b.rows| == b.window.days && i < |b.rows|
    ensures Post(b, p).rows[i].Get(g) - b.rows[i].Get(g) ==
            Total(ps + [p], b.window, OnDay(b.window.start + i), g) - Total(ps, b.window, OnDay(b.window.start + i), g)
  {
    assert (ps + [p])[..|ps|] == ps;
  }

  lemma PostFigures(b: Books, ps: seq<Posting>, p: Posting, name: string, g: Field)
    requires |b.rows| == b.window.days && DistinctNames(b.partners)
    ensures Figure(Post(b, p).partners, name, g) - Figure(b.partners, name, g) ==
            Total(ps + [p], b.window, InBucket(name), g) - Total(ps, b.window, InBucket(name), g)
  {
    assert (ps + [p])[..|ps|] == ps;
    PostPartnerFigure(b.partners, Bucket(p.reseller), p.field, p.amount, name, g);
  }

  lemma PostSums(b: Books, ps: seq<Posting>, p: Posting, g: Field)
    requires |b.rows| == b.window.days
    ensures SumOf(Post(b, p).rows, g) - SumOf(b.rows, g) ==
            SumOf(Sheets(Post(b, p).partners), g) - SumOf(Sheets(b.partners), g) ==
            Total(ps + [p], b.window, All, g) - Total(ps, b.window, All, g)
  {
    assert (ps + [p])[..|ps|] == ps;
    var after := Post(b, p);
    if after != b {
      var k := p.day.value - b.window.start;
      RowUpdate(b.rows, k, after.rows[k], g);
      PostPartnerSum(b.partners, Bucket(p.reseller), p.field, p.amount, g);
    }
  }

  lemma PostKeepsTallies(b: Books, ps: seq<Posting>, p: Posting)
    requires Tallies(b, ps)
    ensures Tallies(Post(b, p), ps + [p])
  {
    forall i, g | 0 <= i < |b.rows|
      ensures Post(b, p).rows[i].Get(g) == Total(ps + [p], b.window, OnDay(b.window.start + i), g)
    {
      PostRows(b, ps, p, i, g);
      assert b.rows[i].Get(g) == Total(ps, b.window, OnDay(b.window.start + i), g);
    }
    forall name, g ensures Figure(Post(b, p).partners, name, g) == Total(ps + [p], b.window, InBucket(name), g) {
      PostFigures(b, ps, p, name, g);
    }
    forall g
      ensures SumOf(Post(b, p).rows, g) == SumOf(Sheets(Post(b, p).partners), g) == Total(ps + [p], b.window, All, g)
    {
      PostSums(b, ps, p, g);
    }
  }

  lemma {:induction false} NothingYet(rows: seq<Counts>, f: Field)
    requires forall i :: 0 <= i < |rows| ==> rows[i] == ZERO
    ensures SumOf(rows, f) == 0
  {
    if rows != [] {
      NothingYet(rows[..|rows| - 1], f);
    }
  }

  // ---- The report ----

  datatype Row = Row(day: int, counts: Counts, net: int)

  datatype Report = Report(window: Window, totals: Counts, net: int, daily: seq<Row>, partners: seq<Partner>)

  function Clamp(days: int): nat {
    if days < 1 then 1 else if days > 365 then 365 else days
  }

  function DaySheets(daily: seq<Row>): (rows: seq<Counts>)
    ensures |rows| == |daily| && forall i :: 0 <= i < |rows| ==> rows[i] == daily[i].counts
  {
    seq(|daily|, i requires 0 <= i < |daily| => daily[i].counts)
  }

  method PostAll(b: Books, qs: seq<Posting>, ghost ps: seq<Posting>) returns (after: Books)
    requires Tallies(b, ps)
    ensures Tallies(after, ps + qs) && after.window == b.window
  {
    after := b;
    assert ps + qs[..0] == ps;
    for n := 0 to |qs|
      invariant Tallies(after, ps + qs[..n]) && after.window == b.window
    {
      PostKeepsTallies(after, ps + qs[..n], qs[n]);
      assert ps + qs[..n + 1] == ps + qs[..n] + [qs[n]];
      after := Post(after, qs[n]);
    }
    assert qs[..|qs|] == qs;
  }

  method NewestFirst(b: Books) returns (daily: seq<Row>, totals: Counts)
    requires |b.rows| == b.window.days
    ensures LaidOut(b, daily)
    ensures forall f :: totals.Get(f) == SumOf(b.rows, f) == SumOf(DaySheets(daily), f)
  {
    daily, totals := [], ZERO;
    var n := |b.rows|;
    assert b.rows[..n] == b.rows;
    while n > 0
      invariant 0 <= n <= |b.rows| && |daily| == |b.rows| - n
      invariant forall i :: 0 <= i < |daily| ==>
                  var k := b.window.days - 1 - i;
                  daily[i] == Row(b.window.start + k, b.rows[k], b.rows[k].Net())
      invariant forall f :: totals.Get(f) + SumOf(b.rows[..n], f) == SumOf(b.rows, f)
      invariant forall f :: totals.Get(f) == SumOf(DaySheets(daily), f)
    {
      n := n - 1;
      var row := b.rows[n];
      ghost var sheets := DaySheets(daily);
      assert b.rows[..n + 1][..n] == b.rows[..n];
      daily, totals := daily + [Row(b.window.start + n, row, row.Net())], totals.And(row);
      assert DaySheets(daily)[..|daily| - 1] == sheets;
    }
  }

  /** Net change adds up: the sum of the nets is the net of the sums. */
  lemma NetsAgree(rows: seq<Counts>, totals: Counts)
    requires forall f :: totals.Get(f) == SumOf(rows, f)
    ensures totals.Net() == NetSum(rows)
  {
    NetIsLinear(rows);
    assert totals.Net() == totals.Get(LicencesNew) + totals.Get(LicencesAddedLater)
                           - totals.Get(LicencesRemoved) - totals.Get(LicencesReleased);
  }

  method Tally(jobs: seq<Job>, audit: seq<Entry>, w: Window, filter: string) returns (books: Books)
    ensures books.window == w && Tallies(books, Postings(jobs, audit, filter))
  {
    books := Books(w, seq(w.days, _ => ZERO), []);
    forall f ensures SumOf(books.rows, f) == 0 {
      NothingYet(books.rows, f);
    }
    ghost var ps: seq<Posting> := [];
    for n := 0 to |jobs|
      invariant books.window == w && ps == JobsPostings(jobs[..n], filter) && Tallies(books, ps)
    {
      assert jobs[..n + 1][..n] == jobs[..n];
      if Passes(jobs[n].reseller, filter) {
        books := PostAll(books, JobPostings(jobs[n]), ps);
        ps := ps + JobPostings(jobs[n]);
      }
    }
    assert jobs[..|jobs|] == jobs;
    for n := 0 to |audit|
      invariant books.window == w && Tallies(books, ps)
      invariant ps == JobsPostings(jobs, filter) + AuditPostings(audit[..n], filter)
    {
      assert audit[..n + 1][..n] == audit[..n];
      if Passes(audit[n].reseller, filter) {
        books := PostAll(books, EntryPostings(audit[n]), ps);
        ps := ps + EntryPostings(audit[n]);
      }
    }
    assert audit[..|audit|] == audit;
  }

  // ---- Partners with the largest net change first ----

  /** Before the first one with a smaller net change, so that equals keep their order. */
  function Place(partners: seq<Partner>, p: Partner): seq<Partner> {
    var n := |partners| - 1;
    if partners == [] || partners[n].counts.Net() >= p.counts.Net() then partners + [p]
    else Place(partners[..n], p) + [partners[n]]
  }

  function ByNet(partners: seq<Partner>): seq<Partner> {
    if partners == [] then [] else Place(ByNet(partners[..|partners| - 1]), partners[|partners| - 1])
  }

  predicate MostFirst(partners: seq<Partner>) {
    forall i, j :: 0 <= i < j < |partners| ==> partners[i].counts.Net() >= partners[j].counts.Net()
  }

  lemma {:induction false} PlaceKeeps(partners: seq<Partner>, p: Partner)
    requires DistinctNames(partners) && forall q :: q in partners ==> q.name != p.name
    ensures DistinctNames(Place(partners, p))
    ensures forall q :: q in Place(partners, p) <==> q in partners || q == p
  {
    var n := |partners| - 1;
    if !(partners == [] || partners[n].counts.Net() >= p.counts.Net()) {
      PlaceKeeps(partners[..n], p);
      assert partners == partners[..n] + [partners[n]];
      var front := Place(partners[..n], p);
      forall i | 0 <= i < |front| ensures front[i].name != partners[n].name {
        assert front[i] in front;
      }
    }
  }

  lemma {:induction false} PlaceSorts(partners: seq<Partner>, p: Partner)
    requires MostFirst(partners)
    ensures MostFirst(Place(partners, p))
    ensures forall q :: q in Place(partners, p) ==> q in partners || q == p
  {
    var n := |partners| - 1;
    if !(partners == [] || partners[n].counts.Net() >= p.counts.Net()) {
      PlaceSorts(partners[..n], p);
      var front := Place(partners[..n], p);
      forall i | 0 <= i < |front| ensures front[i].counts.Net() >= partners[n].counts.Net() {
        assert front[i] in front;
      }
    }
  }

  lemma OneMoreSheet(partners: seq<Partner>, p: Partner, f: Field)
    ensures SumOf(Sheets(partners + [p]), f) == SumOf(Sheets(partners), f) + p.counts.Get(f)
  {
    assert Sheets(partners + [p])[..|partners|] == Sheets(partners);
  }

  lemma {:induction false} PlaceAdds(partners: seq<Partner>, p: Partner, f: Field)
    ensures SumOf(Sheets(Place(partners, p)), f) == SumOf(Sheets(partners), f) + p.counts.Get(f)
  {
    var n := |partners| - 1;
    if partners == [] || partners[n].counts.Net() >= p.counts.Net() {
      OneMoreSheet(partners, p, f);
    } else {
      PlaceAdds(partners[..n], p, f);
      OneMoreSheet(Place(partners[..n], p), partners[n], f);
      OneMoreSheet(partners[..n], partners[n], f);
      assert partners == partners[..n] + [partners[n]];
    }
  }

  lemma {:induction false} ByNetKeeps(partners: seq<Partner>)
    requires DistinctNames(partners)
    ensures DistinctNames(ByNet(partners)) && MostFirst(ByNet(partners))
    ensures forall q :: q in ByNet(partners) <==> q in partners
  {
    if partners != [] {
      var n := |partners| - 1;
      ByNetKeeps(partners[..n]);
      assert partners == partners[..n] + [partners[n]];
      PlaceKeeps(ByNet(partners[..n]), partners[n]);
      PlaceSorts(ByNet(partners[..n]), partners[n]);
    }
  }

  lemma {:induction false} ByNetAdds(partners: seq<Partner>, f: Field)
    ensures SumOf(Sheets(ByNet(partners)), f) == SumOf(Sheets(partners), f)
  {
    if partners != [] {
      var n := |partners| - 1;
      ByNetAdds(partners[..n], f);
      PlaceAdds(ByNet(partners[..n]), partners[n], f);
      OneMoreSheet(partners[..n], partners[n], f);
      assert partners == partners[..n] + [partners[n]];
    }
  }

  /** A partner's figure does not depend on where its bucket stands. */
  lemma SameFigures(partners: seq<Partner>, sorted: seq<Partner>, name: string, f: Field)
    requires DistinctNames(partners) && DistinctNames(sorted)
    requires forall q :: q in sorted <==> q in partners
    ensures Figure(sorted, name, f) == Figure(partners, name, f)
  {
    var k := Find(partners, name);
    if k < |partners| {
      assert partners[k] in sorted;
      var m :| 0 <= m < |sorted| && sorted[m] == partners[k];
      FindIs(sorted, name, m);
    } else {
      assert forall i :: 0 <= i < |sorted| ==> sorted[i] in partners;
    }
  }

  /** Every day of the clamped range once, newest first, with what was counted on it. */
  ghost predicate DaysRight(r: Report, ps: seq<Posting>, today: int) {
    && (forall i :: 0 <= i < |r.daily| ==> r.daily[i].day == today - i)
    && (forall i :: 0 <= i < |r.daily| ==> r.daily[i].net == r.daily[i].counts.Net())
    && (forall i, f {:trigger r.daily[i].counts.Get(f)} :: 0 <= i < |r.daily| ==>
          r.daily[i].counts.Get(f) == Total(ps, r.window, OnDay(today - i), f))
  }

  /** Every partner once, the largest net change first, with what was counted for it. */
  ghost predicate PartnersRight(r: Report, ps: seq<Posting>) {
    && DistinctNames(r.partners) && MostFirst(r.partners)
    && (forall name, f :: Figure(r.partners, name, f) == Total(ps, r.window, InBucket(name), f))
  }

  /** Days, partners and total add up to the same, for every field and for the net change. */
  ghost predicate SumsRight(r: Report, ps: seq<Posting>) {
    && (forall f :: r.totals.Get(f) == Total(ps, r.window, All, f))
    && (forall f :: SumOf(DaySheets(r.daily), f) == r.totals.Get(f) == SumOf(Sheets(r.partners), f))
    && NetSum(DaySheets(r.daily)) == r.net == NetSum(Sheets(r.partners))
  }

  ghost predicate IsReport(jobs: seq<Job>, audit: seq<Entry>, days: int, filter: string, today: int, r: Report) {
    var ps := Postings(jobs, audit, filter);
    && r.window == Window(today - Clamp(days) + 1, Clamp(days)) && |r.daily| == Clamp(days)
    && DaysRight(r, ps, today) && PartnersRight(r, ps) && SumsRight(r, ps)
  }

  lemma Arranged(b: Books, ps: seq<Posting>, sorted: seq<Partner>)
    requires Tallies(b, ps) && sorted == ByNet(b.partners)
    ensures DistinctNames(sorted) && MostFirst(sorted)
    ensures forall name, f :: Figure(sorted, name, f) == Total(ps, b.window, InBucket(name), f)
    ensures forall f :: SumOf(Sheets(sorted), f) == Total(ps, b.window, All, f)
  {
    ByNetKeeps(b.partners);
    forall name, f ensures Figure(sorted, name, f) == Total(ps, b.window, InBucket(name), f) {
      SameFigures(b.partners, sorted, name, f);
    }
    forall f ensures SumOf(Sheets(sorted), f) == Total(ps, b.window, All, f) {
      ByNetAdds(b.partners, f);
    }
  }

  /** The rows of the books, newest first. */
  ghost predicate LaidOut(b: Books, daily: seq<Row>) {
    && |daily| == b.window.days == |b.rows|
    && forall i :: 0 <= i < |daily| ==>
         var k := b.window.days - 1 - i;
         daily[i] == Row(b.window.start + k, b.rows[k], b.rows[k].Net())
  }

  lemma DaysAreRight(b: Books, ps: seq<Posting>, r: Report, today: int)
    requires Tallies(b, ps) && r.window == b.window && LaidOut(b, r.daily)
    requires today == b.window.start + b.window.days - 1
    ensures DaysRight(r, ps, today)
  {
    forall i, f | 0 <= i < |r.daily|
      ensures r.daily[i].counts.Get(f) == Total(ps, r.window, OnDay(today - i), f)
    {
      var k := b.window.days - 1 - i;
      assert b.rows[k].Get(f) == Total(ps, b.window, OnDay(b.window.start + k), f);
    }
  }

  lemma SumsAreRight(b: Books, ps: seq<Posting>, r: Report)
    requires Tallies(b, ps) && r.window == b.window && r.net == r.totals.Net()
    requires forall f :: r.totals.Get(f) == SumOf(b.rows, f) == SumOf(DaySheets(r.daily), f)
    requires forall f :: SumOf(Sheets(r.partners), f) == Total(ps, b.window, All, f)
    ensures SumsRight(r, ps)
  {
    forall f ensures r.totals.Get(f) == SumOf(Sheets(r.partners), f) {
      assert SumOf(b.rows, f) == Total(ps, b.window, All, f);
    }
    NetsAgree(DaySheets(r.daily), r.totals);
    NetsAgree(Sheets(r.partners), r.totals);
  }

  // ---- The report in the records' own terms ----

  /** A row with what the records of its day come to, and as net change what was added less what was removed and
      released. */
  ghost predicate DaySays(jobs: seq<Job>, audit: seq<Entry>, filter: string, today: int, r: Report, i: nat)
    requires i < |r.daily|
  {
    var c := r.daily[i].counts;
    && r.daily[i].day == today - i && c == Sheet(jobs, audit, filter, r.window, OnDay(today - i))
    && r.daily[i].net == c.newly + c.later - c.removed - c.released
  }

  /** 1 to 365 days, the newest first. */
  ghost predicate DaysSay(jobs: seq<Job>, audit: seq<Entry>, days: int, filter: string, today: int, r: Report) {
    && |r.daily| == (if days < 1 then 1 else if days > 365 then 365 else days)
    && r.window == Window(today - |r.daily| + 1, |r.daily|)
    && forall i :: 0 <= i < |r.daily| ==> DaySays(jobs, audit, filter, today, r, i)
  }

  /** Every partner with what its records come to; a partner without an entry has nothing. */
  ghost predicate PartnersSay(jobs: seq<Job>, audit: seq<Entry>, filter: string, r: Report) {
    && (forall i :: 0 <= i < |r.partners| ==>
          r.partners[i].counts == Sheet(jobs, audit, filter, r.window, InBucket(r.partners[i].name)))
    && forall name ::
         Find(r.partners, name) == |r.partners| ==>
           Sheet(jobs, audit, filter, r.window, InBucket(name)) == Counts(0, 0, 0, 0, 0, 0)
  }

  ghost predicate TotalsSay(jobs: seq<Job>, audit: seq<Entry>, filter: string, r: Report) {
    && r.totals == Sheet(jobs, audit, filter, r.window, All)
    && r.net == r.totals.newly + r.totals.later - r.totals.removed - r.totals.released
  }

  lemma PartnersSayRecords(jobs: seq<Job>, audit: seq<Entry>, filter: string, r: Report, name: string)
    requires PartnersRight(r, Postings(jobs, audit, filter))
    ensures var k, sheet := Find(r.partners, name), Sheet(jobs, audit, filter, r.window, InBucket(name));
            sheet == if k < |r.partners| then r.partners[k].counts else Counts(0, 0, 0, 0, 0, 0)
  {
    var k, sheet := Find(r.partners, name), Sheet(jobs, audit, filter, r.window, InBucket(name));
    var counts := if k < |r.partners| then r.partners[k].counts else Counts(0, 0, 0, 0, 0, 0);
    forall f ensures sheet.Get(f) == counts.Get(f) {
      PostingsSaySheet(jobs, audit, filter, r.window, InBucket(name), f);
      assert Figure(r.partners, name, f) == counts.Get(f);
    }
    SameCounts(sheet, counts);
  }

  lemma RowSays(jobs: seq<Job>, audit: seq<Entry>, filter: string, today: int, r: Report, i: nat)
    requires i < |r.daily| && r.daily[i].day == today - i && r.daily[i].net == r.daily[i].counts.Net()
    requires forall f :: r.daily[i].counts.Get(f) ==
               Total(Postings(jobs, audit, filter), r.window, OnDay(today - i), f)
    ensures DaySays(jobs, audit, filter, today, r, i)
  {
    var sheet := Sheet(jobs, audit, filter, r.window, OnDay(today - i));
    forall f ensures r.daily[i].counts.Get(f) == sheet.Get(f) {
      PostingsSaySheet(jobs, audit, filter, r.window, OnDay(today - i), f);
    }
    SameCounts(r.daily[i].counts, sheet);
  }

  lemma RowRight(r: Report, ps: seq<Posting>, today: int, i: nat)
    requires DaysRight(r, ps, today) && i < |r.daily|
    ensures r.daily[i].day == today - i && r.daily[i].net == r.daily[i].counts.Net()
    ensures forall f :: r.daily[i].counts.Get(f) == Total(ps, r.window, OnDay(today - i), f)
  {
  }

  lemma DaysAllSay(jobs: seq<Job>, audit: seq<Entry>, days: int, filter: string, today: int, r: Report)
    requires r.window == Window(today - Clamp(days) + 1, Clamp(days)) && |r.daily| == Clamp(days)
    requires DaysRight(r, Postings(jobs, audit, filter), today)
    ensures DaysSay(jobs, audit, days, filter, today, r)
  {
    forall i | 0 <= i < |r.daily| ensures DaySays(jobs, audit, filter, today, r, i) {
      RowRight(r, Postings(jobs, audit, filter), today, i);
      RowSays(jobs, audit, filter, today, r, i);
    }
  }

  lemma TotalsAllSay(jobs: seq<Job>, audit: seq<Entry>, filter: string, r: Report)
    requires SumsRight(r, Postings(jobs, audit, filter)) && r.net == r.totals.Net()
    ensures TotalsSay(jobs, audit, filter, r)
  {
    var whole := Sheet(jobs, audit, filter, r.window, All);
    forall f ensures r.totals.Get(f) == whole.Get(f) {
      PostingsSaySheet(jobs, audit, filter, r.window, All, f);
    }
    SameCounts(r.totals, whole);
  }

  lemma PartnersAllSay(jobs: seq<Job>, audit: seq<Entry>, filter: string, r: Report)
    requires PartnersRight(r, Postings(jobs, audit, filter))
    ensures PartnersSay(jobs, audit, filter, r)
  {
    forall i | 0 <= i < |r.partners|
      ensures r.partners[i].counts == Sheet(jobs, audit, filter, r.window, InBucket(r.partners[i].name))
    {
      PartnersSayRecords(jobs, audit, filter, r, r.partners[i].name);
      FindIs(r.partners, r.partners[i].name, i);
    }
    forall name | Find(r.partners, name) == |r.partners|
      ensures Sheet(jobs, audit, filter, r.window, InBucket(name)) == Counts(0, 0, 0, 0, 0, 0)
    {
      PartnersSayRecords(jobs, audit, filter, r, name);
    }
  }

  method LicenceUsage(jobs: seq<Job>, audit: seq<Entry>, days: int, filter: string, today: int) returns (r: Report)
    ensures IsReport(jobs, audit, days, filter, today, r)
    ensures DaysSay(jobs, audit, days, filter, today, r) && PartnersSay(jobs, audit, filter, r)
    ensures TotalsSay(jobs, audit, filter, r)
  {
    var span := Clamp(days);
    var w := Window(today - span + 1, span);
    var books := Tally(jobs, audit, w, filter);
    var daily, totals := NewestFirst(books);
    var partners := ByNet(books.partners);
    r := Report(w, totals, totals.Net(), daily, partners);
    ghost var ps := Postings(jobs, audit, filter);
    Arranged(books, ps, partners);
    DaysAreRight(books, ps, r, today);
    SumsAreRight(books, ps, r);
    DaysAllSay(jobs, audit, days, filter, today, r);
    PartnersAllSay(jobs, audit, filter, r);
    TotalsAllSay(jobs, audit, filter, r);
  }

  // ---- A report filtered to one partner ----

  /** Postings that all belong to one reseller either all survive the filter or leave r's bucket alone, except that
      the resellerless ones share a bucket with a partner called "(none)". */
  lemma {:induction false} OneReseller(qs: seq<Posting>, owner: string, r: string, w: Window, f: Field)
    requires r != "" && forall i :: 0 <= i < |qs| ==> qs[i].reseller == owner
    ensures Total(qs, w, InBucket(r), f) ==
            (if owner == r then Total(qs, w, All, f) else 0)
            + (if r == NO_PARTNER then Total(qs, w, Anonymous, f) else 0)
  {
    if qs != [] {
      OneReseller(qs[..|qs| - 1], owner, r, w, f);
    }
  }

  lemma {:induction false} FilteredJobs(jobs: seq<Job>, r: string, w: Window, f: Field)
    requires r != ""
    ensures Total(JobsPostings(jobs, ""), w, InBucket(r), f) ==
            Total(JobsPostings(jobs, r), w, All, f)
            + (if r == NO_PARTNER then Total(JobsPostings(jobs, ""), w, Anonymous, f) else 0)
  {
    if jobs != [] {
      var n := |jobs| - 1;
      var qs := JobPostings(jobs[n]);
      FilteredJobs(jobs[..n], r, w, f);
      OneReseller(qs, jobs[n].reseller, r, w, f);
      TotalAppend(JobsPostings(jobs[..n], ""), qs, w, InBucket(r), f);
      TotalAppend(JobsPostings(jobs[..n], ""), qs, w, Anonymous, f);
      TotalAppend(JobsPostings(jobs[..n], r), if Passes(jobs[n].reseller, r) then qs else [], w, All, f);
    }
  }

  lemma {:induction false} FilteredAudit(audit: seq<Entry>, r: string, w: Window, f: Field)
    requires r != ""
    ensures Total(AuditPostings(audit, ""), w, InBucket(r), f) ==
            Total(AuditPostings(audit, r), w, All, f)
            + (if r == NO_PARTNER then Total(AuditPostings(audit, ""), w, Anonymous, f) else 0)
  {
    if audit != [] {
      var n := |audit| - 1;
      var qs := EntryPostings(audit[n]);
      FilteredAudit(audit[..n], r, w, f);
      OneReseller(qs, audit[n].reseller, r, w, f);
      TotalAppend(AuditPostings(audit[..n], ""), qs, w, InBucket(r), f);
      TotalAppend(AuditPostings(audit[..n], ""), qs, w, Anonymous, f);
      TotalAppend(AuditPostings(audit[..n], r), if Passes(audit[n].reseller, r) then qs else [], w, All, f);
    }
  }

  /** The totals of a report filtered to r are r's entry in the unfiltered report, unless r is literally "(none)" and
      work without a reseller was posted to the same name. */
  lemma FilterAgreesIff(jobs: seq<Job>, audit: seq<Entry>, r: string, w: Window, f: Field)
    requires r != ""
    ensures Total(Postings(jobs, audit, r), w, All, f) == Total(Postings(jobs, audit, ""), w, InBucket(r), f)
            <==> (r != NO_PARTNER || Total(Postings(jobs, audit, ""), w, Anonymous, f) == 0)
  {
    FilteredJobs(jobs, r, w, f);
    FilteredAudit(audit, r, w, f);
    TotalAppend(JobsPostings(jobs, r), AuditPostings(audit, r), w, All, f);
    TotalAppend(JobsPostings(jobs, ""), AuditPostings(audit, ""), w, InBucket(r), f);
    TotalAppend(JobsPostings(jobs, ""), AuditPostings(audit, ""), w, Anonymous, f);
  }

  /** The same of two reports over the same days: one of everybody, one filtered to r. */
  lemma FilteredReportIff(
    jobs: seq<Job>, audit: seq<Entry>, days: int, today: int, r: string, everybody: Report, filtered: Report, f: Field)
    requires r != ""
    requires IsReport(jobs, audit, days, "", today, everybody) && IsReport(jobs, audit, days, r, today, filtered)
    ensures filtered.totals.Get(f) == Figure(everybody.partners, r, f) <==>
              r != NO_PARTNER || Total(Postings(jobs, audit, ""), everybody.window, Anonymous, f) == 0
  {
    FilterAgreesIff(jobs, audit, r, everybody.window, f);
  }

  lemma OneJob(j: Job, filter: string)
    ensures Postings([j], [], filter) == if Passes(j.reseller, filter) then JobPostings(j) else []
  {
    assert [j][..0] == [];
    assert JobsPostings([j][..0], filter) == [];
  }

  /** One failed job without a reseller: it is in the bucket "(none)", and in no report filtered to that name. */
  lemma NoneReportMisses(moment: int, start: int)
    requires DayOf(Some(moment)) == Some(start)
    ensures var jobs, w := [Job("", Failed, Some(moment), 0, None)], Window(start, 1);
            && Total(Postings(jobs, [], NO_PARTNER), w, All, FailedJobs) == 0
            && Total(Postings(jobs, [], ""), w, InBucket(NO_PARTNER), FailedJobs) == 1
  {
    var j := Job("", Failed, Some(moment), 0, None);
    var p := Posting(Some(start), "", FailedJobs, 1);
    OneJob(j, NO_PARTNER);
    OneJob(j, "");
    assert NO_PARTNER[0] == '(';
    assert !Passes("", NO_PARTNER) && JobPostings(j) == [p];
    TotalOfOne(p, Window(start, 1), InBucket(NO_PARTNER), FailedJobs);
  }
}
