/**
 The lead queue (lead_workspace_v2): its sort orders, the service-level badge and
 the filters that are meant to say the same thing.
 */
module LeadQueue {
  import opened Wrappers

  /** The stages the table's check allows. */
  datatype Stage = New | Contacted | Qualified | Won | Lost | Spam

  /** Times are instants on one clock. */
  datatype Lead = Lead(
    id: nat, stage: Stage, submitted: int, updated: int, followUp: Option<int>,
    fullName: string, company: string, email: string)

  const DAY := 24 * 60

  /** What one request is computed with: the clock, the reminder interval, and the database's lower-cased text order. */
  datatype Context = Context(now: int, reminder: int, collation: string -> int)

  predicate Active(stage: Stage) { stage.New? || stage.Contacted? || stage.Qualified? }

  predicate Closed(stage: Stage) { stage.Won? || stage.Lost? || stage.Spam? }

  // ----- Filters -----

  predicate OverdueFilter(c: Context, l: Lead) {
    Active(l.stage) && match l.followUp
                       case Some(at) => at <= c.now
                       case None => l.stage.New? && l.submitted <= c.now - c.reminder
  }

  predicate DueSoonFilter(c: Context, l: Lead) {
    Active(l.stage) && l.followUp.Some? && c.now < l.followUp.value <= c.now + DAY
  }

  predicate ScheduledFilter(c: Context, l: Lead) {
    Active(l.stage) && l.followUp.Some? && l.followUp.value > c.now + DAY
  }

  predicate UnplannedFilter(c: Context, l: Lead) {
    Active(l.stage) && l.followUp.None? && !(l.stage.New? && l.submitted <= c.now - c.reminder)
  }

  function Matches(c: Context, l: Lead): nat {
    (if OverdueFilter(c, l) then 1 else 0) + (if DueSoonFilter(c, l) then 1 else 0)
    + (if ScheduledFilter(c, l) then 1 else 0) + if UnplannedFilter(c, l) then 1 else 0
  }

  /** The four filters split the active leads: each is in exactly one, and no other lead is in any. */
  lemma FiltersPartitionActiveLeads(c: Context, l: Lead)
    ensures Matches(c, l) == if Active(l.stage) then 1 else 0
  {
  }

  // ----- The badge -----

  datatype Badge = ClosedBadge | Unplanned | Overdue | DueSoon | Scheduled

  function SlaMeta(c: Context, l: Lead): Badge {
    if Closed(l.stage) then ClosedBadge
    else
      var due := if l.followUp.None? && l.stage.New? then Some(l.submitted + c.reminder) else l.followUp;
      match due
      case None => Unplanned
      case Some(at) => if at <= c.now then Overdue else if at <= c.now + DAY then DueSoon else Scheduled
  }

  /** The overdue badge and the overdue filter agree on every lead, and the badge of a closed lead is its own. */
  lemma OverdueBadgeAgrees(c: Context, l: Lead)
    ensures SlaMeta(c, l) == Overdue <==> OverdueFilter(c, l)
    ensures SlaMeta(c, l) == ClosedBadge <==> Matches(c, l) == 0
  {
  }

  /** The other badges differ from their filters exactly for a new lead that waits for its first response. */
  lemma OtherBadgesAgree(c: Context, l: Lead)
    requires Active(l.stage)
    ensures (SlaMeta(c, l) == DueSoon <==> DueSoonFilter(c, l))
            <==> !(l.stage.New? && l.followUp.None? && c.now < l.submitted + c.reminder <= c.now + DAY)
    ensures (SlaMeta(c, l) == Scheduled <==> ScheduledFilter(c, l))
            <==> !(l.stage.New? && l.followUp.None? && l.submitted + c.reminder > c.now + DAY)
    ensures (SlaMeta(c, l) == Unplanned <==> UnplannedFilter(c, l))
            <==> !(l.stage.New? && l.followUp.None? && c.now < l.submitted + c.reminder)
  {
  }

  // ----- Sort orders -----

  function Bucket(c: Context, l: Lead): int {
    if Closed(l.stage) then 5
    else if OverdueFilter(c, l) then 0
    else if DueSoonFilter(c, l) then 1
    else if l.stage.New? && l.followUp.None? then 2
    else if Active(l.stage) && l.followUp.None? then 3
    else 4
  }

  function Deadline(c: Context, l: Lead): int {
    if l.followUp.Some? then l.followUp.value
    else if l.stage.New? then l.submitted + c.reminder
    else c.now + 36500 * DAY
  }

  function SortName(l: Lead): string {
    if l.fullName != "" then l.fullName else if l.company != "" then l.company else l.email
  }

  datatype Term = Asc(key: int) | Desc(key: int)

  /** The ORDER BY of a sort key; an unknown key sorts like 'sla'. */
  function Terms(c: Context, sort: string, l: Lead): seq<Term> {
    if sort == "newest" then [Desc(l.submitted), Desc(l.id)]
    else if sort == "oldest" then [Asc(l.submitted), Asc(l.id)]
    else if sort == "updated" then [Desc(l.updated), Desc(l.id)]
    else if sort == "name" then [Asc(c.collation(SortName(l))), Asc(l.id)]
    else [Asc(Bucket(c, l)), Asc(Deadline(c, l)), Desc(l.submitted), Desc(l.id)]
  }

  predicate TermBefore(a: Term, b: Term) {
    match (a, b)
    case (Asc(x), Asc(y)) => x < y
    case (Desc(x), Desc(y)) => x > y
    case _ => false
  }

  /** How the database compares two rows of terms: the first difference decides. */
  predicate TermsBefore(a: seq<Term>, b: seq<Term>) {
    a != [] && b != [] && (TermBefore(a[0], b[0]) || (a[0] == b[0] && TermsBefore(a[1..], b[1..])))
  }

  predicate SameShape(a: seq<Term>, b: seq<Term>) {
    |a| == |b| && forall i :: 0 <= i < |a| ==> a[i].Asc? == b[i].Asc?
  }

  predicate Precedes(c: Context, sort: string, a: Lead, b: Lead) {
    TermsBefore(Terms(c, sort, a), Terms(c, sort, b))
  }

  /** The ranks of the default order: overdue, due soon, new, unplanned, scheduled, closed. */
  lemma BucketMeans(c: Context, l: Lead)
    ensures 0 <= Bucket(c, l) <= 5
    ensures Bucket(c, l) == 0 <==> OverdueFilter(c, l)
    ensures Bucket(c, l) == 1 <==> DueSoonFilter(c, l)
    ensures Bucket(c, l) == 2 <==> l.stage.New? && l.followUp.None? && l.submitted + c.reminder > c.now
    ensures Bucket(c, l) == 3 <==> (l.stage.Contacted? || l.stage.Qualified?) && l.followUp.None?
    ensures Bucket(c, l) == 4 <==> ScheduledFilter(c, l)
    ensures Bucket(c, l) == 5 <==> l.stage.Won? || l.stage.Lost? || l.stage.Spam?
  {
  }

  lemma FirstTerms(x: Term, xs: seq<Term>, y: Term, ys: seq<Term>)
    ensures TermsBefore([x] + xs, [y] + ys) <==> TermBefore(x, y) || (x == y && TermsBefore(xs, ys))
  {
    assert ([x] + xs)[1..] == xs && ([y] + ys)[1..] == ys;
  }

  lemma TwoTerms(x: Term, u: Term, y: Term, v: Term)
    ensures TermsBefore([x, u], [y, v]) <==> TermBefore(x, y) || (x == y && TermBefore(u, v))
  {
    FirstTerms(x, [u], y, [v]);
    FirstTerms(u, [], v, []);
    assert [x] + [u] == [x, u] && [y] + [v] == [y, v];
    assert [u] + [] == [u] && [v] + [] == [v];
  }

  /** What comes first under each sort key, on the leads themselves. */
  lemma SortMeans(c: Context, a: Lead, b: Lead)
    ensures Precedes(c, "newest", a, b) <==> a.submitted > b.submitted || (a.submitted == b.submitted && a.id > b.id)
    ensures Precedes(c, "oldest", a, b) <==> a.submitted < b.submitted || (a.submitted == b.submitted && a.id < b.id)
    ensures Precedes(c, "updated", a, b) <==> a.updated > b.updated || (a.updated == b.updated && a.id > b.id)
    ensures Precedes(c, "name", a, b) <==>
              var x, y := c.collation(SortName(a)), c.collation(SortName(b)); x < y || (x == y && a.id < b.id)
  {
    TwoTerms(Desc(a.submitted), Desc(a.id), Desc(b.submitted), Desc(b.id));
    TwoTerms(Asc(a.submitted), Asc(a.id), Asc(b.submitted), Asc(b.id));
    TwoTerms(Desc(a.updated), Desc(a.id), Desc(b.updated), Desc(b.id));
    TwoTerms(Asc(c.collation(SortName(a))), Asc(a.id), Asc(c.collation(SortName(b))), Asc(b.id));
    hide Bucket, Deadline, SortName, TermsBefore;
  }

  /** The default order, and that of an unknown key: by rank, then by what is due first, then the newest. */
  lemma DefaultSortMeans(c: Context, sort: string, a: Lead, b: Lead)
    requires sort !in {"newest", "oldest", "updated", "name"}
    ensures Precedes(c, sort, a, b) <==>
              || Bucket(c, a) < Bucket(c, b)
              || (Bucket(c, a) == Bucket(c, b) && Deadline(c, a) < Deadline(c, b))
              || (Bucket(c, a) == Bucket(c, b) && Deadline(c, a) == Deadline(c, b)
                  && (a.submitted > b.submitted || (a.submitted == b.submitted && a.id > b.id)))
    ensures Deadline(c, a) == if a.followUp.Some? then a.followUp.value else if a.stage.New? then a.submitted + c.reminder else c.now + 36500 * 24 * 60
  {
    var s, t := [Desc(a.submitted), Desc(a.id)], [Desc(b.submitted), Desc(b.id)];
    TwoTerms(s[0], s[1], t[0], t[1]);
    FirstTerms(Asc(Deadline(c, a)), s, Asc(Deadline(c, b)), t);
    FirstTerms(Asc(Bucket(c, a)), [Asc(Deadline(c, a))] + s, Asc(Bucket(c, b)), [Asc(Deadline(c, b))] + t);
    assert Terms(c, sort, a) == [Asc(Bucket(c, a))] + ([Asc(Deadline(c, a))] + s);
    assert Terms(c, sort, b) == [Asc(Bucket(c, b))] + ([Asc(Deadline(c, b))] + t);
    hide Bucket, TermsBefore;
  }

  lemma {:induction false} TermsTotal(a: seq<Term>, b: seq<Term>)
    requires SameShape(a, b)
    ensures TermsBefore(a, b) || a == b || TermsBefore(b, a)
    ensures !(TermsBefore(a, b) && (a == b || TermsBefore(b, a)))
  {
    if a != [] {
      TermsTotal(a[1..], b[1..]);
      assert a == [a[0]] + a[1..] && b == [b[0]] + b[1..];
    }
  }

  lemma {:induction false} TermsTransitive(a: seq<Term>, b: seq<Term>, c: seq<Term>)
    requires SameShape(a, b) && SameShape(b, c) && TermsBefore(a, b) && TermsBefore(b, c)
    ensures TermsBefore(a, c)
  {
    if a[0] == b[0] && b[0] == c[0] { TermsTransitive(a[1..], b[1..], c[1..]); }
  }

  /** Every sort key is a strict total order on leads with different ids: the id, always last, breaks every tie. */
  lemma SortIsTotal(c: Context, sort: string, a: Lead, b: Lead)
    requires a.id != b.id
    ensures Precedes(c, sort, a, b) <==> !Precedes(c, sort, b, a)
  {
    var s, t := Terms(c, sort, a), Terms(c, sort, b);
    assert s[|s| - 1] != t[|t| - 1];
    hide Bucket, Deadline;
    TermsTotal(s, t);
  }

  lemma SortIsTransitive(c: Context, sort: string, a: Lead, b: Lead, d: Lead)
    requires Precedes(c, sort, a, b) && Precedes(c, sort, b, d)
    ensures Precedes(c, sort, a, d)
  {
    hide Bucket, Deadline;
    TermsTransitive(Terms(c, sort, a), Terms(c, sort, b), Terms(c, sort, d));
  }

  lemma NothingPrecedesItself(c: Context, sort: string, a: Lead)
    ensures !Precedes(c, sort, a, a)
  {
    hide Bucket, Deadline;
    TermsTotal(Terms(c, sort, a), Terms(c, sort, a));
  }
}
