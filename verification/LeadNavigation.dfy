/**
 Moving from record to record (lead_workspace_v2._record_navigation and the page
 arithmetic around it) agrees with the paged list the same queue is shown in.
 */
module LeadNavigation {
  import opened Wrappers
  import opened LeadQueue

  /** Row numbers count from one. */
  datatype Navigation = Navigation(position: nat, previous: Option<nat>, next: Option<nat>)

  ghost predicate DistinctIds(queue: set<Lead>) {
    forall a, b :: a in queue && b in queue && a.id == b.id ==> a == b
  }

  ghost function Ahead(c: Context, sort: string, queue: set<Lead>, r: Lead): set<Lead> {
    set x | x in queue && Precedes(c, sort, x, r)
  }

  ghost function Behind(c: Context, sort: string, queue: set<Lead>, r: Lead): set<Lead> {
    set x | x in queue && Precedes(c, sort, r, x)
  }

  /** `x` is the one of `from` nearest to `r` in front of it: nothing lies between them. */
  ghost predicate IsLag(c: Context, sort: string, queue: set<Lead>, r: Lead, id: Option<nat>) {
    match id
    case None => Ahead(c, sort, queue, r) == {}
    case Some(i) => exists x :: x in Ahead(c, sort, queue, r) && x.id == i
                                && forall y :: y in Ahead(c, sort, queue, r) && y != x ==> Precedes(c, sort, y, x)
  }

  ghost predicate IsLead(c: Context, sort: string, queue: set<Lead>, r: Lead, id: Option<nat>) {
    match id
    case None => Behind(c, sort, queue, r) == {}
    case Some(i) => exists x :: x in Behind(c, sort, queue, r) && x.id == i
                                && forall y :: y in Behind(c, sort, queue, r) && y != x ==> Precedes(c, sort, x, y)
  }

  /** What ROW_NUMBER, LAG and LEAD over the sort order return for one record of the filtered queue. */
  ghost predicate IsNavigation(c: Context, sort: string, queue: set<Lead>, r: Lead, nav: Navigation) {
    && nav.position == |Ahead(c, sort, queue, r)| + 1
    && IsLag(c, sort, queue, r, nav.previous)
    && IsLead(c, sort, queue, r, nav.next)
  }

  // ----- The list -----

  ghost predicate IsList(c: Context, sort: string, queue: set<Lead>, list: seq<Lead>) {
    && (forall x :: x in queue <==> x in list)
    && forall i, j :: 0 <= i < j < |list| ==> Precedes(c, sort, list[i], list[j])
  }

  function Min(a: nat, b: nat): nat { if a < b then a else b }

  /** Paginator: a last page that may be short, and one empty page for an empty list. */
  function PageCount(count: nat, size: nat): (n: nat)
    requires size > 0
    ensures n >= 1
  {
    if count == 0 then 1 else (count + size - 1) / size
  }

  /** Paginator.get_page: a page beyond the last one becomes the last one. */
  function GetPage(count: nat, size: nat, page: nat): (p: nat)
    requires size > 0 && page >= 1
    ensures 1 <= p <= PageCount(count, size)
  {
    Min(page, PageCount(count, size))
  }

  function PageRows(list: seq<Lead>, size: nat, page: nat): seq<Lead>
    requires size > 0 && 1 <= page <= PageCount(|list|, size)
  {
    PageStart(|list|, size, page);
    list[(page - 1) * size..Min(page * size, |list|)]
  }

  lemma PageStart(count: nat, size: nat, page: nat)
    requires size > 0 && 1 <= page <= PageCount(count, size)
    ensures 0 <= (page - 1) * size <= count && (page - 1) * size <= page * size
    ensures page < PageCount(count, size) ==> page * size < count
    ensures count <= PageCount(count, size) * size
  {
    var n := PageCount(count, size);
    if count > 0 {
      assert n * size <= count + size - 1 < n * size + size by { DivBounds(count + size - 1, size); }
      Monotone(page - 1, n - 1, size);
      assert (n - 1) * size == n * size - size;
      if page < n { Monotone(page, n - 1, size); }
    }
    assert page * size == (page - 1) * size + size;
  }

  lemma DivBounds(a: nat, size: nat)
    requires size > 0
    ensures (a / size) * size <= a < (a / size) * size + size
  {
  }

  lemma Monotone(a: nat, b: nat, size: nat)
    requires a <= b
    ensures a * size <= b * size
  {
  }

  /** Every filtered queue has such a list. */
  lemma {:induction false} QueueHasList(c: Context, sort: string, queue: set<Lead>) returns (list: seq<Lead>)
    requires DistinctIds(queue)
    ensures IsList(c, sort, queue, list)
    decreases queue
  {
    hide Precedes;
    list := [];
    if queue != {} {
      var r :| r in queue;
      var rest := QueueHasList(c, sort, queue - {r});
      var k := 0;
      while k < |rest| && Precedes(c, sort, rest[k], r)
        invariant 0 <= k <= |rest|
        invariant forall i :: 0 <= i < k ==> Precedes(c, sort, rest[i], r)
      {
        k := k + 1;
      }
      forall i | k <= i < |rest| ensures Precedes(c, sort, r, rest[i]) {
        assert rest[k] in rest && rest[k] in queue - {r};
        SortIsTotal(c, sort, r, rest[k]);
        if i > k { SortIsTransitive(c, sort, r, rest[k], rest[i]); }
      }
      list := rest[..k] + [r] + rest[k..];
      forall x ensures x in queue <==> x in list {
        assert x in rest <==> x in rest[..k] || x in rest[k..];
        assert x in queue - {r} <==> x in rest;
      }
    }
  }

  // ----- Position, neighbours and pages -----

  lemma ListIsDistinct(c: Context, sort: string, queue: set<Lead>, list: seq<Lead>, i: nat, j: nat)
    requires IsList(c, sort, queue, list) && i < |list| && j < |list| && i != j
    ensures list[i] != list[j]
  {
    hide Precedes;
    NothingPrecedesItself(c, sort, list[i]);
  }

  lemma AheadInList(c: Context, sort: string, queue: set<Lead>, list: seq<Lead>, k: nat)
    requires IsList(c, sort, queue, list) && DistinctIds(queue) && k < |list|
    ensures forall i :: 0 <= i < |list| ==> (list[i] in Ahead(c, sort, queue, list[k]) <==> i < k)
    ensures forall i :: 0 <= i < |list| ==> (list[i] in Behind(c, sort, queue, list[k]) <==> i > k)
  {
    hide Precedes;
    forall i | 0 <= i < |list|
      ensures (list[i] in Ahead(c, sort, queue, list[k]) <==> i < k) && (list[i] in Behind(c, sort, queue, list[k]) <==> i > k)
    {
      assert list[i] in queue && list[k] in queue;
      if i == k {
        NothingPrecedesItself(c, sort, list[k]);
      } else {
        ListIsDistinct(c, sort, queue, list, i, k);
        SortIsTotal(c, sort, list[i], list[k]);
      }
    }
  }

  lemma {:induction false} PrefixSize(list: seq<Lead>, k: nat, part: set<Lead>)
    requires k <= |list| && forall i, j :: 0 <= i < j < |list| ==> list[i] != list[j]
    requires forall x :: x in part <==> x in list[..k]
    ensures |part| == k
    decreases k
  {
    if k > 0 {
      var x := list[k - 1];
      assert list[..k] == list[..k - 1] + [x];
      forall y ensures y in part - {x} <==> y in list[..k - 1] {
        if y in list[..k - 1] { var i :| 0 <= i < k - 1 && list[..k - 1][i] == y; assert list[i] != list[k - 1]; }
      }
      PrefixSize(list, k - 1, part - {x});
      assert x in part;
    } else {
      assert part == {};
    }
  }

  /** Counting the rows in front and looking for the nearest ones finds the record's place in the list and its neighbours there. */
  lemma NavigationIsListPlace(c: Context, sort: string, queue: set<Lead>, list: seq<Lead>, k: nat, nav: Navigation)
    requires IsList(c, sort, queue, list) && DistinctIds(queue) && k < |list| && IsNavigation(c, sort, queue, list[k], nav)
    ensures nav.position == k + 1
    ensures nav.previous == if k > 0 then Some(list[k - 1].id) else None
    ensures nav.next == if k + 1 < |list| then Some(list[k + 1].id) else None
  {
    PositionIsPlace(c, sort, queue, list, k);
    LagIsBefore(c, sort, queue, list, k, nav.previous);
    LeadIsAfter(c, sort, queue, list, k, nav.next);
  }

  lemma PositionIsPlace(c: Context, sort: string, queue: set<Lead>, list: seq<Lead>, k: nat)
    requires IsList(c, sort, queue, list) && DistinctIds(queue) && k < |list|
    ensures |Ahead(c, sort, queue, list[k])| == k
  {
    AheadInList(c, sort, queue, list, k);
    hide Precedes;
    var ahead := Ahead(c, sort, queue, list[k]);
    forall x ensures x in ahead <==> x in list[..k] {
      if x in ahead { var i :| 0 <= i < |list| && list[i] == x; assert list[..k][i] == x; }
      if x in list[..k] { var i :| 0 <= i < k && list[..k][i] == x; assert list[i] == x; }
    }
    forall i, j | 0 <= i < j < |list| ensures list[i] != list[j] { ListIsDistinct(c, sort, queue, list, i, j); }
    PrefixSize(list, k, ahead);
  }

  lemma NotBackwards(c: Context, sort: string, queue: set<Lead>, list: seq<Lead>, i: nat, j: nat)
    requires IsList(c, sort, queue, list) && DistinctIds(queue) && i < j < |list|
    ensures list[i] != list[j] && !Precedes(c, sort, list[j], list[i])
  {
    hide Precedes;
    assert list[i] in queue && list[j] in queue;
    ListIsDistinct(c, sort, queue, list, i, j);
    SortIsTotal(c, sort, list[i], list[j]);
  }

  lemma IndexIn(c: Context, sort: string, queue: set<Lead>, list: seq<Lead>, x: Lead) returns (i: nat)
    requires IsList(c, sort, queue, list) && x in queue
    ensures i < |list| && list[i] == x
  {
    hide Precedes;
    i :| 0 <= i < |list| && list[i] == x;
  }

  lemma LagIsBefore(c: Context, sort: string, queue: set<Lead>, list: seq<Lead>, k: nat, id: Option<nat>)
    requires IsList(c, sort, queue, list) && DistinctIds(queue) && k < |list| && IsLag(c, sort, queue, list[k], id)
    ensures id == if k > 0 then Some(list[k - 1].id) else None
  {
    AheadInList(c, sort, queue, list, k);
    hide Precedes, Ahead, Behind, DistinctIds, IsList;
    var ahead := Ahead(c, sort, queue, list[k]);
    if k > 0 { assert list[k - 1] in ahead; }
    if id.Some? {
      var x :| x in ahead && x.id == id.value && forall y :: y in ahead && y != x ==> Precedes(c, sort, y, x);
      InQueue(c, sort, queue, list[k], x);
      var i := IndexIn(c, sort, queue, list, x);
      if i < k - 1 { NotBackwards(c, sort, queue, list, i, k - 1); }
    }
  }

  lemma LeadIsAfter(c: Context, sort: string, queue: set<Lead>, list: seq<Lead>, k: nat, id: Option<nat>)
    requires IsList(c, sort, queue, list) && DistinctIds(queue) && k < |list| && IsLead(c, sort, queue, list[k], id)
    ensures id == if k + 1 < |list| then Some(list[k + 1].id) else None
  {
    AheadInList(c, sort, queue, list, k);
    hide Precedes, Ahead, Behind, DistinctIds, IsList;
    var behind := Behind(c, sort, queue, list[k]);
    if k + 1 < |list| { assert list[k + 1] in behind; }
    if id.Some? {
      var x :| x in behind && x.id == id.value && forall y :: y in behind && y != x ==> Precedes(c, sort, x, y);
      InQueue(c, sort, queue, list[k], x);
      var i := IndexIn(c, sort, queue, list, x);
      if i > k + 1 { NotBackwards(c, sort, queue, list, k + 1, i); }
    }
  }

  lemma InQueue(c: Context, sort: string, queue: set<Lead>, r: Lead, x: Lead)
    requires x in Ahead(c, sort, queue, r) || x in Behind(c, sort, queue, r)
    ensures x in queue
  {
    hide Precedes;
  }

  /** Row `k` of the list is on page k / size + 1, and on no other. */
  lemma RowIsOnPage(list: seq<Lead>, size: nat, k: nat)
    requires size > 0 && k < |list|
    ensures var p := k / size + 1;
            && 1 <= p <= PageCount(|list|, size) && k % size < |PageRows(list, size, p)|
            && PageRows(list, size, p)[k % size] == list[k]
  {
    var p := k / size + 1;
    DivBounds(k, size);
    assert (p - 1) * size + k % size == k;
    var n := PageCount(|list|, size);
    DivBounds(|list| + size - 1, size);
    if p > n {
      Monotone(n, p - 1, size);
    }
    PageStart(|list|, size, p);
    assert p * size == (p - 1) * size + size;
  }

  /**
   The page computed for a record, and the pages computed for its neighbours,
   are the pages that list them: the links never lead to a page without the record.
   */
  lemma NavigationAgreesWithPages(c: Context, sort: string, queue: set<Lead>, list: seq<Lead>, size: nat, r: Lead, nav: Navigation)
    requires IsList(c, sort, queue, list) && DistinctIds(queue) && size > 0 && r in queue && IsNavigation(c, sort, queue, r, nav)
    ensures var p := (nav.position - 1) / size + 1;
            1 <= p <= PageCount(|list|, size) && r in PageRows(list, size, p)
    ensures nav.previous.Some? ==> nav.position >= 2 && OnPage(list, size, (nav.position - 2) / size + 1, nav.previous.value)
    ensures nav.next.Some? ==> OnPage(list, size, nav.position / size + 1, nav.next.value)
  {
    hide Precedes, IsNavigation, PageRows, PageCount;
    var k :| 0 <= k < |list| && list[k] == r;
    NavigationIsListPlace(c, sort, queue, list, k, nav);
    RowIsOnPage(list, size, k);
    if k > 0 { RowIsOnPage(list, size, k - 1); }
    if k + 1 < |list| { RowIsOnPage(list, size, k + 1); }
  }

  ghost predicate OnPage(list: seq<Lead>, size: nat, page: int, id: nat) {
    size > 0 && 1 <= page <= PageCount(|list|, size) && exists x :: x in PageRows(list, size, page) && x.id == id
  }

  /** Going to the next record and back ends where it began, and the other way round. */
  lemma PreviousUndoesNext(c: Context, sort: string, queue: set<Lead>, list: seq<Lead>, r: Lead, s: Lead, nav: Navigation, there: Navigation)
    requires IsList(c, sort, queue, list) && DistinctIds(queue) && r in queue && s in queue
    requires IsNavigation(c, sort, queue, r, nav) && IsNavigation(c, sort, queue, s, there)
    ensures nav.next == Some(s.id) <==> there.previous == Some(r.id)
  {
    hide Precedes, IsNavigation;
    var k :| 0 <= k < |list| && list[k] == r;
    var m :| 0 <= m < |list| && list[m] == s;
    NavigationIsListPlace(c, sort, queue, list, k, nav);
    NavigationIsListPlace(c, sort, queue, list, m, there);
    forall i | 0 <= i < |list| ensures list[i] in queue {}
    if k + 1 < |list| && list[k + 1].id == s.id && k + 1 != m { ListIsDistinct(c, sort, queue, list, k + 1, m); }
    if m > 0 && list[m - 1].id == r.id && m - 1 != k { ListIsDistinct(c, sort, queue, list, m - 1, k); }
  }

  /** A walk that starts at the first record and follows `next` until there is none. */
  ghost predicate IsWalk(c: Context, sort: string, queue: set<Lead>, walk: seq<Lead>, navs: seq<Navigation>) {
    && |walk| == |navs| > 0 && (forall x :: x in walk ==> x in queue)
    && (forall i :: 0 <= i < |walk| ==> IsNavigation(c, sort, queue, walk[i], navs[i]))
    && navs[0].previous == None
    && (forall i :: 0 <= i < |walk| - 1 ==> navs[i].next == Some(walk[i + 1].id))
    && navs[|walk| - 1].next == None
  }

  lemma {:induction false} WalkFollowsList(c: Context, sort: string, queue: set<Lead>, list: seq<Lead>, walk: seq<Lead>, navs: seq<Navigation>, i: nat)
    requires IsList(c, sort, queue, list) && DistinctIds(queue) && IsWalk(c, sort, queue, walk, navs) && i < |walk|
    ensures i < |list| && walk[i] == list[i]
    ensures i == |walk| - 1 ==> |list| == |walk|
  {
    hide Precedes, IsNavigation, IsList, DistinctIds;
    WalkStop(c, sort, queue, list, walk, navs, i);
    var k := IndexIn(c, sort, queue, list, walk[i]);
    NavigationIsListPlace(c, sort, queue, list, k, navs[i]);
    if i > 0 {
      WalkFollowsList(c, sort, queue, list, walk, navs, i - 1);
      WalkStop(c, sort, queue, list, walk, navs, i - 1);
      NavigationIsListPlace(c, sort, queue, list, i - 1, navs[i - 1]);
      SameRow(c, sort, queue, list, i, k);
    }
  }

  lemma WalkStop(c: Context, sort: string, queue: set<Lead>, list: seq<Lead>, walk: seq<Lead>, navs: seq<Navigation>, i: nat)
    requires IsWalk(c, sort, queue, walk, navs) && i < |walk|
    ensures walk[i] in queue && IsNavigation(c, sort, queue, walk[i], navs[i])
    ensures if i + 1 < |walk| then navs[i].next == Some(walk[i + 1].id) else navs[i].next == None
    ensures i == 0 ==> navs[i].previous == None
  {
    hide IsNavigation;
    assert walk[i] in walk;
  }

  lemma SameRow(c: Context, sort: string, queue: set<Lead>, list: seq<Lead>, i: nat, k: nat)
    requires IsList(c, sort, queue, list) && DistinctIds(queue) && i < |list| && k < |list| && list[i].id == list[k].id
    ensures i == k
  {
    hide Precedes;
    assert list[i] in queue && list[k] in queue;
    if i != k { ListIsDistinct(c, sort, queue, list, i, k); }
  }

  // ----- The walk exists -----

  /** A record's place in the list, with its neighbours there. */
  function Place(list: seq<Lead>, k: nat): Navigation
    requires k < |list|
  {
    Navigation(k + 1, if k > 0 then Some(list[k - 1].id) else None, if k + 1 < |list| then Some(list[k + 1].id) else None)
  }

  lemma PlaceHasLag(c: Context, sort: string, queue: set<Lead>, list: seq<Lead>, k: nat)
    requires IsList(c, sort, queue, list) && DistinctIds(queue) && k < |list|
    ensures IsLag(c, sort, queue, list[k], Place(list, k).previous)
  {
    AheadInList(c, sort, queue, list, k);
    var ahead := Ahead(c, sort, queue, list[k]);
    hide Precedes, Ahead, Behind, DistinctIds;
    forall y | y in ahead ensures k > 0 && (y == list[k - 1] || Precedes(c, sort, y, list[k - 1])) {
      InQueue(c, sort, queue, list[k], y);
      var i := IndexIn(c, sort, queue, list, y);
    }
    if k > 0 { assert list[k - 1] in ahead; }
  }

  lemma PlaceHasLead(c: Context, sort: string, queue: set<Lead>, list: seq<Lead>, k: nat)
    requires IsList(c, sort, queue, list) && DistinctIds(queue) && k < |list|
    ensures IsLead(c, sort, queue, list[k], Place(list, k).next)
  {
    AheadInList(c, sort, queue, list, k);
    var behind := Behind(c, sort, queue, list[k]);
    hide Precedes, Ahead, Behind, DistinctIds;
    forall y | y in behind ensures k + 1 < |list| && (y == list[k + 1] || Precedes(c, sort, list[k + 1], y)) {
      InQueue(c, sort, queue, list[k], y);
      var i := IndexIn(c, sort, queue, list, y);
    }
    if k + 1 < |list| { assert list[k + 1] in behind; }
  }

  /** Every record of the queue has a navigation: its place in the list. */
  lemma PlaceIsNavigation(c: Context, sort: string, queue: set<Lead>, list: seq<Lead>, k: nat)
    requires IsList(c, sort, queue, list) && DistinctIds(queue) && k < |list|
    ensures IsNavigation(c, sort, queue, list[k], Place(list, k))
  {
    PositionIsPlace(c, sort, queue, list, k);
    PlaceHasLag(c, sort, queue, list, k);
    PlaceHasLead(c, sort, queue, list, k);
  }

  function Places(list: seq<Lead>): (navs: seq<Navigation>)
    ensures |navs| == |list| && forall k :: 0 <= k < |list| ==> navs[k] == Place(list, k)
  {
    seq(|list|, k requires 0 <= k < |list| => Place(list, k))
  }

  /** Following `next` from the first record of a queue with any record comes to an end, after as many stops as there are records. */
  lemma WalkEnds(c: Context, sort: string, queue: set<Lead>, list: seq<Lead>)
    requires IsList(c, sort, queue, list) && DistinctIds(queue) && queue != {}
    ensures IsWalk(c, sort, queue, list, Places(list))
  {
    hide Precedes, IsNavigation, DistinctIds, Places;
    var r :| r in queue;
    var first := IndexIn(c, sort, queue, list, r);
    assert forall x :: x in list ==> x in queue;
    hide IsList;
    var navs := Places(list);
    forall i | 0 <= i < |list| ensures IsNavigation(c, sort, queue, list[i], navs[i]) {
      PlaceIsNavigation(c, sort, queue, list, i);
    }
    assert navs[0] == Place(list, 0) && navs[|list| - 1] == Place(list, |list| - 1);
  }

  /** Following `next` from the first record visits every record of the filtered queue exactly once, in list order. */
  lemma WalkVisitsEveryRecordOnce(c: Context, sort: string, queue: set<Lead>, list: seq<Lead>, walk: seq<Lead>, navs: seq<Navigation>)
    requires IsList(c, sort, queue, list) && DistinctIds(queue) && IsWalk(c, sort, queue, walk, navs)
    ensures walk == list
    ensures forall x :: x in queue <==> x in walk
    ensures forall i, j :: 0 <= i < j < |walk| ==> walk[i] != walk[j]
  {
    hide Precedes, IsNavigation;
    forall i | 0 <= i < |walk| ensures i < |list| && walk[i] == list[i] { WalkFollowsList(c, sort, queue, list, walk, navs, i); }
    WalkFollowsList(c, sort, queue, list, walk, navs, |walk| - 1);
    forall i, j | 0 <= i < j < |walk| ensures walk[i] != walk[j] { ListIsDistinct(c, sort, queue, list, i, j); }
  }

  // ----- Redirects -----

  /** A redirect to the first row of a page stays there: the page computed for that row is the page it came from. */
  lemma FirstRowStaysOnPage(c: Context, sort: string, queue: set<Lead>, list: seq<Lead>, size: nat, asked: nat, nav: Navigation)
    requires IsList(c, sort, queue, list) && DistinctIds(queue) && size > 0 && asked >= 1 && list != []
    ensures var page := GetPage(|list|, size, asked);
            && PageRows(list, size, page) != []
            && (IsNavigation(c, sort, queue, PageRows(list, size, page)[0], nav) ==> (nav.position - 1) / size + 1 == page)
            && (page == 1 ==> PageRows(list, size, page)[0] == list[0])
  {
    hide Precedes, IsNavigation;
    var page := GetPage(|list|, size, asked);
    PageStart(|list|, size, page);
    var k := (page - 1) * size;
    assert k < |list| by {
      if page > 1 { PageStart(|list|, size, page - 1); }
    }
    assert PageRows(list, size, page)[0] == list[k];
    if IsNavigation(c, sort, queue, list[k], nav) {
      NavigationIsListPlace(c, sort, queue, list, k, nav);
      ExactQuotient(page - 1, size);
    }
  }

  lemma ExactQuotient(a: nat, size: nat)
    requires size > 0
    ensures (a * size) / size == a
  {
    DivBounds(a * size, size);
    var q := (a * size) / size;
    if q < a { Monotone(q + 1, a, size); }
  }

  /** Turning the pages shows the whole list, each row once, in order. */
  lemma {:induction false} PagesCoverList(list: seq<Lead>, size: nat, pages: nat)
    requires size > 0 && pages <= PageCount(|list|, size)
    ensures 0 <= Min(pages * size, |list|) <= |list| && Turned(list, size, pages) == list[..Min(pages * size, |list|)]
    ensures pages == PageCount(|list|, size) ==> Turned(list, size, pages) == list
    decreases pages
  {
    if pages > 0 {
      PagesCoverList(list, size, pages - 1);
      PageStart(|list|, size, pages);
      assert Min((pages - 1) * size, |list|) == (pages - 1) * size;
    }
    PageStart(|list|, size, PageCount(|list|, size));
  }

  function Turned(list: seq<Lead>, size: nat, pages: nat): seq<Lead>
    requires size > 0 && pages <= PageCount(|list|, size)
  {
    if pages == 0 then [] else Turned(list, size, pages - 1) + PageRows(list, size, pages)
  }
}
