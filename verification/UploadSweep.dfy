/**
 The bounded, cursor-paged recovery pass over the upload journal
 (crm_upload_recovery.reconcile_pending_uploads) in the source's loop form, and
 what a full pass leaves behind when no upload is running.
 */
module UploadSweep {
  import opened Wrappers
  import opened UploadProtocol
  import opened UploadSafety

  datatype MarkerFile = Journal(created: bool) | Malformed

  datatype Status = Busy | Invalid | Referenced | Uncertain | Removed | Skipped

  datatype SweepError = InvalidLimit

  /** The journal directory, the files and the table, as one recovery pass finds them. */
  datatype Disk = Disk(
    rows: map<RowId, Row>,
    blobs: map<Path, Option<Digest>>,
    markers: map<Path, MarkerFile>,
    held: set<Path>)

  ghost function Outcome(d: Disk, p: Path): Status {
    if p in d.held then Busy
    else if p !in d.markers then Skipped
    else if d.markers[p].Malformed? then Invalid
    else if Named(d.rows, p) then Referenced
    else if p in d.blobs && !d.markers[p].created then Uncertain
    else Removed
  }

  /** What is left when every marker in `page` has been dealt with, each on its own merits. */
  ghost function Swept(d: Disk, page: set<Path>): Disk {
    d.(
      blobs := map p | p in d.blobs && !(p in page && Outcome(d, p) == Removed) :: d.blobs[p],
      markers := map p | p in d.markers
                         && !(p in page && (Outcome(d, p) == Removed || Outcome(d, p) == Referenced)) :: d.markers[p])
  }

  // ----- The page of names -----

  predicate Ascending(names: seq<Path>) {
    forall i, j :: 0 <= i < j < |names| ==> names[i] < names[j]
  }

  ghost function Above(keys: set<Path>, after: int): set<Path> {
    set p | p in keys && after < p
  }

  /** The `count` smallest names above the cursor, in order (heapq.nsmallest). */
  method Smallest(keys: set<Path>, after: int, count: nat) returns (names: seq<Path>)
    ensures Ascending(names)
    ensures forall p :: p in names ==> p in Above(keys, after)
    ensures |names| <= count
    ensures |names| < count ==> forall p :: p in Above(keys, after) ==> p in names
    ensures forall p, q :: p in Above(keys, after) && p !in names && q in names ==> q < p
  {
    names := [];
    var rest := set p | p in keys && after < p;
    while |names| < count && rest != {}
      invariant Ascending(names) && |names| <= count
      invariant rest <= Above(keys, after)
      invariant forall p :: p in Above(keys, after) <==> p in names || p in rest
      invariant forall p, q :: p in rest && q in names ==> q < p
      decreases count - |names|
    {
      var least := Least(rest);
      assert forall i :: 0 <= i < |names| ==> names[i] in names;
      names := names + [least];
      rest := rest - {least};
    }
  }

  method Least(s: set<Path>) returns (m: Path)
    requires s != {}
    ensures m in s && forall p :: p in s ==> m <= p
  {
    m :| m in s;
    var rest := s - {m};
    while rest != {}
      invariant m in s && rest <= s
      invariant forall p :: p in s ==> p in rest || m <= p
      decreases rest
    {
      var x :| x in rest;
      if x < m { m := x; }
      rest := rest - {x};
    }
  }

  // ----- Sweeping page by page -----

  lemma SweptOne(d: Disk, done: set<Path>, p: Path)
    requires p !in done
    ensures Outcome(Swept(d, done), p) == Outcome(d, p)
    ensures Swept(Swept(d, done), {p}) == Swept(d, done + {p})
  {
    var e := Swept(d, done);
    assert p in e.blobs <==> p in d.blobs;
    assert p in e.markers <==> p in d.markers;
  }

  lemma SweptMore(d: Disk, done: set<Path>, page: set<Path>)
    requires done !! page
    ensures forall p :: p in page ==> Outcome(Swept(d, done), p) == Outcome(d, p)
    ensures Swept(Swept(d, done), page) == Swept(d, done + page)
  {
    forall p | p in page ensures Outcome(Swept(d, done), p) == Outcome(d, p) { SweptOne(d, done, p); }
  }

  /** The `limit` smallest of `limit + 1` names are a page, and the spare one says that more remain. */
  lemma IsPage(d: Disk, after: int, limit: int, names: seq<Path>)
    requires 1 <= limit && |names| <= limit + 1
    requires Ascending(names) && Names(names) <= Above(d.markers.Keys, after)
    requires |names| < limit + 1 ==> Above(d.markers.Keys, after) <= Names(names)
    requires forall p, q :: p in Above(d.markers.Keys, after) && p !in names && q in names ==> q < p
    ensures var page := if |names| > limit then names[..limit] else names;
            var cursor := if |names| > limit then Some(names[limit - 1]) else None;
            PageDone(d, Swept(d, Names(page)), after, limit, page, cursor)
  {
    if |names| > limit {
      var c := names[limit - 1];
      assert names[limit] in names && c in names;
      assert names[limit] in Names(names);
      forall p | p in Above(d.markers.Keys, after) && p <= c ensures p in names[..limit] {
        var i :| 0 <= i < |names| && names[i] == p;
        assert i < limit;
      }
      assert Names(names[..limit]) <= Names(names);
    }
  }

  /** The page after `done` continues the pass where the cursor left it. */
  lemma NextPage(d: Disk, done: set<Path>, e: Disk, after: int, limit: int, names: seq<Path>, cursor: Option<Path>)
    requires PageDone(Swept(d, done), e, after, limit, names, cursor)
    requires done <= d.markers.Keys
    requires forall p :: p in done ==> p <= after
    requires forall p :: p in d.markers && p <= after ==> p in done
    ensures e == Swept(d, done + Names(names))
    ensures done !! Names(names) && done + Names(names) <= d.markers.Keys
    ensures cursor.None? ==> done + Names(names) == d.markers.Keys
    ensures cursor.Some? ==>
              && after < cursor.value && cursor.value in Names(names)
              && (forall p :: p in done + Names(names) ==> p <= cursor.value)
              && (forall p :: p in d.markers && p <= cursor.value ==> p in done + Names(names))
  {
    SweptMore(d, done, Names(names));
    forall p | p in d.markers && p > after ensures p in Swept(d, done).markers {}
    if cursor.Some? {
      assert names[limit - 1] in names;
      assert cursor.value in Names(names) && cursor.value in Above(Swept(d, done).markers.Keys, after);
      forall p | p in names ensures p <= cursor.value {
        var i :| 0 <= i < |names| && names[i] == p;
      }
    }
  }

  ghost function CountOf(d: Disk, names: seq<Path>, st: Status): nat {
    if names == [] then 0
    else CountOf(d, names[..|names| - 1], st) + (if Outcome(d, names[|names| - 1]) == st then 1 else 0)
  }

  datatype Report = Report(processed: nat, counts: map<Status, nat>, cursor: Option<Path>)

  ghost predicate Totals(counts: map<Status, nat>, d: Disk, names: seq<Path>) {
    forall st: Status :: st in counts && counts[st] == CountOf(d, names, st)
  }

  /** `names` is the page of d above the cursor, and e is d with that page dealt with. */
  ghost predicate PageDone(d: Disk, e: Disk, after: int, limit: int, names: seq<Path>, cursor: Option<Path>) {
    && Ascending(names) && |names| <= limit
    && e == Swept(d, Names(names))
    && Names(names) <= Above(d.markers.Keys, after)
    && (match cursor
        case None => Above(d.markers.Keys, after) <= Names(names)
        case Some(c) =>
          && |names| == limit && limit > 0 && c == names[limit - 1]
          && (forall p :: p in Above(d.markers.Keys, after) && p <= c ==> p in names)
          && exists p :: p in d.markers && p > c)
  }

  ghost function Names(names: seq<Path>): set<Path> {
    set p | p in names
  }

  class PrivateStorage {
    var rows: map<RowId, Row>
    var blobs: map<Path, Option<Digest>>
    var markers: map<Path, MarkerFile>
    var held: set<Path>

    constructor (rows: map<RowId, Row>, blobs: map<Path, Option<Digest>>, markers: map<Path, MarkerFile>, held: set<Path>)
      ensures View() == Disk(rows, blobs, markers, held)
    {
      this.rows, this.blobs, this.markers, this.held := rows, blobs, markers, held;
    }

    ghost function View(): Disk
      reads this
    {
      Disk(rows, blobs, markers, held)
    }

    method IsNamed(p: Path) returns (b: bool)
      ensures b <==> Named(rows, p)
    {
      b := false;
      var rest := rows.Keys;
      while rest != {}
        invariant rest <= rows.Keys
        invariant b ==> Named(rows, p)
        invariant !b ==> forall r :: r in rows && r !in rest ==> rows[r].live != Some(p) && rows[r].purge != Some(p)
        decreases rest
      {
        var r :| r in rest;
        if rows[r].live == Some(p) || rows[r].purge == Some(p) { b := true; }
        rest := rest - {r};
      }
    }

    method ReconcileMarker(p: Path) returns (status: Status)
      modifies this`blobs, this`markers
      ensures status == Outcome(old(View()), p)
      ensures View() == Swept(old(View()), {p})
      ensures status == Busy <==> p in held
      ensures status == Skipped <==> p !in held && p !in old(markers)
      ensures status == Invalid <==> p !in held && p in old(markers) && old(markers)[p] == Malformed
      ensures status == Referenced <==> p !in held && p in old(markers) && old(markers)[p] != Malformed && Named(rows, p)
      ensures status == Uncertain <==> p !in held && p in old(markers) && old(markers)[p] == Journal(false) && !Named(rows, p) && p in old(blobs)
      ensures blobs == if status == Removed then old(blobs) - {p} else old(blobs)
      ensures markers == if status == Removed || status == Referenced then old(markers) - {p} else old(markers)
    {
      if p in held { return Busy; }
      if p !in markers { return Skipped; }
      var data := markers[p];
      if data.Malformed? { return Invalid; }
      var named := IsNamed(p);
      if named {
        markers := markers - {p};
        return Referenced;
      }
      if p in blobs {
        if !data.created { return Uncertain; }
        blobs := blobs - {p};
      }
      markers := markers - {p};
      return Removed;
    }

    /** Deal with each marker of the page in turn, counting the outcomes. */
    method ReconcilePage(page: seq<Path>) returns (processed: nat, counts: map<Status, nat>)
      requires Ascending(page)
      modifies this`blobs, this`markers
      ensures View() == Swept(old(View()), Names(page))
      ensures processed == |page| && Totals(counts, old(View()), page)
    {
      counts := map[Busy := 0, Invalid := 0, Referenced := 0, Uncertain := 0, Removed := 0, Skipped := 0];
      processed := 0;
      forall st: Status ensures st in counts && counts[st] == 0 {
        match st case Busy => case Invalid => case Referenced => case Uncertain => case Removed => case Skipped =>
      }
      assert page[..0] == [];
      while processed < |page|
        invariant processed <= |page|
        invariant View() == Swept(old(View()), Names(page[..processed]))
        invariant Totals(counts, old(View()), page[..processed])
      {
        ghost var done := Names(page[..processed]);
        var p := page[processed];
        SweptOne(old(View()), done, p);
        var status := ReconcileMarker(p);
        counts := counts[status := counts[status] + 1];
        processed := processed + 1;
        assert page[..processed][..processed - 1] == page[..processed - 1];
        assert Names(page[..processed]) == done + {p};
      }
      assert page[..processed] == page;
    }

    /** One bounded page; the cursor is the last name dealt with, if names remain. */
    method ReconcilePending(limit: int, after: int) returns (result: Result<Report, SweepError>)
      modifies this`blobs, this`markers
      ensures result.Err? <==> !(1 <= limit <= 100)
      ensures result.Err? ==> View() == old(View())
      ensures result.Ok? ==>
                exists names: seq<Path> ::
                  && PageDone(old(View()), View(), after, limit, names, result.value.cursor)
                  && result.value.processed == |names|
                  && Totals(result.value.counts, old(View()), names)
    {
      if !(1 <= limit <= 100) { return Err(InvalidLimit); }
      var names := Smallest(markers.Keys, after, limit + 1);
      var page := if |names| > limit then names[..limit] else names;
      var cursor := if |names| > limit then Some(names[limit - 1]) else None;
      var processed, counts := ReconcilePage(page);
      IsPage(old(View()), after, limit, names);
      assert PageDone(old(View()), View(), after, limit, page, cursor);
      return Ok(Report(processed, counts, cursor));
    }

    /** The operator's loop: call again from the returned cursor until none comes back. */
    method ReconcileAll(limit: int)
      requires 1 <= limit <= 100
      modifies this`blobs, this`markers
      ensures View() == Swept(old(View()), old(markers).Keys)
    {
      var after: int := -1;
      ghost var d := View();
      ghost var done: set<Path> := {};
      var more := true;
      assert Swept(d, {}) == d;
      while more
        invariant View() == Swept(d, done) && done <= d.markers.Keys
        invariant more ==> forall p :: p in done ==> p <= after
        invariant more ==> forall p :: p in d.markers && p <= after ==> p in done
        invariant -1 <= after
        invariant !more ==> done == d.markers.Keys
        decreases if more then 1 else 0, d.markers.Keys - done
      {
        var result := ReconcilePending(limit, after);
        ghost var names: seq<Path> :| PageDone(Swept(d, done), View(), after, limit, names, result.value.cursor);
        NextPage(d, done, View(), after, limit, names, result.value.cursor);
        done := done + Names(names);
        match result.value.cursor {
          case None => more := false;
          case Some(c) =>
            assert c in Names(names);
            after := c;
        }
      }
    }
  }

  // ----- What a full pass leaves behind -----

  /** The protocol state that a quiet disk stands for. */
  ghost predicate Represents(s: State, d: Disk) {
    && s.txs == map[] && d.held == {}
    && s.rows == d.rows && s.blobs == d.blobs
    && s.markers.Keys == d.markers.Keys
    && forall p :: p in d.markers ==> d.markers[p] == Journal(s.markers[p])
  }

  /**
   After a full pass over a quiet store, the only files no row names are those
   whose marker still says `created: false`; the only markers left are theirs;
   and every file that a row names is untouched.
   */
  lemma FullSweepLeavesOnlyUncertain(s: State, d: Disk)
    requires Inv(s) && s.detached == {} && Represents(s, d)
    ensures var e := Swept(d, d.markers.Keys);
            && (forall p :: p in e.blobs && !Named(e.rows, p) ==> p in e.markers && e.markers[p] == Journal(false))
            && (forall p :: p in e.markers ==> p in e.blobs && !Named(e.rows, p) && e.markers[p] == Journal(false))
            && (forall p :: p in d.blobs && Named(d.rows, p) ==> p in e.blobs && e.blobs[p] == d.blobs[p])
  {
    forall p | p in d.blobs ensures Named(d.rows, p) || p in d.markers {
      assert Accounted(s, p);
    }
  }

  /** Sweeping again changes nothing. */
  lemma SweepIsIdempotent(d: Disk)
    ensures Swept(Swept(d, d.markers.Keys), Swept(d, d.markers.Keys).markers.Keys) == Swept(d, d.markers.Keys)
  {
    var e := Swept(d, d.markers.Keys);
    forall p | p in e.markers ensures Outcome(e, p) != Removed && Outcome(e, p) != Referenced {
      assert Outcome(d, p) != Removed;
    }
  }

  /** One marker of the sequential pass is one uninterrupted recovery run of the protocol. */
  lemma ReconcileIsARecoveryRun(s: State, d: Disk, p: Path) returns (es: seq<Event>)
    requires Represents(s, d) && p in d.markers
    ensures Possible(s, es) && Represents(After(s, es), Swept(d, {p}))
    ensures forall i :: 0 <= i < |es| ==> es[i].RecoverEvent?
  {
    var c := s.markers[p];
    var start := StartRecovery(s, p);
    var s3 := After(s, start);
    assert d.markers[p] == Journal(c);
    var fs;
    if Named(s.rows, p) { fs := FinishNamed(s, s3, p); } else { fs := FinishUnnamed(s, s3, p, c); }
    if p !in s.blobs { assert s.blobs - {p} == s.blobs; }
    SweptOnState(s, d, p, After(s3, fs));
    Join(s, start, fs);
    es := start + fs;
  }

  /** The pass's effect on one marker, spelled out on the protocol state. */
  lemma SweptOnState(s: State, d: Disk, p: Path, s': State)
    requires Represents(s, d) && p in d.markers
    requires s' == s.(
                     markers := if Outcome(d, p) == Uncertain then s.markers else s.markers - {p},
                     blobs := if Outcome(d, p) == Removed then s.blobs - {p} else s.blobs)
    ensures Represents(s', Swept(d, {p}))
  {
    var e := Swept(d, {p});
    assert d.markers[p] == Journal(s.markers[p]);
    assert s'.blobs == e.blobs;
    assert s'.markers.Keys == e.markers.Keys;
  }

  lemma StartRecovery(s: State, p: Path) returns (es: seq<Event>)
    requires s.txs == map[] && p in s.markers
    ensures Possible(s, es)
    ensures After(s, es) ==
            s.(txs := map[0 := Recover(true, p, if Named(s.rows, p) then RReferenced else RUnnamed(s.markers[p]))])
    ensures forall i :: 0 <= i < |es| ==> es[i].RecoverEvent?
  {
    var e1, e2, e3 := RecoverEvent(0, RecoverLock(p)), RecoverEvent(0, RecoverRead), RecoverEvent(0, RecoverQuery);
    var s1 := s.(txs := map[0 := Recover(true, p, RLocked)]);
    assert ApplyRecover(s, 0, RecoverLock(p)) == s1;
    var s2 := s.(txs := map[0 := Recover(true, p, RRead(s.markers[p]))]);
    assert ApplyRecover(s1, 0, RecoverRead) == s2;
    Two(s, e1, e2);
    One(s2, e3);
    Join(s, [e1, e2], [e3]);
    es := [e1, e2] + [e3];
  }

  lemma FinishNamed(s: State, s3: State, p: Path) returns (fs: seq<Event>)
    requires s.txs == map[] && Named(s.rows, p) && s3 == s.(txs := map[0 := Recover(true, p, RReferenced)])
    ensures Possible(s3, fs) && After(s3, fs) == s.(markers := s.markers - {p})
    ensures forall i :: 0 <= i < |fs| ==> fs[i].RecoverEvent?
  {
    var clear := RecoverEvent(0, RecoverClear);
    One(s3, clear);
    fs := [clear];
    assert s3.txs - {0} == map[];
  }

  lemma FinishUnlink(s: State, s3: State, p: Path) returns (fs: seq<Event>)
    requires s.txs == map[] && !Named(s.rows, p) && p in s.blobs && s3 == s.(txs := map[0 := Recover(true, p, RUnnamed(true))])
    ensures Possible(s3, fs) && After(s3, fs) == s.(markers := s.markers - {p}, blobs := s.blobs - {p})
    ensures forall i :: 0 <= i < |fs| ==> fs[i].RecoverEvent?
  {
    var clear, stat, unlink := RecoverEvent(0, RecoverClear), RecoverEvent(0, RecoverStat), RecoverEvent(0, RecoverUnlink);
    var s4 := s.(txs := map[0 := Recover(true, p, RUnlink)]);
    assert ApplyRecover(s3, 0, RecoverStat) == s4;
    var s5 := s.(txs := map[0 := Recover(true, p, RClear)], blobs := s.blobs - {p});
    assert ApplyRecover(s4, 0, RecoverUnlink) == s5;
    Two(s3, stat, unlink);
    assert s5.txs - {0} == map[];
    One(s5, clear);
    Join(s3, [stat, unlink], [clear]);
    fs := [stat, unlink] + [clear];
  }

  lemma FinishUnnamed(s: State, s3: State, p: Path, c: bool) returns (fs: seq<Event>)
    requires s.txs == map[] && !Named(s.rows, p) && s3 == s.(txs := map[0 := Recover(true, p, RUnnamed(c))])
    ensures Possible(s3, fs)
    ensures After(s3, fs) == if p in s.blobs && !c then s else s.(markers := s.markers - {p}, blobs := s.blobs - {p})
    ensures forall i :: 0 <= i < |fs| ==> fs[i].RecoverEvent?
  {
    var clear, stat := RecoverEvent(0, RecoverClear), RecoverEvent(0, RecoverStat);
    assert s3.txs - {0} == map[];
    if p !in s.blobs {
      var s4 := s.(txs := map[0 := Recover(true, p, RClear)]);
      assert ApplyRecover(s3, 0, RecoverStat) == s4;
      assert s4.txs - {0} == map[] && s.blobs - {p} == s.blobs;
      Two(s3, stat, clear);
      fs := [stat, clear];
    } else if !c {
      assert ApplyRecover(s3, 0, RecoverStat) == s;
      One(s3, stat);
      fs := [stat];
    } else {
      fs := FinishUnlink(s, s3, p);
    }
  }
}
