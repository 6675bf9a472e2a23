/**
 Exactly when an upload that loses its database session can leave a file that
 no row and no marker knows of: when it could still create a file. Its locks
 are gone, so a collector may clear the way before it does.
 */
module UploadOrphans {
  import opened Wrappers
  import opened UploadProtocol
  import opened UploadInvariant
  import opened UploadSafety

  // ----- Runs in which no session is lost -----

  ghost predicate Reaches(s: State, s': State) {
    exists es :: Possible(s, es) && KeepsSessions(es) && After(s, es) == s'
  }

  lemma Stays(s: State)
    ensures Reaches(s, s)
  {
    assert Possible(s, []) && KeepsSessions([]) && After(s, []) == s;
  }

  lemma Onwards(s: State, m: State, s': State)
    requires Reaches(s, m) && Reaches(m, s')
    ensures Reaches(s, s')
  {
    var es :| Possible(s, es) && KeepsSessions(es) && After(s, es) == m;
    var fs :| Possible(m, fs) && KeepsSessions(fs) && After(m, fs) == s';
    Join(s, es, fs);
    assert KeepsSessions(es + fs);
  }

  lemma Next(s: State, m: State, e: Event)
    requires Reaches(s, m) && Enabled(m, e) && !e.LoseSession?
    ensures Reaches(s, Apply(m, e))
  {
    One(m, e);
    assert KeepsSessions([e]);
    assert Reaches(m, Apply(m, e));
    Onwards(s, m, Apply(m, e));
  }

  lemma ReachesKeepsInv(s: State, s': State)
    requires Inv(s) && Reaches(s, s')
    ensures Inv(s')
  {
    var es :| Possible(s, es) && KeepsSessions(es) && After(s, es) == s';
    RunKeepsInv(s, es);
  }

  /** Every other process may die first. */
  lemma {:induction false} OthersDie(s: State, t: TxId)
    requires t in s.txs
    ensures Reaches(s, s.(txs := map[t := s.txs[t]]))
    decreases |s.txs|
  {
    Stays(s);
    if u :| u in s.txs && u != t {
      var m := End(s, u);
      Next(s, s, Abort(u));
      assert m.txs.Keys < s.txs.Keys;
      MapGrows(m.txs, s.txs, u);
      OthersDie(m, t);
      Onwards(s, m, s.(txs := map[t := s.txs[t]]));
    } else {
      assert s.txs == map[t := s.txs[t]];
    }
  }

  lemma MapGrows(m: map<TxId, Tx>, n: map<TxId, Tx>, u: TxId)
    requires u in n && m == n - {u}
    ensures |m| < |n|
  {
    assert n.Keys == m.Keys + {u};
    assert |m.Keys| == |m| && |n.Keys| == |n|;
  }

  // ----- What the collectors may do under an upload without a session -----

  /** Only the upload t is left, and it holds no lock any more. */
  ghost predicate Alone(q: State, t: TxId) {
    t in q.txs && q.txs == map[t := q.txs[t]] && !q.txs[t].alive && q.txs[t].Upload?
  }

  lemma StartsRecovery(q: State, t: TxId, p: Path) returns (m: State)
    requires Alone(q, t) && p in q.markers
    ensures Reaches(q, m)
    ensures m == q.(txs := q.txs[t + 1 := Recover(true, p, if Named(q.rows, p) then RReferenced else RUnnamed(q.markers[p]))])
  {
    var u := t + 1;
    Stays(q);
    var m1 := q.(txs := q.txs[u := Recover(true, p, RLocked)]);
    Next(q, q, RecoverEvent(u, RecoverLock(p)));
    var m2 := q.(txs := q.txs[u := Recover(true, p, RRead(q.markers[p]))]);
    assert Apply(m1, RecoverEvent(u, RecoverRead)) == m2;
    Next(q, m1, RecoverEvent(u, RecoverRead));
    Next(q, m2, RecoverEvent(u, RecoverQuery));
    m := Apply(m2, RecoverEvent(u, RecoverQuery));
  }

  lemma EndsRecovery(q: State, t: TxId, p: Path, m: State, step: RecoverPhase)
    requires Alone(q, t) && Reaches(q, m)
    requires m == q.(txs := q.txs[t + 1 := Recover(true, p, step)]) && (step.RReferenced? || step.RClear?)
    ensures Reaches(q, q.(markers := q.markers - {p}))
  {
    Next(q, m, RecoverEvent(t + 1, RecoverClear));
    assert m.txs - {t + 1} == q.txs;
  }

  /** Recovery takes the marker of a file that a row names, and of one that is not there. */
  lemma MarkerGoes(q: State, t: TxId, p: Path)
    requires Alone(q, t) && (Named(q.rows, p) || p !in q.blobs)
    ensures Reaches(q, q.(markers := q.markers - {p}))
  {
    if p !in q.markers {
      Stays(q);
      assert q.markers - {p} == q.markers;
    } else {
      var m := StartsRecovery(q, t, p);
      if Named(q.rows, p) {
        EndsRecovery(q, t, p, m, RReferenced);
      } else {
        var n := q.(txs := q.txs[t + 1 := Recover(true, p, RClear)]);
        assert Apply(m, RecoverEvent(t + 1, RecoverStat)) == n;
        Next(q, m, RecoverEvent(t + 1, RecoverStat));
        EndsRecovery(q, t, p, n, RClear);
      }
    }
  }

  lemma RowRetires(q: State, t: TxId, r: RowId)
    requires Alone(q, t) && r in q.rows && q.rows[r].live.Some?
    ensures Reaches(q, q.(rows := q.rows[r := Retired(q.rows[r])]))
  {
    var u := t + 1;
    Stays(q);
    var m := q.(txs := q.txs[u := Retire(true, {r})]);
    assert {r} + {} == {r};
    Next(q, q, RetireEvent(u, RetireLock(r)));
    Next(q, m, RetireEvent(u, RetireCommit));
    assert m.txs - {u} == q.txs;
    assert Apply(m, RetireEvent(u, RetireCommit)).rows == q.rows[r := Retired(q.rows[r])];
  }

  function LiveRows(rows: map<RowId, Row>, p: Path): set<RowId> {
    set r | r in rows && rows[r].live == Some(p)
  }

  function PurgeRows(rows: map<RowId, Row>, p: Path): set<RowId> {
    set r | r in rows && rows[r].purge == Some(p)
  }

  lemma Fewer(a: set<RowId>, b: set<RowId>, r: RowId)
    requires r in b && a == b - {r}
    ensures |a| < |b|
  {
  }

  /** Every row whose live file is p may be retired. */
  lemma {:induction false} RowsRetire(q: State, t: TxId, p: Path) returns (q': State)
    requires Alone(q, t)
    ensures Reaches(q, q') && q' == q.(rows := q'.rows)
    ensures !LiveSomewhere(q'.rows, p) && (Named(q.rows, p) ==> Named(q'.rows, p))
    decreases |LiveRows(q.rows, p)|
  {
    if r :| r in q.rows && q.rows[r].live == Some(p) {
      var m := q.(rows := q.rows[r := Retired(q.rows[r])]);
      RowRetires(q, t, r);
      Fewer(LiveRows(m.rows, p), LiveRows(q.rows, p), r);
      q' := RowsRetire(m, t, p);
      Onwards(q, m, q');
      assert m.rows[r].purge == Some(p);
    } else {
      Stays(q);
      q' := q;
    }
  }

  lemma PurgeFinds(q: State, t: TxId, p: Path, r: RowId)
    requires Alone(q, t) && r in q.rows && q.rows[r].purge == Some(p) && !LiveSomewhere(q.rows, p)
    ensures Reaches(q, q.(txs := q.txs[t + 1 := Purge(true, r, p, PClear)]))
  {
    var u := t + 1;
    Stays(q);
    var m := q.(txs := q.txs[u := Purge(true, r, p, PLocked)]);
    Next(q, q, PurgeEvent(u, PurgeLock(r)));
    hide Reaches, Named;
    assert m.txs[u := Purge(true, r, p, PClear)] == q.txs[u := Purge(true, r, p, PClear)];
    Next(q, m, PurgeEvent(u, PurgeQuery));
  }

  lemma PurgeRemoves(q: State, t: TxId, p: Path, r: RowId, m: State)
    requires Alone(q, t) && r in q.rows && m == q.(txs := q.txs[t + 1 := Purge(true, r, p, PClear)])
    ensures Reaches(m, q.(rows := q.rows[r := q.rows[r].(purge := None)], blobs := q.blobs - {p}))
  {
    var u := t + 1;
    Stays(m);
    var n := q.(txs := q.txs[u := Purge(true, r, p, PUnlinked)], blobs := q.blobs - {p});
    assert m.txs[u := Purge(true, r, p, PUnlinked)] == n.txs;
    Next(m, m, PurgeEvent(u, PurgeUnlink));
    hide Reaches, Named;
    assert n.txs - {u} == q.txs;
    Next(m, n, PurgeEvent(u, PurgeCommit));
  }

  lemma RowPurges(q: State, t: TxId, p: Path, r: RowId)
    requires Alone(q, t) && r in q.rows && q.rows[r].purge == Some(p) && !LiveSomewhere(q.rows, p)
    ensures Reaches(q, q.(rows := q.rows[r := q.rows[r].(purge := None)], blobs := q.blobs - {p}))
  {
    var m := q.(txs := q.txs[t + 1 := Purge(true, r, p, PClear)]);
    PurgeFinds(q, t, p, r);
    PurgeRemoves(q, t, p, r, m);
    hide *;
    Onwards(q, m, q.(rows := q.rows[r := q.rows[r].(purge := None)], blobs := q.blobs - {p}));
  }

  /** And every retired row may be purged, which takes the file. */
  lemma {:induction false} RowsPurge(q: State, t: TxId, p: Path) returns (q': State)
    requires Alone(q, t) && !LiveSomewhere(q.rows, p)
    ensures Reaches(q, q') && q' == q.(rows := q'.rows, blobs := q'.blobs)
    ensures !Named(q'.rows, p) && (Named(q.rows, p) ==> q'.blobs == q.blobs - {p})
    ensures !Named(q.rows, p) ==> q'.blobs == q.blobs
    decreases |PurgeRows(q.rows, p)|
  {
    if r :| r in q.rows && q.rows[r].purge == Some(p) {
      var m := q.(rows := q.rows[r := q.rows[r].(purge := None)], blobs := q.blobs - {p});
      RowPurges(q, t, p, r);
      Fewer(PurgeRows(m.rows, p), PurgeRows(q.rows, p), r);
      q' := RowsPurge(m, t, p);
      Onwards(q, m, q');
      assert m.blobs - {p} == m.blobs;
    } else {
      Stays(q);
      q' := q;
    }
  }

  // ----- An orphan is one for ever -----

  predicate Ignores(tx: Tx, p: Path) {
    match tx
    case Upload(_, token, ph) => token != p && (HasDest(ph) ==> ph.dest != p)
    case Retire(_, _) => true
    case Purge(_, _, path, _) => path != p
    case Recover(_, token, _) => token != p
  }

  ghost predicate Forgotten(s: State, p: Path) {
    Orphan(s, p) && p in s.used && forall t :: t in s.txs ==> Ignores(s.txs[t], p)
  }

  /** The step changes one transaction, and nothing about p. */
  ghost predicate LeavesAlone(s: State, s': State, t: TxId, p: Path) {
    && (p in s.blobs ==> p in s'.blobs) && (p in s'.markers ==> p in s.markers)
    && (Named(s'.rows, p) ==> Named(s.rows, p)) && s.used <= s'.used
    && (forall u :: u in s'.txs && u != t ==> u in s.txs && s'.txs[u] == s.txs[u])
    && (t in s'.txs ==> Ignores(s'.txs[t], p))
  }

  lemma CreationLeavesAlone(s: State, t: TxId, e: UploadStep, p: Path)
    requires p in s.used && !Named(s.rows, p) && (t in s.txs ==> Ignores(s.txs[t], p))
    requires UploadEnabled(s, t, e) && (e.Begin? || e.WriteMarker? || e.OpenBlob? || e.ConfirmCreated? || e.WriteChunks?)
    ensures LeavesAlone(s, ApplyUpload(s, t, e), t, p)
  {
  }

  lemma UploadLeavesAlone(s: State, t: TxId, e: UploadStep, p: Path)
    requires p in s.used && !Named(s.rows, p) && (t in s.txs ==> Ignores(s.txs[t], p))
    requires UploadEnabled(s, t, e)
    ensures LeavesAlone(s, ApplyUpload(s, t, e), t, p)
  {
    if e.Begin? || e.WriteMarker? || e.OpenBlob? || e.ConfirmCreated? || e.WriteChunks? {
      CreationLeavesAlone(s, t, e, p);
    } else {
      assert forall r :: r in s.rows ==> s.rows[r].live != Some(p) && s.rows[r].purge != Some(p);
    }
  }

  lemma PurgeLeavesAlone(s: State, t: TxId, e: PurgeStep, p: Path)
    requires Forgotten(s, p) && PurgeEnabled(s, t, e)
    ensures LeavesAlone(s, ApplyPurge(s, t, e), t, p)
  {
    assert t in s.txs ==> Ignores(s.txs[t], p);
    assert forall r :: r in s.rows ==> s.rows[r].live != Some(p) && s.rows[r].purge != Some(p);
  }

  lemma RetireLeavesAlone(s: State, t: TxId, e: RetireStep, p: Path)
    requires Forgotten(s, p) && RetireEnabled(s, t, e)
    ensures LeavesAlone(s, ApplyRetire(s, t, e), t, p)
  {
    assert forall r :: r in s.rows ==> s.rows[r].live != Some(p) && s.rows[r].purge != Some(p);
  }

  lemma RecoverLeavesAlone(s: State, t: TxId, e: RecoverStep, p: Path)
    requires Forgotten(s, p) && RecoverEnabled(s, t, e)
    ensures LeavesAlone(s, ApplyRecover(s, t, e), t, p)
  {
    assert t in s.txs ==> Ignores(s.txs[t], p);
  }

  lemma StepForgets(s: State, e: Event, p: Path)
    requires Forgotten(s, p) && Enabled(s, e)
    ensures Forgotten(Apply(s, e), p)
  {
    assert LeavesAlone(s, Apply(s, e), e.t, p) by {
      match e
      case UploadEvent(t, up) => UploadLeavesAlone(s, t, up, p);
      case RetireEvent(t, re) => RetireLeavesAlone(s, t, re, p);
      case PurgeEvent(t, pu) => PurgeLeavesAlone(s, t, pu, p);
      case RecoverEvent(t, rc) => RecoverLeavesAlone(s, t, rc, p);
      case _ =>
        hide Enabled;
        assert e.t in s.txs ==> Ignores(s.txs[e.t], p);
    }
    hide Enabled, Apply, ApplyUpload, ApplyRetire, ApplyPurge, ApplyRecover;
  }

  /** Once every process that knew of it is gone, no step of anybody, collectors included, removes an orphan. */
  lemma {:induction false} OrphanStays(s: State, es: seq<Event>, p: Path)
    requires Forgotten(s, p) && Possible(s, es)
    ensures Orphan(After(s, es), p)
    decreases |es|
  {
    if es != [] {
      StepForgets(s, es[0], p);
      OrphanStays(Apply(s, es[0]), es[1..], p);
    }
  }

  // ----- The two ways to an orphan -----

  lemma OwnFileOrphans(q: State, t: TxId, p: Path) returns (q': State)
    requires Alone(q, t) && q.txs[t].token == p && (q.txs[t].phase.Locked? || q.txs[t].phase.Marked?)
    requires p !in q.blobs && !Named(q.rows, p)
    ensures Reaches(q, q') && Orphan(q', p) && Alone(q', t)
  {
    Stays(q);
    var m := q;
    if q.txs[t].phase.Locked? {
      Next(q, q, UploadEvent(t, WriteMarker));
      m := Apply(q, UploadEvent(t, WriteMarker));
    }
    MarkerGoes(m, t, p);
    var n := m.(markers := m.markers - {p});
    Onwards(q, m, n);
    Next(q, n, UploadEvent(t, OpenBlob));
    q' := Apply(n, UploadEvent(t, OpenBlob));
  }

  lemma SharedFileOrphans(q: State, t: TxId, p: Path) returns (q': State)
    requires Alone(q, t) && q.txs[t].phase.Adopting? && q.txs[t].phase.dest == p
    requires q.txs[t].token != p && q.txs[t].token in q.blobs && Named(q.rows, p)
    ensures Reaches(q, q') && Orphan(q', p) && Alone(q', t)
  {
    MarkerGoes(q, t, p);
    var m := q.(markers := q.markers - {p});
    var n := RowsRetire(m, t, p);
    Onwards(q, m, n);
    var o := RowsPurge(n, t, p);
    Onwards(q, n, o);
    Next(q, o, UploadEvent(t, RestoreShared));
    q' := Apply(o, UploadEvent(t, RestoreShared));
  }

  lemma LossLeavesAlone(s: State, t: TxId) returns (q: State)
    requires Enabled(s, LoseSession(t)) && s.txs[t].Upload?
    ensures Reaches(Apply(s, LoseSession(t)), q) && Alone(q, t)
    ensures q.txs[t] == Upload(false, s.txs[t].token, s.txs[t].phase)
    ensures q.rows == s.rows && q.blobs == s.blobs && q.markers == s.markers
  {
    var l := Apply(s, LoseSession(t));
    q := l.(txs := map[t := l.txs[t]]);
    OthersDie(l, t);
  }

  /** The upload has not created the file at p yet, and can. */
  lemma RiskFacts(s: State, t: TxId, p: Path)
    requires Inv(s) && t in s.txs && s.txs[t].alive && p in AtRisk(s.txs[t])
    ensures s.txs[t].Upload? && !Named(s.rows, s.txs[t].token)
    ensures if s.txs[t].phase.Adopting? then s.txs[t].token in s.blobs && Named(s.rows, p)
            else p == s.txs[t].token && p !in s.blobs
  {
    assert TxOk(s, s.txs[t]);
    if s.txs[t].phase.Adopting? {
      assert s.rows[s.txs[t].phase.row].live == Some(p);
    }
  }

  /** A file that nobody knows of is left behind, and nothing is running any more. */
  lemma RiskyLossOrphans(s: State, t: TxId, p: Path) returns (s': State)
    requires Inv(s) && Enabled(s, LoseSession(t)) && p in AtRisk(s.txs[t])
    ensures Reaches(Apply(s, LoseSession(t)), s') && Forgotten(s', p) && s'.txs == map[]
  {
    hide Reaches, Inv;
    RiskFacts(s, t, p);
    var l := Apply(s, LoseSession(t));
    var q := LossLeavesAlone(s, t);
    var m;
    if s.txs[t].phase.Adopting? {
      m := SharedFileOrphans(q, t, p);
    } else {
      m := OwnFileOrphans(q, t, p);
    }
    Onwards(l, q, m);
    s' := DeathForgets(s, t, p, l, m);
  }

  lemma DeathForgets(s: State, t: TxId, p: Path, l: State, m: State) returns (s': State)
    requires Inv(s) && Enabled(s, LoseSession(t)) && l == Apply(s, LoseSession(t))
    requires Reaches(l, m) && Alone(m, t) && Orphan(m, p)
    ensures Reaches(l, s') && Forgotten(s', p) && s'.txs == map[]
  {
    Next(l, m, Abort(t));
    s' := Apply(m, Abort(t));
    StepKeepsInv(s, LoseSession(t));
    ReachesKeepsInv(l, s');
    assert s'.txs == map[];
  }

  // ----- The exact condition -----

  ghost predicate CanOrphan(s: State, p: Path) {
    exists s' :: Reaches(s, s') && Orphan(s', p)
  }

  /** Where the upload could no longer create a file, a run that follows leaves no orphan. */
  lemma OtherLossIsSafe(s: State, t: TxId, es: seq<Event>, p: Path)
    requires Inv(s) && p !in s.detached && Enabled(s, LoseSession(t)) && p !in AtRisk(s.txs[t])
    requires Possible(Apply(s, LoseSession(t)), es) && KeepsSessions(es)
    ensures !Orphan(After(Apply(s, LoseSession(t)), es), p)
  {
    var l := Apply(s, LoseSession(t));
    StepKeepsInv(s, LoseSession(t));
    RunKeepsInv(l, es);
    KeptSessionsRiskNothing(l, es, p);
    DetachedWereRisked(l, es, p);
    assert p in After(l, es).blobs ==> Accounted(After(l, es), p);
  }

  /**
   A transaction loses its session, and no other does afterwards. An orphan at p
   can be the end of it if and only if the transaction is an upload that could
   still create a file at p: its own, not yet opened, or the shared file of the
   row it has found, not yet restored.
   */
  lemma LostSessionOrphansExactly(s: State, t: TxId, p: Path)
    requires Inv(s) && p !in s.detached && Enabled(s, LoseSession(t))
    ensures CanOrphan(Apply(s, LoseSession(t)), p) <==> p in AtRisk(s.txs[t])
  {
    var l := Apply(s, LoseSession(t));
    if p in AtRisk(s.txs[t]) {
      var s' := RiskyLossOrphans(s, t, p);
      assert Reaches(l, s') && Orphan(s', p);
    } else {
      forall s' | Reaches(l, s') ensures !Orphan(s', p) {
        var es :| Possible(l, es) && KeepsSessions(es) && After(l, es) == s';
        OtherLossIsSafe(s, t, es, p);
      }
    }
  }

  /** The same after any run from any admissible start that has risked nothing at p so far. */
  lemma RunOrphansExactly(s: State, es: seq<Event>, t: TxId, p: Path)
    requires Init(s) && Possible(s, es) && !Risked(s, es, p) && Enabled(After(s, es), LoseSession(t))
    ensures CanOrphan(Apply(After(s, es), LoseSession(t)), p) <==> p in AtRisk(After(s, es).txs[t])
  {
    InitInv(s);
    RunKeepsInv(s, es);
    DetachedWereRisked(s, es, p);
    LostSessionOrphansExactly(After(s, es), t, p);
  }

  // ----- Both ways, from a start -----

  lemma RunEndsForgotten(s: State, m: State, t: TxId, p: Path)
    requires Init(s) && Reaches(s, m) && Enabled(m, LoseSession(t)) && p in AtRisk(m.txs[t])
    ensures exists es :: Possible(s, es) && Forgotten(After(s, es), p)
  {
    InitInv(s);
    ReachesKeepsInv(s, m);
    var s' := RiskyLossOrphans(m, t, p);
    var es :| Possible(s, es) && KeepsSessions(es) && After(s, es) == m;
    One(m, LoseSession(t));
    Join(s, es, [LoseSession(t)]);
    var l := Apply(m, LoseSession(t));
    var fs :| Possible(l, fs) && KeepsSessions(fs) && After(l, fs) == s';
    Join(s, es + [LoseSession(t)], fs);
    assert Forgotten(After(s, es + [LoseSession(t)] + fs), p);
  }

  const EMPTY := State(map[], map[], map[], map[], {}, {}, {})

  /** In an empty store: the session is lost between the marker and the file, and recovery takes the marker. */
  lemma LostSessionLeavesOrphan(p: Path)
    ensures Init(EMPTY) && exists es :: Possible(EMPTY, es) && Forgotten(After(EMPTY, es), p)
  {
    Stays(EMPTY);
    Next(EMPTY, EMPTY, UploadEvent(0, Begin(p)));
    var m1 := EMPTY.(txs := map[0 := Upload(true, p, Locked)], used := {p});
    assert Apply(EMPTY, UploadEvent(0, Begin(p))) == m1;
    Next(EMPTY, m1, UploadEvent(0, WriteMarker));
    RunEndsForgotten(EMPTY, Apply(m1, UploadEvent(0, WriteMarker)), 0, p);
  }

  const SHARED := State(map[0 := Row(1, Some(5), None)], map[5 := Some(1)], map[], map[], {5}, {}, {})

  function Uploading(ph: UploadPhase): map<TxId, Tx> {
    map[0 := Upload(true, 6, ph)]
  }

  lemma SharedUploadMarked() returns (m: State)
    ensures Reaches(SHARED, m)
    ensures m == SHARED.(txs := Uploading(Marked), used := {5, 6}, markers := map[6 := false])
  {
    Stays(SHARED);
    hide Reaches;
    Next(SHARED, SHARED, UploadEvent(0, Begin(6)));
    m := SHARED.(txs := Uploading(Locked), used := {5, 6});
    assert Apply(SHARED, UploadEvent(0, Begin(6))) == m;
    Next(SHARED, m, UploadEvent(0, WriteMarker));
    m := Apply(m, UploadEvent(0, WriteMarker));
  }

  lemma SharedUploadOpened(m: State) returns (n: State)
    requires Reaches(SHARED, m)
    requires m == SHARED.(txs := Uploading(Marked), used := {5, 6}, markers := map[6 := false])
    ensures Reaches(SHARED, n)
    ensures n == m.(txs := Uploading(Opened), blobs := map[5 := Some(1), 6 := None])
  {
    hide Reaches;
    Next(SHARED, m, UploadEvent(0, OpenBlob));
    n := Apply(m, UploadEvent(0, OpenBlob));
  }

  lemma SharedUploadWritten(m: State) returns (n: State)
    requires Reaches(SHARED, m)
    requires m == SHARED.(txs := Uploading(Opened), used := {5, 6}, markers := map[6 := false],
                          blobs := map[5 := Some(1), 6 := None])
    ensures Reaches(SHARED, n)
    ensures n == m.(txs := Uploading(Written(1)), blobs := map[5 := Some(1), 6 := Some(1)], markers := map[6 := true])
  {
    hide Reaches;
    Next(SHARED, m, UploadEvent(0, ConfirmCreated));
    n := m.(txs := Uploading(Confirmed), markers := map[6 := true]);
    assert Apply(m, UploadEvent(0, ConfirmCreated)) == n;
    Next(SHARED, n, UploadEvent(0, WriteChunks(1)));
    n := Apply(n, UploadEvent(0, WriteChunks(1)));
  }

  lemma SharedUploadAdopts(m: State) returns (n: State)
    requires Reaches(SHARED, m)
    requires m.txs == Uploading(Written(1)) && m.rows == SHARED.rows
    ensures Reaches(SHARED, n) && n.txs == Uploading(Adopting(1, 0, 5))
  {
    hide Reaches;
    assert RowFree(m, 0);
    Next(SHARED, m, UploadEvent(0, LockShared(0)));
    n := Apply(m, UploadEvent(0, LockShared(0)));
  }

  lemma SharedIsAdmissible()
    ensures Init(SHARED)
  {
    assert SHARED.rows[0].live == Some(5);
  }

  /**
   In a store whose row 0 has its file 5: an upload of the same content loses its
   session when it has found the row; the row is retired and its file purged, and
   the upload then restores file 5.
   */
  lemma LostSessionLeavesSharedOrphan()
    ensures Init(SHARED) && exists es :: Possible(SHARED, es) && Forgotten(After(SHARED, es), 5)
  {
    SharedIsAdmissible();
    var m := SharedUploadMarked();
    m := SharedUploadOpened(m);
    m := SharedUploadWritten(m);
    m := SharedUploadAdopts(m);
    hide Reaches, Init;
    RunEndsForgotten(SHARED, m, 0, 5);
  }
}
