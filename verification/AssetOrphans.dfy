/**
 Exactly when an asset upload that loses its database session can leave a file
 that no asset and no marker knows of: before it has created that file.
 */
module AssetOrphans {
  import opened AssetUploads

  // ----- Runs in which no session is lost -----

  ghost predicate Reaches(s: State, s': State) {
    exists es :: Possible(s, es) && KeepsSessions(es) && After(s, es) == s'
  }

  lemma Stays(s: State)
    ensures Reaches(s, s)
  {
    assert Possible(s, []) && KeepsSessions([]) && After(s, []) == s;
  }

  lemma {:induction false} RunsOn(s: State, es: seq<Event>, e: Event)
    requires Possible(s, es) && Enabled(After(s, es), e)
    ensures Possible(s, es + [e]) && After(s, es + [e]) == Apply(After(s, es), e)
    decreases |es|
  {
    hide Enabled, Apply;
    if es == [] {
      assert [] + [e] == [e] && Possible(Apply(s, e), []);
    } else {
      RunsOn(Apply(s, es[0]), es[1..], e);
      assert (es + [e])[1..] == es[1..] + [e];
    }
  }

  lemma Next(s: State, m: State, e: Event)
    requires Reaches(s, m) && Enabled(m, e) && !e.LoseSession?
    ensures Reaches(s, Apply(m, e))
  {
    hide Enabled, Apply;
    var es :| Possible(s, es) && KeepsSessions(es) && After(s, es) == m;
    RunsOn(s, es, e);
    assert KeepsSessions(es + [e]);
  }

  lemma Fewer(m: map<TxId, Tx>, n: map<TxId, Tx>, u: TxId)
    requires u in n && m == n - {u}
    ensures |m| < |n|
  {
    assert n.Keys == m.Keys + {u};
    assert |m.Keys| == |m| && |n.Keys| == |n|;
  }

  /** Every other process may die first. */
  lemma {:induction false} OthersDie(s: State, m: State, t: TxId)
    requires Reaches(s, m) && t in m.txs
    ensures Reaches(s, m.(txs := map[t := m.txs[t]]))
    decreases |m.txs|
  {
    hide Reaches;
    if u :| u in m.txs && u != t {
      Next(s, m, Abort(u));
      Fewer(End(m, u).txs, m.txs, u);
      OthersDie(s, End(m, u), t);
    } else {
      assert m.txs == map[t := m.txs[t]];
    }
  }

  // ----- The way to an orphan -----

  /** Only the upload t is left, without a session, and its file is not there yet. */
  ghost predicate Alone(q: State, t: TxId, p: Path) {
    && t in q.txs && q.txs == map[t := q.txs[t]] && q.txs[t].Upload? && !q.txs[t].alive && q.txs[t].token == p
    && p !in q.blobs && !Named(q.rows, p)
  }

  lemma RecoveryLooks(s: State, q: State, t: TxId, p: Path) returns (m: State)
    requires Reaches(s, q) && Alone(q, t, p) && p in q.markers
    ensures Reaches(s, m) && m == q.(txs := q.txs[t + 1 := Recover(true, p, true, Unnamed(q.markers[p]))])
  {
    hide Reaches;
    var u := t + 1;
    Next(s, q, RecoverLock(u, p, true));
    m := q.(txs := q.txs[u := Recover(true, p, true, Held)]);
    Next(s, m, RecoverRead(u));
    var n := q.(txs := q.txs[u := Recover(true, p, true, Read(q.markers[p]))]);
    assert Apply(m, RecoverRead(u)) == n;
    Next(s, n, RecoverQuery(u));
    m := Apply(n, RecoverQuery(u));
  }

  lemma RecoveryClears(s: State, q: State, t: TxId, p: Path, m: State)
    requires Reaches(s, m) && Alone(q, t, p) && p in q.markers
    requires m == q.(txs := q.txs[t + 1 := Recover(true, p, true, Unnamed(q.markers[p]))])
    ensures Reaches(s, q.(markers := q.markers - {p}))
  {
    hide Reaches;
    var u := t + 1;
    Next(s, m, RecoverStat(u));
    var n := q.(txs := q.txs[u := Recover(true, p, true, Cleared)]);
    assert Apply(m, RecoverStat(u)) == n;
    Next(s, n, RecoverClear(u));
    assert n.txs - {u} == q.txs;
  }

  lemma FileOrphans(s: State, q: State, t: TxId, p: Path) returns (q': State)
    requires Reaches(s, q) && Alone(q, t, p) && (q.txs[t].phase.Locked? || q.txs[t].phase.Marked?)
    requires q.txs[t].phase.Marked? ==> p in q.markers
    ensures Reaches(s, q') && Orphan(q', p) && q'.txs == map[]
  {
    hide Reaches;
    var m := q;
    if q.txs[t].phase.Locked? {
      Next(s, q, WriteMarker(t));
      m := Apply(q, WriteMarker(t));
    }
    var n := RecoveryLooks(s, m, t, p);
    RecoveryClears(s, m, t, p, n);
    q' := OpensAndDies(s, m.(markers := m.markers - {p}), t, p);
  }

  lemma OpensAndDies(s: State, q: State, t: TxId, p: Path) returns (q': State)
    requires Reaches(s, q) && Alone(q, t, p) && q.txs[t].phase.Marked? && p !in q.markers
    ensures Reaches(s, q') && Orphan(q', p) && q'.txs == map[]
  {
    hide Reaches;
    Next(s, q, OpenBlob(t));
    var m := Apply(q, OpenBlob(t));
    Next(s, m, Abort(t));
    q' := Apply(m, Abort(t));
  }

  /** A file that nobody knows of is left behind, and nothing is running any more. */
  lemma RiskyLossOrphans(s: State, t: TxId, p: Path) returns (s': State)
    requires Inv(s) && Enabled(s, LoseSession(t)) && p in AtRisk(s.txs[t])
    ensures Reaches(Apply(s, LoseSession(t)), s') && Orphan(s', p) && s'.txs == map[]
  {
    var l := Apply(s, LoseSession(t));
    assert TxOk(s, s.txs[t]);
    Stays(l);
    hide Reaches, Inv;
    OthersDie(l, l, t);
    s' := FileOrphans(l, l.(txs := map[t := l.txs[t]]), t, p);
  }

  // ----- The exact condition -----

  ghost predicate CanOrphan(s: State, p: Path) {
    exists s' :: Reaches(s, s') && Orphan(s', p)
  }

  lemma OtherLossIsSafe(s: State, t: TxId, es: seq<Event>, p: Path)
    requires Inv(s) && p !in s.detached && Enabled(s, LoseSession(t)) && p !in AtRisk(s.txs[t])
    requires Possible(Apply(s, LoseSession(t)), es) && KeepsSessions(es)
    ensures !Orphan(After(Apply(s, LoseSession(t)), es), p)
  {
    var l := Apply(s, LoseSession(t));
    StepKeepsInv(s, LoseSession(t));
    RunKeepsInv(l, es);
    KeptSessionsRiskNothing(l, es, p);
    DetachedWereRisked(l, es, p);
    hide TxsOk, LocksOk, RowsOk;
  }

  /**
   A transaction loses its session, and no other does afterwards. An orphan at p
   can be the end of it if and only if the transaction is an upload of p that has
   not created its file yet.
   */
  lemma LostSessionOrphansExactly(s: State, t: TxId, p: Path)
    requires Inv(s) && p !in s.detached && Enabled(s, LoseSession(t))
    ensures CanOrphan(Apply(s, LoseSession(t)), p) <==> p in AtRisk(s.txs[t])
  {
    var l := Apply(s, LoseSession(t));
    if p in AtRisk(s.txs[t]) {
      var s' := RiskyLossOrphans(s, t, p);
      assert Reaches(l, s') && Orphan(s', p);
    } else {
      forall s' | Reaches(l, s') ensures !Orphan(s', p) {
        var es :| Possible(l, es) && KeepsSessions(es) && After(l, es) == s';
        OtherLossIsSafe(s, t, es, p);
      }
    }
  }

  /** The same after any run from any consistent store that has risked nothing at p so far. */
  lemma RunOrphansExactly(s0: State, es: seq<Event>, t: TxId, p: Path)
    requires Start(s0) && Possible(s0, es) && !Risked(s0, es, p) && Enabled(After(s0, es), LoseSession(t))
    ensures CanOrphan(Apply(After(s0, es), LoseSession(t)), p) <==> p in AtRisk(After(s0, es).txs[t])
  {
    RunKeepsInv(s0, es);
    DetachedWereRisked(s0, es, p);
    LostSessionOrphansExactly(After(s0, es), t, p);
  }
}
