/**
 What the upload protocol guarantees over whole runs: any interleaving of
 uploads, retirements, purges and recovery passes, with crashes and lost
 database sessions anywhere.
 */
module UploadSafety {
  import opened Wrappers
  import opened UploadProtocol
  import opened UploadInvariant

  // ----- Runs -----

  ghost predicate Possible(s: State, es: seq<Event>)
    decreases |es|
  {
    es == [] || (Enabled(s, es[0]) && Possible(Apply(s, es[0]), es[1..]))
  }

  ghost function After(s: State, es: seq<Event>): State
    requires Possible(s, es)
    decreases |es|
  {
    if es == [] then s else After(Apply(s, es[0]), es[1..])
  }

  lemma {:induction false} RunKeepsInv(s: State, es: seq<Event>)
    requires Inv(s) && Possible(s, es)
    ensures Inv(After(s, es))
    decreases |es|
  {
    if es != [] {
      StepKeepsInv(s, es[0]);
      RunKeepsInv(Apply(s, es[0]), es[1..]);
    }
  }

  lemma InitInv(s: State)
    requires Init(s)
    ensures Inv(s)
  {
  }

  // ----- No collector ever removes a file that is needed -----

  lemma UnlinkIsSafe(s: State, e: Event, p: Path)
    requires Inv(s) && Enabled(s, e)
    requires p in s.blobs && p !in Apply(s, e).blobs
    ensures !LiveSomewhere(s.rows, p)
    ensures forall t :: t in s.txs ==> !CouldCommit(s.txs[t], p)
    ensures !e.PurgeEvent? ==> !Named(s.rows, p)
  {
    StepKeepsInv(s, e);
    assert Removable(s, e.t, p);
    forall t | t in s.txs ensures !CouldCommit(s.txs[t], p) {
      if MyToken(s, e.t, p) && t != e.t { assert Apart(s.txs[e.t], s.txs[t]) && TxOk(s, s.txs[t]) && TxOk(s, s.txs[e.t]); }
    }
  }

  /**
   In every reachable state, whatever step is taken next, a file that goes away
   is neither the live file of a committed row nor one an open transaction could
   still commit; only a purge may remove a file that a (retired) row names.
   */
  lemma UnlinksAreSafe(s: State, es: seq<Event>, e: Event, p: Path)
    requires Init(s) && Possible(s, es) && Enabled(After(s, es), e)
    requires p in After(s, es).blobs && p !in Apply(After(s, es), e).blobs
    ensures !LiveSomewhere(After(s, es).rows, p)
    ensures forall t :: t in After(s, es).txs ==> !CouldCommit(After(s, es).txs[t], p)
    ensures !e.PurgeEvent? ==> !Named(After(s, es).rows, p)
  {
    InitInv(s);
    RunKeepsInv(s, es);
    UnlinkIsSafe(After(s, es), e, p);
  }

  /** A live row's file is on disk with exactly the row's content, unless it was absent from the start. */
  lemma LiveFilesHoldTheirContent(s: State, es: seq<Event>, r: RowId)
    requires Init(s) && Possible(s, es)
    requires r in After(s, es).rows && After(s, es).rows[r].live.Some?
    ensures var s' := After(s, es);
            var p := s'.rows[r].live.value;
            if p in s'.blobs then s'.blobs[p] == Some(s'.rows[r].sha) else p in s.absent
  {
    InitInv(s);
    RunKeepsInv(s, es);
    AbsentIsFixed(s, es);
    assert RowOk(After(s, es), After(s, es).rows[r]);
  }

  lemma {:induction false} AbsentIsFixed(s: State, es: seq<Event>)
    requires Possible(s, es)
    ensures After(s, es).absent == s.absent
    decreases |es|
  {
    if es != [] { AbsentIsFixed(Apply(s, es[0]), es[1..]); }
  }

  // ----- Once nobody can name a path, nobody ever will -----

  ghost predicate Dead(s: State, p: Path) {
    p in s.used && !Named(s.rows, p) && Quiet(s, p)
  }

  lemma StepKeepsDead(s: State, e: Event, p: Path)
    requires Inv(s) && Enabled(s, e) && Dead(s, p)
    ensures Dead(Apply(s, e), p)
  {
    StepKeepsInv(s, e);
    LiveIsNamed(s.rows, p);
    KeepsQuiet(s, Apply(s, e), e.t, p);
  }

  lemma {:induction false} RunKeepsDead(s: State, es: seq<Event>, p: Path)
    requires Inv(s) && Possible(s, es) && Dead(s, p)
    ensures Dead(After(s, es), p)
    decreases |es|
  {
    if es != [] {
      StepKeepsDead(s, es[0], p);
      StepKeepsInv(s, es[0]);
      RunKeepsDead(Apply(s, es[0]), es[1..], p);
    }
  }

  /**
   What recovery tests is enough for ever: if no committed row names p and no
   upload holds the token lock of p, then after any further run no row names p.
   */
  lemma NeverNamedAgain(s: State, es: seq<Event>, p: Path)
    requires Inv(s) && Possible(s, es)
    requires p in s.used && !Named(s.rows, p)
    requires forall t :: t in s.txs && s.txs[t].Upload? ==> p !in TokenLocks(s.txs[t])
    ensures !Named(After(s, es).rows, p)
  {
    LiveIsNamed(s.rows, p);
    UnseenMeansQuiet(s, p);
    RunKeepsDead(s, es, p);
  }

  // ----- No silent orphan -----

  ghost predicate Orphan(s: State, p: Path) {
    p in s.blobs && !Named(s.rows, p) && p !in s.markers
  }

  ghost predicate KeepsSessions(es: seq<Event>) {
    forall i :: 0 <= i < |es| ==> !es[i].LoseSession?
  }

  /** Somewhere in the run, an upload that could still create a file at p loses its session. */
  ghost predicate Risked(s: State, es: seq<Event>, p: Path)
    requires Possible(s, es)
    decreases |es|
  {
    && es != []
    && ((es[0].LoseSession? && p in AtRisk(s.txs[es[0].t])) || Risked(Apply(s, es[0]), es[1..], p))
  }

  lemma {:induction false} DetachedWereRisked(s: State, es: seq<Event>, p: Path)
    requires Possible(s, es)
    ensures p in After(s, es).detached <==> p in s.detached || Risked(s, es, p)
    decreases |es|
  {
    if es != [] {
      DetachedWereRisked(Apply(s, es[0]), es[1..], p);
    }
  }

  /**
   At every crash point of every run, a silent orphan is a file at a path that
   some upload could still create a file at when it lost its session.
   */
  lemma OrphansWereRisked(s: State, es: seq<Event>, p: Path)
    requires Init(s) && Possible(s, es) && Orphan(After(s, es), p)
    ensures Risked(s, es, p)
  {
    InitInv(s);
    RunKeepsInv(s, es);
    DetachedWereRisked(s, es, p);
    assert Accounted(After(s, es), p);
  }

  lemma {:induction false} KeptSessionsRiskNothing(s: State, es: seq<Event>, p: Path)
    requires Possible(s, es) && KeepsSessions(es)
    ensures !Risked(s, es, p)
    decreases |es|
  {
    if es != [] {
      assert !es[0].LoseSession?;
      KeptSessionsRiskNothing(Apply(s, es[0]), es[1..], p);
    }
  }

  /** At every crash point of every run whose sessions survive, no file is a silent orphan. */
  lemma NoSilentOrphan(s: State, es: seq<Event>, p: Path)
    requires Init(s) && Possible(s, es) && KeepsSessions(es)
    ensures !Orphan(After(s, es), p)
  {
    KeptSessionsRiskNothing(s, es, p);
    if Orphan(After(s, es), p) { OrphansWereRisked(s, es, p); }
  }

  // ----- Longer runs from shorter ones -----

  lemma {:induction false} Join(s: State, es: seq<Event>, fs: seq<Event>)
    requires Possible(s, es) && Possible(After(s, es), fs)
    ensures Possible(s, es + fs) && After(s, es + fs) == After(After(s, es), fs)
    decreases |es|
  {
    if es == [] {
      assert es + fs == fs;
    } else {
      Join(Apply(s, es[0]), es[1..], fs);
      assert (es + fs)[1..] == es[1..] + fs;
    }
  }

  lemma One(s: State, e: Event)
    requires Enabled(s, e)
    ensures Possible(s, [e]) && After(s, [e]) == Apply(s, e)
  {
    assert Possible(Apply(s, e), []);
  }

  lemma Two(s: State, e: Event, f: Event)
    requires Enabled(s, e) && Enabled(Apply(s, e), f)
    ensures Possible(s, [e, f]) && After(s, [e, f]) == Apply(Apply(s, e), f)
  {
    One(s, e);
    One(Apply(s, e), f);
    Join(s, [e], [f]);
    assert [e] + [f] == [e, f];
  }
}
