/**
 Every step of the upload protocol keeps the invariant. The frame lemmas say
 once and for all why a step of one transaction cannot disturb another; each
 step then only has to account for itself.
 */
module UploadInvariant {
  import opened Wrappers
  import opened UploadProtocol

  // ----- Frames -----

  ghost predicate Kept(s: State, s': State, t: TxId) {
    Inv(s') && Changes(s, s', t)
  }

  lemma DestIsLive(s: State, t: TxId, p: Path)
    requires t in s.txs && TxOk(s, s.txs[t]) && s.txs[t].alive && Mine(s, t, p) && Spent(s, p)
    ensures LiveSomewhere(s.rows, p)
  {
    assert !MyToken(s, t, p);
    assert s.rows[s.txs[t].phase.row].live == Some(p);
  }

  lemma KeepsSettled(s: State, s': State, t: TxId, p: Path)
    requires Changes(s, s', t) && Settled(s, p) && (t in s.txs ==> TxOk(s, s.txs[t]))
    ensures Settled(s', p)
  {
    KeepsSpent(s, s', t, p);
    if p in s.blobs {
      assert Named(s.rows, p) ==> Named(s'.rows, p) || Gone(s, p);
    } else if p in s'.blobs {
      assert Mine(s, t, p) && s'.rows == s.rows;
      if s.txs[t].alive { DestIsLive(s, t, p); } else { assert AtRisk(s.txs[t]) <= s.detached; }
    }
  }

  lemma KeepsQuietGone(s: State, s': State, t: TxId, p: Path)
    requires Changes(s, s', t) && (t in s.txs ==> TxOk(s, s.txs[t]))
    requires Quiet(s, p) && Gone(s, p)
    ensures Gone(s', p)
  {
    if p in s'.blobs && p !in s.blobs {
      assert Mine(s, t, p);
      assert AtRisk(s.txs[t]) <= s.detached;
    }
  }

  lemma KeepsAgrees(s: State, s': State, t: TxId, p: Path, d: Digest)
    requires Changes(s, s', t) && Spent(s, p) && Agrees(s.rows, p, d)
    requires t in s.txs ==> TxOk(s, s.txs[t])
    ensures Agrees(s'.rows, p, d)
  {
    forall r | r in s'.rows && s'.rows[r].live == Some(p) ensures s'.rows[r].sha == d {
      if !(r in s.rows && s'.rows[r] == s.rows[r]) {
        assert IsNewRow(s, t, s'.rows[r]) && !MyToken(s, t, p);
      }
    }
  }

  lemma KeepsUpload(s: State, s': State, t: TxId, u: TxId)
    requires Changes(s, s', t) && LocksOk(s)
    requires u in s.txs && u != t && Uncommitted(s.txs[u]) && UploadOk(s, s.txs[u])
    requires t in s.txs ==> TxOk(s, s.txs[t])
    ensures UploadOk(s', s.txs[u])
  {
    var tx := s.txs[u];
    var p := tx.token;
    if t in s.txs { assert Apart(s.txs[t], tx); }
    assert !MyToken(s, t, p);
    if HasDest(tx.phase) {
      KeepsSpent(s, s', t, tx.phase.dest);
      KeepsAgrees(s, s', t, tx.phase.dest, tx.phase.digest);
    }
    if tx.alive {
      assert Uses(tx, p);
      assert !Quiet(s, p) && !NoToken(s, p);
      assert !Mine(s, t, p);
      assert p in s'.blobs <==> p in s.blobs;
      assert p in s'.markers <==> p in s.markers;
      if HasDest(tx.phase) {
        var r := tx.phase.row;
        assert r in RowLocks(tx);
        assert s'.rows[r] == s.rows[r];
        assert LiveSomewhere(s.rows, tx.phase.dest);
        assert UploadOwns(s', p, tx.phase);
      }
    }
  }

  lemma KeepsOther(s: State, s': State, t: TxId, u: TxId)
    requires Changes(s, s', t) && LocksOk(s) && TxsOk(s)
    requires u in s.txs && u != t
    ensures TxOk(s', s.txs[u])
  {
    var tx := s.txs[u];
    if t in s.txs { assert Apart(s.txs[t], tx) && TxOk(s, s.txs[t]); }
    match tx
    case Upload(_, p, ph) =>
      if ph.Committed? { KeepsSettled(s, s', t, p); } else { KeepsUpload(s, s', t, u); }
    case Retire(_, _) =>
    case Purge(_, r, p, st) =>
      KeepsSpent(s, s', t, p);
      if st.PClear? || st.PUnlinked? { KeepsQuiet(s, s', t, p); }
      if st.PUnlinked? { KeepsQuietGone(s, s', t, p); }
    case Recover(_, p, st) =>
      if st.RReferenced? { KeepsSettled(s, s', t, p); }
      if st.RUnnamed? || st.RUnlink? || st.RClear? {
        assert forall r :: r in s.rows ==> s.rows[r].live != Some(p);
        KeepsQuiet(s, s', t, p);
      }
      if st.RClear? { KeepsQuietGone(s, s', t, p); }
  }

  lemma KeepsLocks(s: State, s': State, t: TxId)
    requires ChangesTx(s, s', t) && LocksOk(s) && TxsOk(s)
    ensures LocksOk(s')
  {
    forall u | u in s'.txs && u != t && t in s'.txs ensures Apart(s'.txs[t], s'.txs[u]) && Apart(s'.txs[u], s'.txs[t]) {
      if t in s.txs { assert Apart(s.txs[t], s.txs[u]); }
      if Uncommitted(s'.txs[t]) {
        assert MyToken(s', t, s'.txs[t].token);
        assert TxOk(s, s.txs[u]);
      }
    }
  }

  /** A step that respects the frame keeps everything but its own transaction, rows and files. */
  lemma KeepsInv(s: State, s': State, t: TxId)
    requires Inv(s) && Changes(s, s', t)
    requires t in s'.txs ==> TxOk(s', s'.txs[t])
    requires RowsOk(s') && FilesOk(s')
    ensures Kept(s, s', t)
  {
    KeepsLocks(s, s', t);
    forall u | u in s'.txs ensures TxOk(s', s'.txs[u]) {
      if u != t { KeepsOther(s, s', t, u); }
    }
  }

  /** Rows stay in order under any step that leaves the table alone. */
  lemma KeepsRows(s: State, s': State, t: TxId)
    requires Inv(s) && Changes(s, s', t) && s'.rows == s.rows
    ensures RowsOk(s')
  {
    forall r | r in s'.rows ensures RowOk(s', s'.rows[r]) {
      var row := s.rows[r];
      assert RowOk(s, row);
      if row.live.Some? {
        KeepsSpent(s, s', t, row.live.value);
        KeepsAgrees(s, s', t, row.live.value, row.sha);
        assert LiveSomewhere(s.rows, row.live.value);
        assert !MyToken(s, t, row.live.value);
      }
      if row.purge.Some? { KeepsSpent(s, s', t, row.purge.value); }
    }
  }

  // ----- Steps, described by the one path they touch -----

  /** Transaction t moves to tx without acquiring a token, and at most the free row r. */
  lemma MovesTx(s: State, s': State, t: TxId, tx: Tx, r: RowId)
    requires t in s.txs && s'.txs == s.txs[t := tx] && (tx.alive ==> s.txs[t].alive)
    requires Uncommitted(tx) ==> Uncommitted(s.txs[t]) && tx.token == s.txs[t].token
    requires Uncommitted(tx) && HasDest(tx.phase) ==>
               || (HasDest(s.txs[t].phase) && tx.phase.dest == s.txs[t].phase.dest)
               || LiveSomewhere(s.rows, tx.phase.dest)
    requires TokenLocks(tx) <= TokenLocks(s.txs[t])
    requires RowLocks(tx) <= RowLocks(s.txs[t]) || (RowLocks(tx) <= RowLocks(s.txs[t]) + {r} && RowFree(s, r))
    ensures ChangesTx(s, s', t)
  {
  }

  lemma EndsTx(s: State, s': State, t: TxId)
    requires s'.txs == s.txs - {t}
    ensures ChangesTx(s, s', t)
  {
  }

  lemma SameRows(s: State, s': State, t: TxId)
    requires s'.rows == s.rows
    ensures ChangesRows(s, s', t)
  {
  }

  /** Only the files at p may differ, and only in ways that t answers for. */
  ghost predicate TouchesOnly(s: State, s': State, t: TxId, p: Path) {
    && s.used <= s'.used && s.detached <= s'.detached && s.absent == s'.absent
    && s'.blobs - {p} == s.blobs - {p} && s'.markers - {p} == s.markers - {p}
    && (p in s'.blobs && p !in s.blobs ==>
          && s'.rows == s.rows && t in s.txs && p in AtRisk(s.txs[t])
          && (MyToken(s, t, p) || (Mine(s, t, p) && s'.blobs[p] == Some(s.txs[t].phase.digest))))
    && (p in s'.blobs && p in s.blobs && s'.blobs[p] != s.blobs[p] ==> MyToken(s, t, p))
    && (p in s.blobs && p !in s'.blobs ==> Removable(s, t, p))
    && ((p in s.markers) != (p in s'.markers) ==> MyToken(s, t, p) || NoToken(s, p))
  }

  lemma TouchedFiles(s: State, s': State, t: TxId, p: Path)
    requires TouchesOnly(s, s', t, p)
    ensures ChangesFiles(s, s', t)
  {
    forall q | q != p
      ensures q in s'.blobs <==> q in s.blobs
      ensures q in s.blobs ==> s'.blobs[q] == s.blobs[q]
      ensures q in s'.markers <==> q in s.markers
    {
      assert q in s'.blobs <==> q in s'.blobs - {p};
      assert q in s.blobs <==> q in s.blobs - {p};
      assert q in s'.markers <==> q in s'.markers - {p};
      assert q in s.markers <==> q in s.markers - {p};
      if q in s.blobs { assert (s.blobs - {p})[q] == (s'.blobs - {p})[q]; }
    }
  }

  lemma TouchedFilesOk(s: State, s': State, t: TxId, p: Path)
    requires FilesOk(s) && ChangesRows(s, s', t) && TouchesOnly(s, s', t, p)
    requires Accounted(s', p) && p in s'.used
    ensures FilesOk(s')
  {
    forall q | q in s'.blobs ensures q in s'.used && Accounted(s', q) {
      if q != p {
        assert q in s'.blobs - {p};
        assert q in s.blobs && Accounted(s, q);
        if q in s.markers { assert q in s.markers - {p}; }
      }
    }
    forall q | q in s'.markers ensures q in s'.used {
      if q != p { assert q in s'.markers - {p}; }
    }
  }

  lemma Keeps(s: State, s': State, t: TxId, p: Path)
    requires Inv(s) && ChangesTx(s, s', t) && ChangesRows(s, s', t) && TouchesOnly(s, s', t, p)
    requires Accounted(s', p) && p in s'.used
    requires t in s'.txs ==> TxOk(s', s'.txs[t])
    requires s'.rows == s.rows || RowsOk(s')
    ensures Kept(s, s', t)
  {
    TouchedFiles(s, s', t, p);
    TouchedFilesOk(s, s', t, p);
    if s'.rows == s.rows { KeepsRows(s, s', t); }
    KeepsInv(s, s', t);
  }

  /** An upload moves to its next phase, touching the files at q. */
  lemma MovesUpload(s: State, s': State, t: TxId, ph: UploadPhase, q: Path)
    requires Inv(s) && t in s.txs && Uncommitted(s.txs[t]) && !ph.Committed?
    requires s'.txs == s.txs[t := s.txs[t].(phase := ph)] && s'.rows == s.rows
    requires s'.used == s.used && s'.detached == s.detached
    requires HasDest(ph) ==>
               HasDest(s.txs[t].phase) && ph.dest == s.txs[t].phase.dest && ph.row == s.txs[t].phase.row
               && ph.digest == s.txs[t].phase.digest
    requires TouchesOnly(s, s', t, q) && Accounted(s', q) && q in s.used
    requires HasDigest(ph) && s.txs[t].token in s'.blobs ==> s'.blobs[s.txs[t].token] == Some(ph.digest)
    requires if s.txs[t].alive then UploadOwns(s', s.txs[t].token, ph)
             else AtRisk(s'.txs[t]) <= s.detached && (Dropped(ph) ==> Gone(s', s.txs[t].token))
    ensures Kept(s, s', t)
  {
    MovesTx(s, s', t, s'.txs[t], 0);
    SameRows(s, s', t);
    TouchedFiles(s, s', t, q);
    assert TxOk(s, s.txs[t]);
    if HasDest(ph) { KeepsSpent(s, s', t, ph.dest); }
    Keeps(s, s', t, q);
  }

  // ----- Uploads -----

  lemma KeepsWriteMarker(s: State, t: TxId)
    requires Inv(s) && UploadEnabled(s, t, WriteMarker)
    ensures Kept(s, ApplyUpload(s, t, WriteMarker), t)
  {
    var s' := ApplyUpload(s, t, WriteMarker);
    assert TxOk(s, s.txs[t]);
    MovesUpload(s, s', t, s'.txs[t].phase, s.txs[t].token);
  }

  lemma KeepsOpenBlob(s: State, t: TxId)
    requires Inv(s) && UploadEnabled(s, t, OpenBlob)
    ensures Kept(s, ApplyUpload(s, t, OpenBlob), t)
  {
    var s' := ApplyUpload(s, t, OpenBlob);
    assert TxOk(s, s.txs[t]);
    MovesUpload(s, s', t, s'.txs[t].phase, s.txs[t].token);
  }

  lemma KeepsConfirmCreated(s: State, t: TxId)
    requires Inv(s) && UploadEnabled(s, t, ConfirmCreated)
    ensures Kept(s, ApplyUpload(s, t, ConfirmCreated), t)
  {
    var s' := ApplyUpload(s, t, ConfirmCreated);
    assert TxOk(s, s.txs[t]);
    MovesUpload(s, s', t, s'.txs[t].phase, s.txs[t].token);
  }

  lemma KeepsWriteChunks(s: State, t: TxId, d: Digest)
    requires Inv(s) && UploadEnabled(s, t, WriteChunks(d))
    ensures Kept(s, ApplyUpload(s, t, WriteChunks(d)), t)
  {
    var s' := ApplyUpload(s, t, WriteChunks(d));
    assert TxOk(s, s.txs[t]);
    MovesUpload(s, s', t, s'.txs[t].phase, s.txs[t].token);
  }

  lemma KeepsRestoreShared(s: State, t: TxId)
    requires Inv(s) && UploadEnabled(s, t, RestoreShared)
    ensures Kept(s, ApplyUpload(s, t, RestoreShared), t)
  {
    var s' := ApplyUpload(s, t, RestoreShared);
    assert TxOk(s, s.txs[t]);
    hide Inv, LocksOk, RowsOk, TxsOk;
    MovesUpload(s, s', t, s'.txs[t].phase, s.txs[t].phase.dest);
  }

  lemma KeepsInsertShared(s: State, t: TxId)
    requires Inv(s) && UploadEnabled(s, t, InsertShared)
    ensures Kept(s, ApplyUpload(s, t, InsertShared), t)
  {
    var s' := ApplyUpload(s, t, InsertShared);
    assert TxOk(s, s.txs[t]);
    MovesUpload(s, s', t, s'.txs[t].phase, s.txs[t].token);
  }

  lemma KeepsInsertOwn(s: State, t: TxId)
    requires Inv(s) && UploadEnabled(s, t, InsertOwn)
    ensures Kept(s, ApplyUpload(s, t, InsertOwn), t)
  {
    var s' := ApplyUpload(s, t, InsertOwn);
    assert TxOk(s, s.txs[t]);
    MovesUpload(s, s', t, s'.txs[t].phase, s.txs[t].token);
  }

  lemma KeepsDropTemp(s: State, t: TxId)
    requires Inv(s) && UploadEnabled(s, t, DropTemp)
    ensures Kept(s, ApplyUpload(s, t, DropTemp), t)
  {
    var s' := ApplyUpload(s, t, DropTemp);
    assert TxOk(s, s.txs[t]);
    hide Inv, LocksOk, RowsOk, TxsOk;
    MovesUpload(s, s', t, s'.txs[t].phase, s.txs[t].token);
  }

  lemma KeepsFail(s: State, t: TxId)
    requires Inv(s) && UploadEnabled(s, t, Fail)
    ensures Kept(s, ApplyUpload(s, t, Fail), t)
  {
    var s' := ApplyUpload(s, t, Fail);
    assert TxOk(s, s.txs[t]);
    MovesUpload(s, s', t, s'.txs[t].phase, s.txs[t].token);
  }

  lemma KeepsBegin(s: State, t: TxId, p: Path)
    requires Inv(s) && UploadEnabled(s, t, Begin(p))
    ensures Kept(s, ApplyUpload(s, t, Begin(p)), t)
  {
    var s' := ApplyUpload(s, t, Begin(p));
    forall u | u in s.txs ensures p !in TokenLocks(s.txs[u]) { assert TxOk(s, s.txs[u]); }
    SameRows(s, s', t);
    forall r | r in s.rows ensures s.rows[r].live != Some(p) && s.rows[r].purge != Some(p) {
      assert RowOk(s, s.rows[r]);
    }
    Keeps(s, s', t, p);
  }

  lemma LockSharedTx(s: State, t: TxId, r: RowId)
    requires Inv(s) && UploadEnabled(s, t, LockShared(r))
    ensures var s' := ApplyUpload(s, t, LockShared(r)); t in s'.txs && TxOk(s', s'.txs[t])
  {
    var s' := ApplyUpload(s, t, LockShared(r));
    assert TxOk(s, s.txs[t]) && RowOk(s, s.rows[r]);
    hide Inv;
  }

  lemma LockSharedFiles(s: State, t: TxId, r: RowId)
    requires Inv(s) && UploadEnabled(s, t, LockShared(r))
    ensures var s' := ApplyUpload(s, t, LockShared(r)); Accounted(s', s.txs[t].token) && s.txs[t].token in s'.used
  {
    assert TxOk(s, s.txs[t]);
    hide LocksOk, RowsOk;
  }

  lemma KeepsLockShared(s: State, t: TxId, r: RowId)
    requires Inv(s) && UploadEnabled(s, t, LockShared(r))
    ensures Kept(s, ApplyUpload(s, t, LockShared(r)), t)
  {
    var s' := ApplyUpload(s, t, LockShared(r));
    assert TxOk(s, s.txs[t]) && RowOk(s, s.rows[r]);
    LockSharedTx(s, t, r);
    LockSharedFiles(s, t, r);
    hide Inv, TxOk, RowOk, Accounted;
    MovesTx(s, s', t, s'.txs[t], r);
    SameRows(s, s', t);
    hide ChangesTx, ChangesRows;
    Keeps(s, s', t, s.txs[t].token);
  }

  lemma KeepsDropMarker(s: State, t: TxId)
    requires Inv(s) && UploadEnabled(s, t, DropMarker)
    ensures Kept(s, ApplyUpload(s, t, DropMarker), t)
  {
    var s' := ApplyUpload(s, t, DropMarker);
    var p := s.txs[t].token;
    assert TxOk(s, s.txs[t]);
    if s.txs[t].phase.Committed? {
      EndsTx(s, s', t);
      SameRows(s, s', t);
      assert !MyToken(s, t, p);
      DropsSpentMarker(s, s', t, p);
    } else {
      MovesUpload(s, s', t, s'.txs[t].phase, p);
    }
  }

  /** The marker of a finished upload goes away: its file is accounted for without it. */
  lemma DropsSpentMarker(s: State, s': State, t: TxId, p: Path)
    requires Inv(s) && ChangesTx(s, s', t) && s' == s.(txs := s'.txs, markers := s.markers - {p})
    requires t !in s'.txs && (Gone(s, p) || Named(s.rows, p)) && p in s.used && NoToken(s, p)
    ensures Kept(s, s', t)
  {
    SameRows(s, s', t);
    Keeps(s, s', t, p);
  }

  lemma KeepsCommit(s: State, t: TxId, id: RowId)
    requires Inv(s) && UploadEnabled(s, t, Commit(id))
    ensures Kept(s, ApplyUpload(s, t, Commit(id)), t)
  {
    var s' := ApplyUpload(s, t, Commit(id));
    var tx := s.txs[t];
    var row := s'.rows[id];
    var p := row.live.value;
    assert TxOk(s, tx);
    if tx.phase.Inserted? { MovesTx(s, s', t, s'.txs[t], 0); } else { EndsTx(s, s', t); }
    assert s'.rows == s.rows[id := row] && IsNewRow(s, t, row);
    AddsRow(s, s', t, id, row);
    TouchedFiles(s, s', t, tx.token);
    forall r | r in s'.rows ensures RowOk(s', s'.rows[r]) {
      if r == id {
        NewRowOk(s, s', t, row);
      } else {
        OldRowOk(s, s', t, s.rows[r]);
      }
    }
    assert s'.rows[id].live == Some(p);
    if tx.phase.Inserted? {
      forall u | u in s'.txs && Uncommitted(s'.txs[u]) ensures s'.txs[u].token != p { assert Apart(tx, s.txs[u]); }
    }
    Keeps(s, s', t, tx.token);
  }

  lemma AddsRow(s: State, s': State, t: TxId, id: RowId, row: Row)
    requires t in s.txs && TxOk(s, s.txs[t]) && IsNewRow(s, t, row) && row.purge.None?
    requires id !in s.rows && s'.rows == s.rows[id := row]
    ensures ChangesRows(s, s', t)
  {
    var p := row.live.value;
    if HasDest(s.txs[t].phase) { assert s.rows[s.txs[t].phase.row].live == Some(p); }
    forall q: Path | Named(s'.rows, q) ensures Named(s.rows, q) || (MyToken(s, t, q) && s.txs[t].alive) {
      var r :| r in s'.rows && (s'.rows[r].live == Some(q) || s'.rows[r].purge == Some(q));
      if r != id { assert r in s.rows; }
    }
    forall q: Path | LiveSomewhere(s'.rows, q) ensures LiveSomewhere(s.rows, q) || (Mine(s, t, q) && s.txs[t].alive) {
      var r :| r in s'.rows && s'.rows[r].live == Some(q);
      if r != id { assert r in s.rows; }
    }
    forall q: Path | Named(s.rows, q) ensures Named(s'.rows, q) {
      var r :| r in s.rows && (s.rows[r].live == Some(q) || s.rows[r].purge == Some(q));
      assert s'.rows[r] == s.rows[r];
    }
  }

  lemma NewRowOk(s: State, s': State, t: TxId, row: Row)
    requires Inv(s) && Changes(s, s', t) && t in s.txs && IsNewRow(s, t, row) && row.purge.None?
    requires s.txs[t].phase.Inserted? || s.txs[t].phase.SharedCleared?
    requires s.txs[t].phase.Inserted? ==> row.sha == s.txs[t].phase.digest
    requires s'.blobs == s.blobs && (t in s'.txs ==> !Uncommitted(s'.txs[t]))
    requires forall r :: r in s'.rows && s'.rows[r].live == row.live ==>
                         s'.rows[r] == row || (r in s.rows && s.rows[r] == s'.rows[r])
    ensures RowOk(s', row)
  {
    var tx := s.txs[t];
    var p := row.live.value;
    assert TxOk(s, tx);
    if tx.phase.Inserted? {
      forall u | u in s'.txs && Uncommitted(s'.txs[u]) ensures s'.txs[u].token != p { assert Apart(tx, s.txs[u]); }
    } else {
      KeepsSpent(s, s', t, p);
      assert RowOk(s, s.rows[tx.phase.row]);
    }
  }

  lemma OldRowOk(s: State, s': State, t: TxId, row: Row)
    requires Inv(s) && Changes(s, s', t) && RowOk(s, row) && (row.live.Some? ==> LiveSomewhere(s.rows, row.live.value))
    ensures RowOk(s', row)
  {
    if row.live.Some? {
      KeepsSpent(s, s', t, row.live.value);
      KeepsAgrees(s, s', t, row.live.value, row.sha);
    }
    if row.purge.Some? { KeepsSpent(s, s', t, row.purge.value); }
  }

  lemma KeepsUploadStep(s: State, t: TxId, e: UploadStep)
    requires Inv(s) && UploadEnabled(s, t, e)
    ensures Kept(s, ApplyUpload(s, t, e), t)
  {
    match e
    case Begin(p) => KeepsBegin(s, t, p);
    case WriteMarker => KeepsWriteMarker(s, t);
    case OpenBlob => KeepsOpenBlob(s, t);
    case ConfirmCreated => KeepsConfirmCreated(s, t);
    case WriteChunks(d) => KeepsWriteChunks(s, t, d);
    case LockShared(r) => KeepsLockShared(s, t, r);
    case RestoreShared => KeepsRestoreShared(s, t);
    case InsertShared => KeepsInsertShared(s, t);
    case InsertOwn => KeepsInsertOwn(s, t);
    case DropTemp => KeepsDropTemp(s, t);
    case DropMarker => KeepsDropMarker(s, t);
    case Commit(id) => KeepsCommit(s, t, id);
    case Fail => KeepsFail(s, t);
  }

  // ----- Retirements and purges -----

  lemma KeepsRetireLock(s: State, t: TxId, r: RowId)
    requires Inv(s) && RetireEnabled(s, t, RetireLock(r))
    ensures Kept(s, ApplyRetire(s, t, RetireLock(r)), t)
  {
    var s' := ApplyRetire(s, t, RetireLock(r));
    var p := s.rows[r].live.value;
    assert RowOk(s, s.rows[r]) && (t in s.txs ==> TxOk(s, s.txs[t]));
    SameRows(s, s', t);
    assert p in s.blobs ==> Accounted(s, p);
    Keeps(s, s', t, p);
  }

  lemma RetiresRows(s: State, s': State, t: TxId)
    requires t in s.txs && s.txs[t].Retire? && s.txs[t].alive && TxOk(s, s.txs[t]) && RowsOk(s)
    requires s'.rows == map r | r in s.rows :: if r in s.txs[t].rows then Retired(s.rows[r]) else s.rows[r]
    ensures ChangesRows(s, s', t)
  {
    forall q: Path | Named(s'.rows, q) ensures Named(s.rows, q) {
      var r :| r in s'.rows && (s'.rows[r].live == Some(q) || s'.rows[r].purge == Some(q));
      assert s.rows[r].live == Some(q) || s.rows[r].purge == Some(q);
    }
    forall q: Path | LiveSomewhere(s'.rows, q) ensures LiveSomewhere(s.rows, q) {
      var r :| r in s'.rows && s'.rows[r].live == Some(q);
      assert s.rows[r].live == Some(q);
    }
    forall q: Path | Named(s.rows, q) ensures Named(s'.rows, q) || Gone(s, q) {
      NamesStay(s, s', t, q);
    }
  }

  lemma NamesStay(s: State, s': State, t: TxId, q: Path)
    requires t in s.txs && s.txs[t].Retire? && s.txs[t].alive && TxOk(s, s.txs[t]) && RowsOk(s)
    requires s'.rows == map r | r in s.rows :: if r in s.txs[t].rows then Retired(s.rows[r]) else s.rows[r]
    requires Named(s.rows, q)
    ensures Named(s'.rows, q)
  {
    var r :| r in s.rows && (s.rows[r].live == Some(q) || s.rows[r].purge == Some(q));
    assert RowOk(s, s.rows[r]);
    assert s'.rows[r].live == Some(q) || s'.rows[r].purge == Some(q);
  }

  lemma KeepsRetireCommit(s: State, t: TxId)
    requires Inv(s) && RetireEnabled(s, t, RetireCommit)
    ensures Kept(s, ApplyRetire(s, t, RetireCommit), t)
  {
    var s' := ApplyRetire(s, t, RetireCommit);
    assert TxOk(s, s.txs[t]);
    EndsTx(s, s', t);
    RetiresRows(s, s', t);
    SameFiles(s, s', t);
    forall r | r in s'.rows ensures RowOk(s', s'.rows[r]) {
      assert RowOk(s, s.rows[r]);
      if r in s.txs[t].rows {
        KeepsSpent(s, s', t, s.rows[r].live.value);
      } else {
        OldRowOk(s, s', t, s.rows[r]);
      }
    }
    KeepsSameFiles(s, s', t);
  }

  /** A step that leaves every file where it is. */
  lemma SameFiles(s: State, s': State, t: TxId)
    requires s'.blobs == s.blobs && s'.markers == s.markers && s'.absent == s.absent
    requires s.used <= s'.used && s.detached <= s'.detached
    ensures ChangesFiles(s, s', t)
  {
  }

  lemma KeepsSameFiles(s: State, s': State, t: TxId)
    requires Inv(s) && Changes(s, s', t) && s'.blobs == s.blobs && s'.markers == s.markers
    requires t in s'.txs ==> TxOk(s', s'.txs[t])
    requires RowsOk(s')
    ensures Kept(s, s', t)
  {
    forall q | q in s'.blobs ensures Accounted(s', q) { assert Accounted(s, q); }
    KeepsInv(s, s', t);
  }

  lemma KeepsPurgeLock(s: State, t: TxId, r: RowId)
    requires Inv(s) && PurgeEnabled(s, t, PurgeLock(r))
    ensures Kept(s, ApplyPurge(s, t, PurgeLock(r)), t)
  {
    var s' := ApplyPurge(s, t, PurgeLock(r));
    assert RowOk(s, s.rows[r]);
    SameRows(s, s', t);
    SameFiles(s, s', t);
    KeepsSpent(s, s', t, s.rows[r].purge.value);
    KeepsRows(s, s', t);
    KeepsSameFiles(s, s', t);
  }

  /** A live row that an open upload has locked is committed, so a query sees it. */
  lemma UnseenMeansQuiet(s: State, p: Path)
    requires Inv(s) && !LiveSomewhere(s.rows, p)
    requires forall t :: t in s.txs && s.txs[t].alive && Uncommitted(s.txs[t]) ==> s.txs[t].token != p
    ensures Quiet(s, p)
  {
    forall t | t in s.txs && s.txs[t].alive ensures !Uses(s.txs[t], p) {
      assert TxOk(s, s.txs[t]);
    }
  }

  lemma KeepsPurgeQuery(s: State, t: TxId)
    requires Inv(s) && PurgeEnabled(s, t, PurgeQuery)
    ensures Kept(s, ApplyPurge(s, t, PurgeQuery), t)
  {
    var s' := ApplyPurge(s, t, PurgeQuery);
    var p := s.txs[t].path;
    assert TxOk(s, s.txs[t]);
    MovesTx(s, s', t, s'.txs[t], 0);
    SameRows(s, s', t);
    SameFiles(s, s', t);
    KeepsSpent(s, s', t, p);
    if !LiveSomewhere(s.rows, p) { UnseenMeansQuiet(s, p); KeepsQuiet(s, s', t, p); }
    KeepsRows(s, s', t);
    KeepsSameFiles(s, s', t);
  }

  lemma KeepsPurgeUnlink(s: State, t: TxId)
    requires Inv(s) && PurgeEnabled(s, t, PurgeUnlink)
    ensures Kept(s, ApplyPurge(s, t, PurgeUnlink), t)
  {
    var s' := ApplyPurge(s, t, PurgeUnlink);
    var p := s.txs[t].path;
    assert TxOk(s, s.txs[t]);
    MovesTx(s, s', t, s'.txs[t], 0);
    SameRows(s, s', t);
    TouchedFiles(s, s', t, p);
    KeepsSpent(s, s', t, p);
    KeepsQuiet(s, s', t, p);
    Keeps(s, s', t, p);
  }

  lemma KeepsPurgeGiveUp(s: State, t: TxId)
    requires Inv(s) && PurgeEnabled(s, t, PurgeGiveUp)
    ensures Kept(s, ApplyPurge(s, t, PurgeGiveUp), t)
  {
    var s' := ApplyPurge(s, t, PurgeGiveUp);
    assert TxOk(s, s.txs[t]);
    MovesTx(s, s', t, s'.txs[t], 0);
    SameRows(s, s', t);
    SameFiles(s, s', t);
    KeepsSpent(s, s', t, s.txs[t].path);
    KeepsRows(s, s', t);
    KeepsSameFiles(s, s', t);
  }

  lemma KeepsPurgeCommit(s: State, t: TxId)
    requires Inv(s) && PurgeEnabled(s, t, PurgeCommit)
    ensures Kept(s, ApplyPurge(s, t, PurgeCommit), t)
  {
    var s' := ApplyPurge(s, t, PurgeCommit);
    assert TxOk(s, s.txs[t]);
    EndsTx(s, s', t);
    if s.txs[t].pstep.PUnlinked? { ForgetsRow(s, s', t); } else { SameRows(s, s', t); }
    SameFiles(s, s', t);
    forall r | r in s'.rows ensures RowOk(s', s'.rows[r]) {
      assert RowOk(s, s.rows[r]);
      OldRowOk(s, s', t, s.rows[r]);
    }
    KeepsSameFiles(s, s', t);
  }

  lemma ForgetsRow(s: State, s': State, t: TxId)
    requires Inv(s) && t in s.txs && s.txs[t].Purge? && s.txs[t].alive && s.txs[t].pstep.PUnlinked?
    requires s.txs[t].row in s.rows
    requires s'.rows == s.rows[s.txs[t].row := s.rows[s.txs[t].row].(purge := None)]
    ensures ChangesRows(s, s', t)
  {
    var i := s.txs[t].row;
    assert TxOk(s, s.txs[t]) && RowOk(s, s.rows[i]);
    forall q: Path | Named(s'.rows, q) ensures Named(s.rows, q) {
      var r :| r in s'.rows && (s'.rows[r].live == Some(q) || s'.rows[r].purge == Some(q));
      assert s.rows[r].live == Some(q) || s.rows[r].purge == Some(q);
    }
    forall q: Path | LiveSomewhere(s'.rows, q) ensures LiveSomewhere(s.rows, q) {
      var r :| r in s'.rows && s'.rows[r].live == Some(q);
      assert s.rows[r].live == Some(q);
    }
    forall q: Path | Named(s.rows, q) ensures Named(s'.rows, q) || Gone(s, q) {
      var r :| r in s.rows && (s.rows[r].live == Some(q) || s.rows[r].purge == Some(q));
      if r != i { assert s'.rows[r] == s.rows[r]; }
    }
  }

  lemma KeepsPurgeStep(s: State, t: TxId, e: PurgeStep)
    requires Inv(s) && PurgeEnabled(s, t, e)
    ensures Kept(s, ApplyPurge(s, t, e), t)
  {
    match e
    case PurgeLock(r) => KeepsPurgeLock(s, t, r);
    case PurgeQuery => KeepsPurgeQuery(s, t);
    case PurgeUnlink => KeepsPurgeUnlink(s, t);
    case PurgeGiveUp => KeepsPurgeGiveUp(s, t);
    case PurgeCommit => KeepsPurgeCommit(s, t);
  }

  // ----- Journal recovery -----

  lemma KeepsRecoverLock(s: State, t: TxId, p: Path)
    requires Inv(s) && RecoverEnabled(s, t, RecoverLock(p))
    ensures Kept(s, ApplyRecover(s, t, RecoverLock(p)), t)
  {
    var s' := ApplyRecover(s, t, RecoverLock(p));
    SameRows(s, s', t);
    SameFiles(s, s', t);
    KeepsRows(s, s', t);
    KeepsSameFiles(s, s', t);
  }

  lemma KeepsRecoverRead(s: State, t: TxId)
    requires Inv(s) && RecoverEnabled(s, t, RecoverRead)
    ensures Kept(s, ApplyRecover(s, t, RecoverRead), t)
  {
    var s' := ApplyRecover(s, t, RecoverRead);
    assert TxOk(s, s.txs[t]);
    if t in s'.txs { MovesTx(s, s', t, s'.txs[t], 0); } else { EndsTx(s, s', t); }
    SameRows(s, s', t);
    SameFiles(s, s', t);
    KeepsRows(s, s', t);
    KeepsSameFiles(s, s', t);
  }

  lemma KeepsRecoverQuery(s: State, t: TxId)
    requires Inv(s) && RecoverEnabled(s, t, RecoverQuery)
    ensures Kept(s, ApplyRecover(s, t, RecoverQuery), t)
  {
    var s' := ApplyRecover(s, t, RecoverQuery);
    var p := s.txs[t].token;
    assert TxOk(s, s.txs[t]);
    MovesTx(s, s', t, s'.txs[t], 0);
    SameRows(s, s', t);
    SameFiles(s, s', t);
    forall u | u in s.txs && Uncommitted(s.txs[u]) && s.txs[u].token == p ensures !s.txs[u].alive && !Named(s.rows, p) {
      assert Apart(s.txs[t], s.txs[u]) && TxOk(s, s.txs[u]);
      assert p in TokenLocks(s.txs[t]);
    }
    if Named(s.rows, p) {
      KeepsSettled(s, s', t, p);
    } else {
      assert forall r :: r in s.rows ==> s.rows[r].live != Some(p);
      UnseenMeansQuiet(s, p);
      KeepsQuiet(s, s', t, p);
    }
    KeepsRows(s, s', t);
    KeepsSameFiles(s, s', t);
  }

  lemma LiveIsNamed(rows: map<RowId, Row>, p: Path)
    ensures LiveSomewhere(rows, p) ==> Named(rows, p)
  {
    if LiveSomewhere(rows, p) {
      var r :| r in rows && rows[r].live == Some(p);
    }
  }

  lemma KeepsRecoverStat(s: State, t: TxId)
    requires Inv(s) && RecoverEnabled(s, t, RecoverStat)
    ensures Kept(s, ApplyRecover(s, t, RecoverStat), t)
  {
    var s' := ApplyRecover(s, t, RecoverStat);
    var p := s.txs[t].token;
    assert TxOk(s, s.txs[t]);
    if t in s'.txs { MovesTx(s, s', t, s'.txs[t], 0); } else { EndsTx(s, s', t); }
    SameRows(s, s', t);
    SameFiles(s, s', t);
    LiveIsNamed(s.rows, p);
    KeepsQuiet(s, s', t, p);
    KeepsRows(s, s', t);
    KeepsSameFiles(s, s', t);
  }

  lemma KeepsRecoverUnlink(s: State, t: TxId)
    requires Inv(s) && RecoverEnabled(s, t, RecoverUnlink)
    ensures Kept(s, ApplyRecover(s, t, RecoverUnlink), t)
  {
    var s' := ApplyRecover(s, t, RecoverUnlink);
    var p := s.txs[t].token;
    assert TxOk(s, s.txs[t]);
    LiveIsNamed(s.rows, p);
    MovesTx(s, s', t, s'.txs[t], 0);
    SameRows(s, s', t);
    TouchedFiles(s, s', t, p);
    KeepsQuiet(s, s', t, p);
    Keeps(s, s', t, p);
  }

  lemma KeepsRecoverClear(s: State, t: TxId)
    requires Inv(s) && RecoverEnabled(s, t, RecoverClear)
    ensures Kept(s, ApplyRecover(s, t, RecoverClear), t)
  {
    var s' := ApplyRecover(s, t, RecoverClear);
    var p := s.txs[t].token;
    assert TxOk(s, s.txs[t]);
    EndsTx(s, s', t);
    DropsSpentMarker(s, s', t, p);
  }

  lemma KeepsRecoverStep(s: State, t: TxId, e: RecoverStep)
    requires Inv(s) && RecoverEnabled(s, t, e)
    ensures Kept(s, ApplyRecover(s, t, e), t)
  {
    match e
    case RecoverLock(p) => KeepsRecoverLock(s, t, p);
    case RecoverRead => KeepsRecoverRead(s, t);
    case RecoverQuery => KeepsRecoverQuery(s, t);
    case RecoverStat => KeepsRecoverStat(s, t);
    case RecoverUnlink => KeepsRecoverUnlink(s, t);
    case RecoverClear => KeepsRecoverClear(s, t);
  }

  // ----- Crashes and lost sessions -----

  lemma KeepsAbort(s: State, t: TxId)
    requires Inv(s) && t in s.txs
    ensures Kept(s, End(s, t), t)
  {
    var s' := End(s, t);
    EndsTx(s, s', t);
    SameRows(s, s', t);
    SameFiles(s, s', t);
    KeepsRows(s, s', t);
    KeepsSameFiles(s, s', t);
  }

  /** What a transaction knows it still knows without its session. */
  lemma LostTxOk(s: State, s': State, t: TxId)
    requires Inv(s) && t in s.txs && s.txs[t].alive && Changes(s, s', t)
    requires s' == s.(txs := s.txs[t := s.txs[t].(alive := false)], detached := s.detached + AtRisk(s.txs[t]))
    ensures TxOk(s', s'.txs[t])
  {
    assert TxOk(s, s.txs[t]);
    match s.txs[t] {
      case Upload(_, p, ph) =>
        if ph.Committed? { KeepsSettled(s, s', t, p); }
        else if HasDest(ph) { KeepsSpent(s, s', t, ph.dest); }
      case Retire(_, _) =>
      case Purge(_, _, p, st) =>
        KeepsSpent(s, s', t, p);
        if st.PClear? || st.PUnlinked? { KeepsQuiet(s, s', t, p); }
      case Recover(_, p, st) =>
        if st.RReferenced? { KeepsSettled(s, s', t, p); }
        if st.RUnnamed? || st.RUnlink? || st.RClear? { LiveIsNamed(s.rows, p); KeepsQuiet(s, s', t, p); }
    }
  }

  lemma KeepsLoseSession(s: State, t: TxId)
    requires Inv(s) && Enabled(s, LoseSession(t))
    ensures Kept(s, Apply(s, LoseSession(t)), t)
  {
    var s' := Apply(s, LoseSession(t));
    MovesTx(s, s', t, s'.txs[t], 0);
    SameRows(s, s', t);
    SameFiles(s, s', t);
    LostTxOk(s, s', t);
    hide Inv, TxOk, ChangesTx, ChangesRows, ChangesFiles;
    KeepsRows(s, s', t);
    KeepsSameFiles(s, s', t);
  }

  /** Every step of every process keeps the invariant. */
  lemma StepKeepsInv(s: State, e: Event)
    requires Inv(s) && Enabled(s, e)
    ensures Kept(s, Apply(s, e), e.t)
  {
    match e
    case UploadEvent(t, up) => KeepsUploadStep(s, t, up);
    case RetireEvent(t, re) =>
      if re.RetireLock? { KeepsRetireLock(s, t, re.row); } else { KeepsRetireCommit(s, t); }
    case PurgeEvent(t, pu) => KeepsPurgeStep(s, t, pu);
    case RecoverEvent(t, rc) => KeepsRecoverStep(s, t, rc);
    case Abort(t) => KeepsAbort(s, t);
    case LoseSession(t) => KeepsLoseSession(s, t);
  }
}
