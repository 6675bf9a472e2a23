/**
 Asset uploads (asset_upload_recovery, forms._store_asset_stream): the journal of
 the attachment uploads with one difference that matters, a lock per content
 that makes the search for an existing asset and the insertion of a new one one
 unit. One step is one statement or one file-system call; a process may lose its
 database session, and with it its locks, and go on touching files.
 */
module AssetUploads {

  type Path = nat
  type Digest = nat
  type RowId = nat
  type TxId = nat

  datatype Asset = Asset(sha: Digest, path: Path)

  datatype Phase =
    | Locked                        // token lock held
    | Marked                        // marker says created: false
    | Opened                        // blob created exclusively
    | Confirmed                     // marker says created: true
    | Written(digest: Digest)       // all chunks in the blob
    | ContentLocked(digest: Digest) // content lock held
    | Existing(digest: Digest)      // an asset with this content was found
    | Absent(digest: Digest)        // none was found
    | Inserted(digest: Digest)      // new row, not yet committed
    | Committed                     // on-commit hook outstanding

  datatype Step = Held | Read(created: bool) | Referenced | Unnamed(created: bool) | Doomed | Cleared

  datatype Tx =
    | Upload(alive: bool, token: Path, phase: Phase)
    | Recover(alive: bool, token: Path, execute: bool, step: Step)

  /**
   `absent` holds the files that legacy rows lacked at the start, `detached` the
   paths that an upload could still create a file at when its session was lost.
   */
  datatype State = State(
    rows: map<RowId, Asset>,
    blobs: map<Path, Digest>,
    markers: map<Path, bool>,
    txs: map<TxId, Tx>,
    used: set<Path>,
    absent: set<Path>,
    detached: set<Path>)

  /** The digest of a file that is still being written. */
  const UNFINISHED: Digest := 0

  predicate Named(rows: map<RowId, Asset>, p: Path) { exists r :: r in rows && rows[r].path == p }

  predicate HasContent(rows: map<RowId, Asset>, d: Digest) { exists r :: r in rows && rows[r].sha == d }

  /** There is an asset with this content, and its file is on disk. */
  predicate HasFile(rows: map<RowId, Asset>, blobs: map<Path, Digest>, d: Digest) {
    exists r :: r in rows && rows[r].sha == d && rows[r].path in blobs
  }

  /** Somebody holds the advisory lock of the token. */
  predicate HoldsToken(tx: Tx, p: Path) {
    tx.alive && tx.token == p && (tx.Upload? ==> !tx.phase.Committed?)
  }

  predicate HoldsContent(tx: Tx, d: Digest) {
    tx.alive && tx.Upload? && (tx.phase.ContentLocked? || tx.phase.Existing? || tx.phase.Absent? || tx.phase.Inserted?) && tx.phase.digest == d
  }

  predicate TokenFree(s: State, p: Path) { forall t :: t in s.txs ==> !HoldsToken(s.txs[t], p) }

  predicate ContentFree(s: State, d: Digest) { forall t :: t in s.txs ==> !HoldsContent(s.txs[t], d) }

  datatype Event =
    | Begin(t: TxId, p: Path)
    | WriteMarker(t: TxId)
    | OpenBlob(t: TxId)
    | ConfirmCreated(t: TxId)
    | WriteChunks(t: TxId, d: Digest)
    | LockContent(t: TxId)
    | FindExisting(t: TxId)
    | Insert(t: TxId)
    | Commit(t: TxId, id: RowId)
    | DropMarker(t: TxId)
    | RecoverLock(t: TxId, p: Path, execute: bool)
    | RecoverRead(t: TxId)
    | RecoverQuery(t: TxId)
    | RecoverStat(t: TxId)
    | RecoverUnlink(t: TxId)
    | RecoverClear(t: TxId)
    | Abort(t: TxId)
    | LoseSession(t: TxId)

  predicate Uploading(s: State, t: TxId) { t in s.txs && s.txs[t].Upload? }

  predicate Recovering(s: State, t: TxId) { t in s.txs && s.txs[t].Recover? }

  /** Where an upload may still create a file. */
  function AtRisk(tx: Tx): set<Path> {
    if tx.Upload? && (tx.phase.Locked? || tx.phase.Marked?) then {tx.token} else {}
  }

  predicate Enabled(s: State, e: Event) {
    match e
    case Begin(t, p) => t !in s.txs && p !in s.used
    case WriteMarker(t) => Uploading(s, t) && s.txs[t].phase.Locked?
    case OpenBlob(t) => Uploading(s, t) && s.txs[t].phase.Marked? && s.txs[t].token !in s.blobs
    case ConfirmCreated(t) => Uploading(s, t) && s.txs[t].phase.Opened?
    case WriteChunks(t, d) => Uploading(s, t) && s.txs[t].phase.Confirmed?
    case LockContent(t) => Uploading(s, t) && s.txs[t].alive && s.txs[t].phase.Written? && ContentFree(s, s.txs[t].phase.digest)
    case FindExisting(t) => Uploading(s, t) && s.txs[t].alive && s.txs[t].phase.ContentLocked?
    case Insert(t) => Uploading(s, t) && s.txs[t].alive && s.txs[t].phase.Absent?
    case Commit(t, id) => Uploading(s, t) && s.txs[t].alive && (s.txs[t].phase.Inserted? || s.txs[t].phase.Existing?) && id !in s.rows
    case DropMarker(t) => Uploading(s, t) && s.txs[t].phase.Committed?
    case RecoverLock(t, p, _) => t !in s.txs && p in s.markers && TokenFree(s, p)
    case RecoverRead(t) => Recovering(s, t) && s.txs[t].step.Held?
    case RecoverQuery(t) => Recovering(s, t) && s.txs[t].alive && s.txs[t].step.Read?
    case RecoverStat(t) => Recovering(s, t) && s.txs[t].step.Unnamed?
    case RecoverUnlink(t) => Recovering(s, t) && s.txs[t].step.Doomed?
    case RecoverClear(t) => Recovering(s, t) && (s.txs[t].step.Referenced? || s.txs[t].step.Cleared?)
    case Abort(t) => t in s.txs
    case LoseSession(t) => t in s.txs && s.txs[t].alive
  }

  function Put(s: State, t: TxId, tx: Tx): State { s.(txs := s.txs[t := tx]) }

  function End(s: State, t: TxId): State { s.(txs := s.txs - {t}) }

  /**
   A recovery that may not write ends where the source reports `referenced` or
   `pending`; an upload that finds an asset whose file is missing is refused.
   */
  function Apply(s: State, e: Event): State
    requires Enabled(s, e)
  {
    match e
    case Begin(t, p) => Put(s, t, Upload(true, p, Locked)).(used := s.used + {p})
    case WriteMarker(t) => Put(s, t, s.txs[t].(phase := Marked)).(markers := s.markers[s.txs[t].token := false])
    case OpenBlob(t) => Put(s, t, s.txs[t].(phase := Opened)).(blobs := s.blobs[s.txs[t].token := UNFINISHED])
    case ConfirmCreated(t) => Put(s, t, s.txs[t].(phase := Confirmed)).(markers := s.markers[s.txs[t].token := true])
    case WriteChunks(t, d) =>
      // A file whose name is already gone is not brought back by writing to it.
      Put(s, t, s.txs[t].(phase := Written(d))).(
        blobs := if s.txs[t].token in s.blobs then s.blobs[s.txs[t].token := d] else s.blobs)
    case LockContent(t) => Put(s, t, s.txs[t].(phase := ContentLocked(s.txs[t].phase.digest)))
    case FindExisting(t) =>
      var d := s.txs[t].phase.digest;
      if !HasContent(s.rows, d) then Put(s, t, s.txs[t].(phase := Absent(d)))
      else if HasFile(s.rows, s.blobs, d) then Put(s, t, s.txs[t].(phase := Existing(d)))
      else End(s, t)
    case Insert(t) => Put(s, t, s.txs[t].(phase := Inserted(s.txs[t].phase.digest)))
    case Commit(t, id) =>
      if s.txs[t].phase.Existing? then End(s, t)
      else Put(s, t, s.txs[t].(phase := Committed)).(rows := s.rows[id := Asset(s.txs[t].phase.digest, s.txs[t].token)])
    case DropMarker(t) => End(s, t).(markers := s.markers - {s.txs[t].token})
    case RecoverLock(t, p, execute) => Put(s, t, Recover(true, p, execute, Held))
    case RecoverRead(t) =>
      if s.txs[t].token in s.markers then Put(s, t, s.txs[t].(step := Read(s.markers[s.txs[t].token]))) else End(s, t)
    case RecoverQuery(t) =>
      if !Named(s.rows, s.txs[t].token) then Put(s, t, s.txs[t].(step := Unnamed(s.txs[t].step.created)))
      else if s.txs[t].execute then Put(s, t, s.txs[t].(step := Referenced))
      else End(s, t)
    case RecoverStat(t) =>
      var there := s.txs[t].token in s.blobs;
      if (there && !s.txs[t].step.created) || !s.txs[t].execute then End(s, t)
      else Put(s, t, s.txs[t].(step := if there then Doomed else Cleared))
    case RecoverUnlink(t) => Put(s, t, s.txs[t].(step := Cleared)).(blobs := s.blobs - {s.txs[t].token})
    case RecoverClear(t) => End(s, t).(markers := s.markers - {s.txs[t].token})
    case Abort(t) => End(s, t)
    case LoseSession(t) => Put(s, t, s.txs[t].(alive := false)).(detached := s.detached + AtRisk(s.txs[t]))
  }

  // ----- The invariant -----

  /** An upload that may still commit its own file. */
  predicate Writing(tx: Tx) { tx.Upload? && tx.alive && !tx.phase.Committed? }

  /** A recovery that has found no row naming its token's path. */
  predicate Past(tx: Tx) { tx.Recover? && (tx.step.Unnamed? || tx.step.Doomed? || tx.step.Cleared?) }

  /** What an upload whose session is intact knows. */
  predicate Intact(rows: map<RowId, Asset>, blobs: map<Path, Digest>, markers: map<Path, bool>, p: Path, ph: Phase) {
    && (ph.Locked? <==> p !in markers)
    && (ph.Locked? || ph.Marked? <==> p !in blobs)
    && (!ph.Locked? && !ph.Marked? && !ph.Opened? && !ph.Confirmed? && !ph.Committed? ==> blobs[p] == ph.digest)
    && (ph.Existing? ==> HasFile(rows, blobs, ph.digest))
    && (ph.Absent? || ph.Inserted? ==> !HasContent(rows, ph.digest))
  }

  ghost predicate Gone(s: State, p: Path) { p in s.blobs ==> p in s.detached }

  ghost predicate TxOk(s: State, tx: Tx) {
    && tx.token in s.used
    && match tx
       case Upload(alive, p, ph) =>
         if ph.Committed? then Named(s.rows, p)
         else !Named(s.rows, p) && if alive then Intact(s.rows, s.blobs, s.markers, p, ph) else AtRisk(tx) <= s.detached
       case Recover(_, p, _, st) =>
         && (st.Referenced? ==> Named(s.rows, p))
         && (Past(tx) ==> !Named(s.rows, p))
         && (st.Cleared? ==> Gone(s, p))
  }

  predicate Apart(a: Tx, b: Tx) {
    && (a.Upload? && b.Upload? ==> a.token != b.token)
    && !(HoldsToken(a, a.token) && HoldsToken(b, a.token))
    && (HoldsContent(a, DigestOf(a)) ==> !HoldsContent(b, DigestOf(a)))
    && (Past(a) && Writing(b) ==> a.token != b.token)
  }

  function DigestOf(tx: Tx): Digest {
    if tx.Upload? && (tx.phase.ContentLocked? || tx.phase.Existing? || tx.phase.Absent? || tx.phase.Inserted?) then tx.phase.digest else 0
  }

  ghost predicate TxsOk(s: State) { forall t :: t in s.txs ==> TxOk(s, s.txs[t]) }

  ghost predicate LocksOk(s: State) { forall t, u :: t in s.txs && u in s.txs && t != u ==> Apart(s.txs[t], s.txs[u]) }

  /** An asset's file holds its content, unless it never had one; no two assets share a content or a file. */
  ghost predicate RowsOk(s: State) {
    && (forall r :: r in s.rows ==>
          && s.rows[r].path in s.used
          && (if s.rows[r].path in s.blobs then s.blobs[s.rows[r].path] == s.rows[r].sha else s.rows[r].path in s.absent))
    && (forall r, q :: r in s.rows && q in s.rows && r != q ==> s.rows[r].sha != s.rows[q].sha && s.rows[r].path != s.rows[q].path)
  }

  /** A file is an asset's or has its marker, or was created by an upload without a session. */
  ghost predicate FilesOk(s: State) {
    && (forall p :: p in s.blobs ==> p in s.used && (Named(s.rows, p) || p in s.markers || p in s.detached))
    && (forall p :: p in s.markers ==> p in s.used)
  }

  ghost predicate Inv(s: State) { TxsOk(s) && LocksOk(s) && RowsOk(s) && FilesOk(s) }

  // ----- A step of one transaction, seen by the others -----

  /** Transaction t and the file p may change; the rows stay, or gain the one t inserted for p. */
  ghost predicate OnlyTouches(s: State, s': State, t: TxId, p: Path) {
    && (forall u :: u != t ==> (u in s'.txs <==> u in s.txs) && (u in s.txs ==> s'.txs[u] == s.txs[u]))
    && (forall q :: q != p ==> (q in s'.blobs <==> q in s.blobs) && (q in s.blobs ==> s'.blobs[q] == s.blobs[q]))
    && (forall q :: q != p ==> (q in s'.markers <==> q in s.markers) && (q in s.markers ==> s'.markers[q] == s.markers[q]))
    && s.used <= s'.used && s.detached <= s'.detached && s'.absent == s.absent
  }

  /** What is at p may change: no upload in progress minds, no asset does, and a file that appears was foreseen. */
  ghost predicate MayTouch(s: State, s': State, t: TxId, p: Path) {
    && (forall u :: u in s.txs && u != t && Writing(s.txs[u]) && s.txs[u].token == p ==> s'.blobs == s.blobs && s'.markers == s.markers)
    && (Named(s.rows, p) ==> (p in s'.blobs <==> p in s.blobs) && (p in s.blobs ==> s'.blobs[p] == s.blobs[p]))
    && (p in s'.blobs && p !in s.blobs ==>
          p in s.detached || forall u :: u in s.txs && u != t && s.txs[u].token == p ==> !Past(s.txs[u]))
  }

  lemma FoundStays(s: State, s': State, t: TxId, p: Path, d: Digest)
    requires OnlyTouches(s, s', t, p) && MayTouch(s, s', t, p) && s'.rows == s.rows && HasFile(s.rows, s.blobs, d)
    ensures HasFile(s'.rows, s'.blobs, d)
  {
    var r :| r in s.rows && s.rows[r].sha == d && s.rows[r].path in s.blobs;
    assert Named(s.rows, s.rows[r].path);
    assert s'.rows[r].path in s'.blobs;
  }

  lemma OthersStay(s: State, s': State, t: TxId, p: Path, u: TxId)
    requires OnlyTouches(s, s', t, p) && MayTouch(s, s', t, p) && s'.rows == s.rows
    requires u in s.txs && u != t && TxOk(s, s.txs[u])
    ensures TxOk(s', s.txs[u])
  {
    match s.txs[u]
    case Upload(alive, q, ph) =>
      if alive && ph.Existing? { FoundStays(s, s', t, p, ph.digest); }
    case Recover(_, q, _, _) =>
  }

  /** A step that leaves the rows alone and touches at most the file at p. */
  lemma QuietStep(s: State, s': State, t: TxId, p: Path)
    requires Inv(s) && OnlyTouches(s, s', t, p) && MayTouch(s, s', t, p) && s'.rows == s.rows
    requires t in s'.txs ==> TxOk(s', s'.txs[t])
    requires t in s'.txs ==> forall u :: u in s.txs && u != t ==> Apart(s'.txs[t], s.txs[u]) && Apart(s.txs[u], s'.txs[t])
    requires p in s'.blobs ==> Named(s.rows, p) || p in s'.markers || p in s'.detached
    requires p in s'.used
    ensures Inv(s')
  {
    hide Intact, Apart, TxOk, MayTouch, HasFile;
    forall u | u in s'.txs ensures TxOk(s', s'.txs[u]) {
      if u != t { OthersStay(s, s', t, p, u); }
    }
    forall u, v | u in s'.txs && v in s'.txs && u != v ensures Apart(s'.txs[u], s'.txs[v]) {
      if u != t && v != t { assert Apart(s.txs[u], s.txs[v]); }
    }
    QuietRows(s, s', t, p);
  }

  lemma QuietRows(s: State, s': State, t: TxId, p: Path)
    requires RowsOk(s) && OnlyTouches(s, s', t, p) && MayTouch(s, s', t, p) && s'.rows == s.rows
    ensures RowsOk(s')
  {
    forall r | r in s'.rows
      ensures if s'.rows[r].path in s'.blobs then s'.blobs[s'.rows[r].path] == s'.rows[r].sha else s'.rows[r].path in s'.absent
    {
      assert Named(s.rows, s.rows[r].path);
    }
  }

  /** Nobody but dead recoveries at their beginning shares the token of an upload in progress. */
  lemma TokenIsOwn(s: State, t: TxId)
    requires LocksOk(s) && TxsOk(s) && t in s.txs && Writing(s.txs[t])
    ensures forall u :: u in s.txs && u != t && s.txs[u].token == s.txs[t].token ==> s.txs[u].Recover? && !Past(s.txs[u])
  {
    forall u | u in s.txs && u != t ensures Apart(s.txs[t], s.txs[u]) && Apart(s.txs[u], s.txs[t]) {}
  }

  /** An upload without a session has its token to itself among uploads. */
  lemma TokenIsNoUploads(s: State, t: TxId)
    requires LocksOk(s) && t in s.txs && s.txs[t].Upload?
    ensures forall u :: u in s.txs && u != t && s.txs[u].token == s.txs[t].token ==> s.txs[u].Recover?
  {
    forall u | u in s.txs && u != t ensures Apart(s.txs[t], s.txs[u]) {}
  }

  /** A recovery past its query meets no upload in progress. */
  lemma NobodyIsWriting(s: State, t: TxId)
    requires LocksOk(s) && TxsOk(s) && t in s.txs && (Past(s.txs[t]) || (s.txs[t].Recover? && s.txs[t].step.Referenced?))
    ensures forall u :: u in s.txs && u != t && s.txs[u].token == s.txs[t].token ==> !Writing(s.txs[u])
  {
    forall u | u in s.txs && u != t && s.txs[u].token == s.txs[t].token ensures !Writing(s.txs[u]) {
      assert Apart(s.txs[t], s.txs[u]) && TxOk(s, s.txs[t]) && TxOk(s, s.txs[u]);
    }
  }

  /** An upload goes on to its next phase, touching only its own file. */
  lemma MovesOn(s: State, s': State, t: TxId, ph: Phase)
    requires Inv(s) && t in s.txs && s.txs[t].Upload? && !s.txs[t].phase.Committed? && !ph.Committed?
    requires OnlyTouches(s, s', t, s.txs[t].token) && s'.rows == s.rows && s'.used == s.used && s'.detached == s.detached
    requires t in s'.txs && s'.txs[t] == Upload(s.txs[t].alive, s.txs[t].token, ph)
    requires s.txs[t].alive ==> Intact(s'.rows, s'.blobs, s'.markers, s.txs[t].token, ph)
    requires AtRisk(s'.txs[t]) <= AtRisk(s.txs[t])
    requires s.txs[t].token in s'.blobs && s.txs[t].token !in s.blobs ==> s.txs[t].phase.Marked?
    requires s.txs[t].token in s.markers ==> s.txs[t].token in s'.markers
    requires forall d :: HoldsContent(s'.txs[t], d) ==> HoldsContent(s.txs[t], d) || ContentFree(s, d)
    ensures Inv(s')
  {
    var p := s.txs[t].token;
    TokenIsNoUploads(s, t);
    assert TxOk(s, s.txs[t]);
    MovesApart(s, t, s'.txs[t]);
    assert MayTouch(s, s', t, p) by {
      if s.txs[t].alive { TokenIsOwn(s, t); }
      hide Intact, RowsOk;
    }
    assert p in s'.blobs ==> Named(s.rows, p) || p in s'.markers || p in s'.detached by {
      if p in s'.blobs && p !in s.blobs && s.txs[t].alive { assert p in s.markers; }
      hide LocksOk, RowsOk;
    }
    hide Apart, LocksOk, RowsOk, MayTouch, FilesOk, TxsOk, HasFile;
    QuietStep(s, s', t, p);
  }

  lemma MovesApart(s: State, t: TxId, tx: Tx)
    requires LocksOk(s) && t in s.txs && s.txs[t].Upload? && !s.txs[t].phase.Committed?
    requires tx.Upload? && tx.token == s.txs[t].token && tx.alive == s.txs[t].alive && !tx.phase.Committed?
    requires forall d :: HoldsContent(tx, d) ==> HoldsContent(s.txs[t], d) || ContentFree(s, d)
    ensures forall u :: u in s.txs && u != t ==> Apart(tx, s.txs[u]) && Apart(s.txs[u], tx)
  {
    forall u | u in s.txs && u != t ensures Apart(tx, s.txs[u]) && Apart(s.txs[u], tx) {
      assert Apart(s.txs[t], s.txs[u]) && Apart(s.txs[u], s.txs[t]);
    }
  }

  lemma EndsQuietly(s: State, t: TxId)
    requires Inv(s) && t in s.txs
    ensures Inv(End(s, t))
  {
    hide Intact, Apart;
    forall u | u in s.txs && u != t ensures TxOk(End(s, t), s.txs[u]) { assert TxOk(s, s.txs[u]); }
  }

  // ----- Steps -----

  lemma KeepsBegin(s: State, t: TxId, p: Path)
    requires Inv(s) && Enabled(s, Begin(t, p))
    ensures Inv(Apply(s, Begin(t, p)))
  {
    var s' := Apply(s, Begin(t, p));
    assert !Named(s.rows, p);
    forall u | u in s.txs ensures s.txs[u].token != p { assert TxOk(s, s.txs[u]); }
    QuietStep(s, s', t, p);
  }

  lemma KeepsWriteMarker(s: State, t: TxId)
    requires Inv(s) && Enabled(s, WriteMarker(t))
    ensures Inv(Apply(s, WriteMarker(t)))
  {
    assert TxOk(s, s.txs[t]);
    hide LocksOk, RowsOk, FilesOk, TxsOk;
    MovesOn(s, Apply(s, WriteMarker(t)), t, Marked);
  }

  lemma KeepsOpenBlob(s: State, t: TxId)
    requires Inv(s) && Enabled(s, OpenBlob(t))
    ensures Inv(Apply(s, OpenBlob(t)))
  {
    assert TxOk(s, s.txs[t]);
    hide LocksOk, RowsOk, FilesOk, TxsOk;
    MovesOn(s, Apply(s, OpenBlob(t)), t, Opened);
  }

  lemma KeepsConfirmCreated(s: State, t: TxId)
    requires Inv(s) && Enabled(s, ConfirmCreated(t))
    ensures Inv(Apply(s, ConfirmCreated(t)))
  {
    assert TxOk(s, s.txs[t]);
    hide LocksOk, RowsOk, FilesOk, TxsOk;
    MovesOn(s, Apply(s, ConfirmCreated(t)), t, Confirmed);
  }

  lemma KeepsWriteChunks(s: State, t: TxId, d: Digest)
    requires Inv(s) && Enabled(s, WriteChunks(t, d))
    ensures Inv(Apply(s, WriteChunks(t, d)))
  {
    assert TxOk(s, s.txs[t]);
    hide LocksOk, RowsOk, FilesOk, TxsOk;
    MovesOn(s, Apply(s, WriteChunks(t, d)), t, Written(d));
  }

  lemma KeepsLockContent(s: State, t: TxId)
    requires Inv(s) && Enabled(s, LockContent(t))
    ensures Inv(Apply(s, LockContent(t)))
  {
    assert TxOk(s, s.txs[t]);
    hide LocksOk, RowsOk, FilesOk, TxsOk;
    MovesOn(s, Apply(s, LockContent(t)), t, ContentLocked(s.txs[t].phase.digest));
  }

  lemma KeepsInsert(s: State, t: TxId)
    requires Inv(s) && Enabled(s, Insert(t))
    ensures Inv(Apply(s, Insert(t)))
  {
    assert TxOk(s, s.txs[t]);
    hide LocksOk, RowsOk, FilesOk, TxsOk;
    MovesOn(s, Apply(s, Insert(t)), t, Inserted(s.txs[t].phase.digest));
  }

  lemma KeepsFinding(s: State, t: TxId, d: Digest, ph: Phase)
    requires Inv(s) && Uploading(s, t) && s.txs[t].alive && s.txs[t].phase == ContentLocked(d)
    requires (ph == Existing(d) && HasFile(s.rows, s.blobs, d)) || (ph == Absent(d) && !HasContent(s.rows, d))
    ensures Inv(Put(s, t, Upload(true, s.txs[t].token, ph)))
  {
    assert TxOk(s, s.txs[t]);
    hide LocksOk, RowsOk, FilesOk, TxsOk, HasContent, HasFile, Named, ContentFree;
    MovesOn(s, Put(s, t, Upload(true, s.txs[t].token, ph)), t, ph);
  }

  lemma KeepsFindExisting(s: State, t: TxId)
    requires Inv(s) && Enabled(s, FindExisting(t))
    ensures Inv(Apply(s, FindExisting(t)))
  {
    var d := s.txs[t].phase.digest;
    hide Inv, HasContent, HasFile;
    if !HasContent(s.rows, d) {
      KeepsFinding(s, t, d, Absent(d));
    } else if HasFile(s.rows, s.blobs, d) {
      KeepsFinding(s, t, d, Existing(d));
    } else {
      EndsQuietly(s, t);
    }
  }

  lemma KeepsCommit(s: State, t: TxId, id: RowId)
    requires Inv(s) && Enabled(s, Commit(t, id))
    ensures Inv(Apply(s, Commit(t, id)))
  {
    var s' := Apply(s, Commit(t, id));
    var p, d := s.txs[t].token, s.txs[t].phase.digest;
    assert TxOk(s, s.txs[t]);
    if s.txs[t].phase.Existing? {
      EndsQuietly(s, t);
    } else {
      assert s'.rows[id].path == p && s'.rows[id].sha == d;
      forall q ensures Named(s'.rows, q) <==> Named(s.rows, q) || q == p { NamedMore(s.rows, id, Asset(d, p), q); }
      forall c ensures HasContent(s'.rows, c) <==> HasContent(s.rows, c) || c == d { ContentMore(s.rows, id, Asset(d, p), c); }
      forall c | HasFile(s.rows, s.blobs, c) ensures HasFile(s'.rows, s.blobs, c) { FoundMore(s.rows, s.blobs, id, Asset(d, p), c); }
      CommitOthers(s, s', t, p, d);
      CommitRows(s, s', t, id);
      assert FilesOk(s');
      assert LocksOk(s') by { CommitLocks(s, t); }
    }
  }

  lemma NamedMore(rows: map<RowId, Asset>, id: RowId, a: Asset, q: Path)
    requires id !in rows
    ensures Named(rows[id := a], q) <==> Named(rows, q) || q == a.path
  {
    if Named(rows, q) { var r :| r in rows && rows[r].path == q; assert rows[id := a][r].path == q; }
    assert rows[id := a][id] == a;
  }

  lemma ContentMore(rows: map<RowId, Asset>, id: RowId, a: Asset, c: Digest)
    requires id !in rows
    ensures HasContent(rows[id := a], c) <==> HasContent(rows, c) || c == a.sha
  {
    if HasContent(rows, c) { var r :| r in rows && rows[r].sha == c; assert rows[id := a][r].sha == c; }
    assert rows[id := a][id] == a;
  }

  lemma FoundMore(rows: map<RowId, Asset>, blobs: map<Path, Digest>, id: RowId, a: Asset, c: Digest)
    requires id !in rows && HasFile(rows, blobs, c)
    ensures HasFile(rows[id := a], blobs, c)
  {
    var r :| r in rows && rows[r].sha == c && rows[r].path in blobs;
    assert rows[id := a][r].sha == c && rows[id := a][r].path in blobs;
  }

  lemma CommitOthers(s: State, s': State, t: TxId, p: Path, d: Digest)
    requires Inv(s) && t in s.txs && s.txs[t] == Upload(true, p, Inserted(d)) && s'.txs == s.txs[t := Upload(true, p, Committed)]
    requires s'.blobs == s.blobs && s'.markers == s.markers && s'.used == s.used && s'.detached == s.detached
    requires forall c :: HasFile(s.rows, s.blobs, c) ==> HasFile(s'.rows, s.blobs, c)
    requires forall q :: Named(s'.rows, q) <==> Named(s.rows, q) || q == p
    requires forall c :: HasContent(s'.rows, c) <==> HasContent(s.rows, c) || c == d
    ensures TxsOk(s')
  {
    TokenIsOwn(s, t);
    assert TxOk(s, s.txs[t]);
    forall u | u in s'.txs ensures TxOk(s', s'.txs[u]) {
      if u != t {
        assert TxOk(s, s.txs[u]) && Apart(s.txs[t], s.txs[u]);
      }
    }
  }

  lemma CommitRows(s: State, s': State, t: TxId, id: RowId)
    requires Inv(s) && t in s.txs && Writing(s.txs[t]) && s.txs[t].phase.Inserted? && id !in s.rows
    requires s'.rows == s.rows[id := Asset(s.txs[t].phase.digest, s.txs[t].token)] && s'.blobs == s.blobs && s'.used == s.used
    requires s'.absent == s.absent
    ensures RowsOk(s')
  {
    assert TxOk(s, s.txs[t]);
    forall r | r in s.rows ensures s.rows[r].sha != s.txs[t].phase.digest && s.rows[r].path != s.txs[t].token {
      assert HasContent(s.rows, s.rows[r].sha) && Named(s.rows, s.rows[r].path);
    }
  }

  lemma CommitLocks(s: State, t: TxId)
    requires LocksOk(s) && t in s.txs && s.txs[t].Upload?
    ensures LocksOk(Put(s, t, s.txs[t].(phase := Committed)))
  {
    forall u | u in s.txs && u != t ensures Apart(s.txs[t].(phase := Committed), s.txs[u]) && Apart(s.txs[u], s.txs[t].(phase := Committed)) {
      assert Apart(s.txs[t], s.txs[u]) && Apart(s.txs[u], s.txs[t]);
    }
  }

  /** The marker of a file that belongs to an asset can go. */
  lemma MarkerGoes(s: State, p: Path)
    requires Inv(s) && Named(s.rows, p)
    ensures Inv(s.(markers := s.markers - {p}))
  {
    hide Apart, HasContent;
    var s' := s.(markers := s.markers - {p});
    forall u | u in s'.txs ensures TxOk(s', s'.txs[u]) { assert TxOk(s, s.txs[u]); }
  }

  lemma KeepsDropMarker(s: State, t: TxId)
    requires Inv(s) && Enabled(s, DropMarker(t))
    ensures Inv(Apply(s, DropMarker(t)))
  {
    assert TxOk(s, s.txs[t]);
    hide Inv, TxOk;
    EndsQuietly(s, t);
    MarkerGoes(End(s, t), s.txs[t].token);
  }

  lemma KeepsRecoverLock(s: State, t: TxId, p: Path, execute: bool)
    requires Inv(s) && Enabled(s, RecoverLock(t, p, execute))
    ensures Inv(Apply(s, RecoverLock(t, p, execute)))
  {
    QuietStep(s, Apply(s, RecoverLock(t, p, execute)), t, p);
  }

  /** A recovery that only looks: it goes on to its next step, or ends. */
  lemma Looks(s: State, s': State, t: TxId)
    requires Inv(s) && t in s.txs && s.txs[t].Recover?
    requires s' == End(s, t)
             || (t in s'.txs && s' == Put(s, t, s'.txs[t]) && s'.txs[t].Recover? && s'.txs[t].token == s.txs[t].token
                 && s'.txs[t].alive == s.txs[t].alive && TxOk(s', s'.txs[t]) && (Past(s'.txs[t]) ==> Past(s.txs[t]) || s.txs[t].alive))
    ensures Inv(s')
  {
    if s' == End(s, t) {
      EndsQuietly(s, t);
    } else {
      forall u | u in s.txs && u != t ensures Apart(s'.txs[t], s.txs[u]) && Apart(s.txs[u], s'.txs[t]) {
        assert Apart(s.txs[t], s.txs[u]) && Apart(s.txs[u], s.txs[t]);
      }
      assert TxOk(s, s.txs[t]);
      hide LocksOk, RowsOk, TxsOk, Apart, TxOk;
      QuietStep(s, s', t, s.txs[t].token);
    }
  }

  lemma KeepsRecoverRead(s: State, t: TxId)
    requires Inv(s) && Enabled(s, RecoverRead(t))
    ensures Inv(Apply(s, RecoverRead(t)))
  {
    assert TxOk(s, s.txs[t]);
    hide LocksOk, RowsOk, FilesOk, TxsOk;
    Looks(s, Apply(s, RecoverRead(t)), t);
  }

  lemma KeepsRecoverQuery(s: State, t: TxId)
    requires Inv(s) && Enabled(s, RecoverQuery(t))
    ensures Inv(Apply(s, RecoverQuery(t)))
  {
    assert TxOk(s, s.txs[t]);
    hide LocksOk, RowsOk, FilesOk, TxsOk;
    Looks(s, Apply(s, RecoverQuery(t)), t);
  }

  lemma KeepsRecoverStat(s: State, t: TxId)
    requires Inv(s) && Enabled(s, RecoverStat(t))
    ensures Inv(Apply(s, RecoverStat(t)))
  {
    assert TxOk(s, s.txs[t]);
    hide LocksOk, RowsOk, FilesOk, TxsOk;
    Looks(s, Apply(s, RecoverStat(t)), t);
  }

  /** A recovery past its query stays apart from everybody at its next step. */
  lemma StaysApart(s: State, t: TxId, tx: Tx)
    requires LocksOk(s) && t in s.txs && Past(s.txs[t]) && tx.Recover? && tx.token == s.txs[t].token && tx.alive == s.txs[t].alive
    ensures forall u :: u in s.txs && u != t ==> Apart(tx, s.txs[u]) && Apart(s.txs[u], tx)
  {
    forall u | u in s.txs && u != t ensures Apart(tx, s.txs[u]) && Apart(s.txs[u], tx) {
      assert Apart(s.txs[t], s.txs[u]) && Apart(s.txs[u], s.txs[t]);
    }
  }

  lemma KeepsRecoverUnlink(s: State, t: TxId)
    requires Inv(s) && Enabled(s, RecoverUnlink(t))
    ensures Inv(Apply(s, RecoverUnlink(t)))
  {
    var s' := Apply(s, RecoverUnlink(t));
    assert TxOk(s, s.txs[t]);
    NobodyIsWriting(s, t);
    StaysApart(s, t, s'.txs[t]);
    hide LocksOk, RowsOk, TxsOk, Apart, FilesOk;
    QuietStep(s, s', t, s.txs[t].token);
  }

  lemma KeepsRecoverClear(s: State, t: TxId)
    requires Inv(s) && Enabled(s, RecoverClear(t))
    ensures Inv(Apply(s, RecoverClear(t)))
  {
    var s' := Apply(s, RecoverClear(t));
    assert TxOk(s, s.txs[t]);
    NobodyIsWriting(s, t);
    hide LocksOk, RowsOk, TxsOk, Apart, FilesOk;
    QuietStep(s, s', t, s.txs[t].token);
  }

  /** Without its session a transaction still knows what it knew. */
  lemma LostTxOk(s: State, t: TxId)
    requires Inv(s) && t in s.txs && s.txs[t].alive
    ensures TxOk(Apply(s, LoseSession(t)), s.txs[t].(alive := false))
  {
    assert TxOk(s, s.txs[t]);
  }

  lemma LostStaysApart(s: State, t: TxId)
    requires LocksOk(s) && t in s.txs
    ensures forall u :: u in s.txs && u != t ==> Apart(s.txs[t].(alive := false), s.txs[u]) && Apart(s.txs[u], s.txs[t].(alive := false))
  {
    forall u | u in s.txs && u != t
      ensures Apart(s.txs[t].(alive := false), s.txs[u]) && Apart(s.txs[u], s.txs[t].(alive := false))
    {
      assert Apart(s.txs[t], s.txs[u]) && Apart(s.txs[u], s.txs[t]);
    }
  }

  lemma KeepsLoseSession(s: State, t: TxId)
    requires Inv(s) && Enabled(s, LoseSession(t))
    ensures Inv(Apply(s, LoseSession(t)))
  {
    var s' := Apply(s, LoseSession(t));
    LostTxOk(s, t);
    LostStaysApart(s, t);
    assert TxOk(s, s.txs[t]);
    hide LocksOk, RowsOk, TxsOk, Apart, Intact;
    QuietStep(s, s', t, s.txs[t].token);
  }

  /** Every step keeps the invariant. */
  lemma StepKeepsInv(s: State, e: Event)
    requires Inv(s) && Enabled(s, e)
    ensures Inv(Apply(s, e))
  {
    hide Inv;
    match e
    case Begin(t, p) => KeepsBegin(s, t, p);
    case Commit(t, id) => KeepsCommit(s, t, id);
    case DropMarker(t) => KeepsDropMarker(s, t);
    case RecoverLock(t, p, execute) => KeepsRecoverLock(s, t, p, execute);
    case RecoverRead(t) => KeepsRecoverRead(s, t);
    case RecoverQuery(t) => KeepsRecoverQuery(s, t);
    case RecoverStat(t) => KeepsRecoverStat(s, t);
    case RecoverUnlink(t) => KeepsRecoverUnlink(s, t);
    case RecoverClear(t) => KeepsRecoverClear(s, t);
    case Abort(t) => EndsQuietly(s, t);
    case WriteMarker(t) => KeepsWriteMarker(s, t);
    case OpenBlob(t) => KeepsOpenBlob(s, t);
    case ConfirmCreated(t) => KeepsConfirmCreated(s, t);
    case WriteChunks(t, d) => KeepsWriteChunks(s, t, d);
    case LockContent(t) => KeepsLockContent(s, t);
    case FindExisting(t) => KeepsFindExisting(s, t);
    case Insert(t) => KeepsInsert(s, t);
    case LoseSession(t) => KeepsLoseSession(s, t);
  }

  // ----- Whole runs -----

  predicate Possible(s: State, es: seq<Event>)
    decreases |es|
  {
    es == [] || (Enabled(s, es[0]) && Possible(Apply(s, es[0]), es[1..]))
  }

  function After(s: State, es: seq<Event>): State
    requires Possible(s, es)
    decreases |es|
  {
    if es == [] then s else After(Apply(s, es[0]), es[1..])
  }

  lemma {:induction false} RunKeepsInv(s: State, es: seq<Event>)
    requires Inv(s) && Possible(s, es)
    ensures Inv(After(s, es))
    decreases |es|
  {
    hide Inv, Enabled, Apply;
    if es != [] {
      StepKeepsInv(s, es[0]);
      RunKeepsInv(Apply(s, es[0]), es[1..]);
    }
  }

  /** Nothing is running, no session is lost, and every file is accounted for; an asset may lack its file. */
  ghost predicate Start(s: State) {
    s.txs == map[] && s.detached == {} && RowsOk(s) && FilesOk(s)
  }

  lemma {:induction false} AbsentIsFixed(s: State, es: seq<Event>)
    requires Possible(s, es)
    ensures After(s, es).absent == s.absent
    decreases |es|
  {
    if es != [] { AbsentIsFixed(Apply(s, es[0]), es[1..]); }
  }

  /** However uploads of one content race, at most one asset comes to hold it; its file holds that content, unless it lacked one at the start. */
  lemma OneAssetPerContent(s0: State, es: seq<Event>, r: RowId, q: RowId)
    requires Start(s0) && Possible(s0, es) && r in After(s0, es).rows && q in After(s0, es).rows
    ensures var s := After(s0, es);
            && (s.rows[r].sha == s.rows[q].sha ==> r == q)
            && (if s.rows[r].path in s.blobs then s.blobs[s.rows[r].path] == s.rows[r].sha else s.rows[r].path in s0.absent)
  {
    RunKeepsInv(s0, es);
    AbsentIsFixed(s0, es);
  }

  lemma OnlyRecoveryUnlinks(s: State, e: Event, p: Path)
    requires Enabled(s, e) && p in s.blobs && p !in Apply(s, e).blobs
    ensures e.RecoverUnlink? && s.txs[e.t].token == p
  {
  }

  lemma UnlinkIsSafe(s: State, t: TxId)
    requires Inv(s) && Enabled(s, RecoverUnlink(t))
    ensures !Named(s.rows, s.txs[t].token) && forall u :: u in s.txs && Writing(s.txs[u]) ==> s.txs[u].token != s.txs[t].token
  {
    assert TxOk(s, s.txs[t]);
    NobodyIsWriting(s, t);
  }

  /** A file that goes away belongs to no asset and to no upload that could still commit. */
  lemma UnlinksAreSafe(s0: State, es: seq<Event>, e: Event, p: Path)
    requires Start(s0) && Possible(s0, es) && Enabled(After(s0, es), e)
    requires p in After(s0, es).blobs && p !in Apply(After(s0, es), e).blobs
    ensures var s := After(s0, es);
            !Named(s.rows, p) && forall t :: t in s.txs && Writing(s.txs[t]) ==> s.txs[t].token != p
  {
    RunKeepsInv(s0, es);
    OnlyRecoveryUnlinks(After(s0, es), e, p);
    hide Inv, Apply, Possible, After, Start;
    UnlinkIsSafe(After(s0, es), e.t);
  }

  /** Whoever is told of an existing asset is told of one that is there and holds the uploaded content. */
  lemma FoundAssetIsThere(s0: State, es: seq<Event>, t: TxId)
    requires Start(s0) && Possible(s0, es) && t in After(s0, es).txs
    requires Writing(After(s0, es).txs[t]) && After(s0, es).txs[t].phase.Existing?
    ensures var s := After(s0, es);
            exists r :: r in s.rows && s.rows[r].sha == s.txs[t].phase.digest && s.rows[r].path in s.blobs && s.blobs[s.rows[r].path] == s.txs[t].phase.digest
  {
    RunKeepsInv(s0, es);
    var s := After(s0, es);
    assert TxOk(s, s.txs[t]);
    var r :| r in s.rows && s.rows[r].sha == s.txs[t].phase.digest && s.rows[r].path in s.blobs;
  }

  // ----- No silent orphan -----

  ghost predicate Orphan(s: State, p: Path) {
    p in s.blobs && !Named(s.rows, p) && p !in s.markers
  }

  predicate KeepsSessions(es: seq<Event>) {
    forall i :: 0 <= i < |es| ==> !es[i].LoseSession?
  }

  /** Somewhere in the run, an upload that could still create a file at p loses its session. */
  ghost predicate Risked(s: State, es: seq<Event>, p: Path)
    requires Possible(s, es)
    decreases |es|
  {
    && es != []
    && ((es[0].LoseSession? && p in AtRisk(s.txs[es[0].t])) || Risked(Apply(s, es[0]), es[1..], p))
  }

  lemma {:induction false} DetachedWereRisked(s: State, es: seq<Event>, p: Path)
    requires Possible(s, es)
    ensures p in After(s, es).detached <==> p in s.detached || Risked(s, es, p)
    decreases |es|
  {
    if es != [] {
      DetachedWereRisked(Apply(s, es[0]), es[1..], p);
    }
  }

  lemma {:induction false} KeptSessionsRiskNothing(s: State, es: seq<Event>, p: Path)
    requires Possible(s, es) && KeepsSessions(es)
    ensures !Risked(s, es, p)
    decreases |es|
  {
    if es != [] {
      assert !es[0].LoseSession?;
      KeptSessionsRiskNothing(Apply(s, es[0]), es[1..], p);
    }
  }

  /** At every crash point each file is an asset's, still has its marker, or is where an upload could still create one when it lost its session. */
  lemma OrphansWereRisked(s0: State, es: seq<Event>, p: Path)
    requires Start(s0) && Possible(s0, es) && Orphan(After(s0, es), p)
    ensures Risked(s0, es, p)
  {
    RunKeepsInv(s0, es);
    DetachedWereRisked(s0, es, p);
  }

  /** So no file is a silent orphan while sessions survive. */
  lemma NoSilentOrphan(s0: State, es: seq<Event>, p: Path)
    requires Start(s0) && Possible(s0, es) && KeepsSessions(es)
    ensures !Orphan(After(s0, es), p)
  {
    KeptSessionsRiskNothing(s0, es, p);
    if Orphan(After(s0, es), p) { OrphansWereRisked(s0, es, p); }
  }
}
