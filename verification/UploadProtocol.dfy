/**
 Private attachment uploads, their crash journal, logical retirement and the
 two garbage collectors (journal recovery and retirement purge), as a step
 machine. One step is one statement that another process can observe: a row
 lock, a query, a commit, or a single file-system call.

 Transactions run at READ COMMITTED: a query sees exactly the committed rows,
 and row and advisory locks are released when the transaction ends. A process
 may die at any step, and a database session may be lost while its process
 lives on and keeps touching files.
 */
module UploadProtocol {
  import opened Wrappers

  // An upload token determines its storage path, so one number names both.
  type Path = nat
  // SHA-256 is taken as injective, so a digest (with its site) names the bytes.
  type Digest = nat
  type RowId = nat
  type TxId = nat

  /** An attachment row; None is the empty string of the source's columns. */
  datatype Row = Row(sha: Digest, live: Option<Path>, purge: Option<Path>)

  datatype UploadPhase =
    | Locked                                            // token lock held
    | Marked                                            // marker says created: false
    | Opened                                            // blob created exclusively
    | Confirmed                                         // marker says created: true
    | Written(digest: Digest)                           // all chunks in the blob
    | Adopting(digest: Digest, row: RowId, dest: Path)  // a row with the same content is locked
    | Adopted(digest: Digest, row: RowId, dest: Path)   // and its file is on disk
    | SharedInserted(digest: Digest, row: RowId, dest: Path)
    | SharedDropped(digest: Digest, row: RowId, dest: Path)
    | SharedCleared(digest: Digest, row: RowId, dest: Path)
    | Inserted(digest: Digest)                          // new row for the own blob
    | Committed                                         // on-commit hook outstanding
    | Failed
    | FailedDropped
    | FailedCleared

  datatype PurgePhase = PLocked | PClear | PKept | PUnlinked

  datatype RecoverPhase =
    | RLocked | RRead(created: bool) | RReferenced | RUnnamed(created: bool) | RUnlink | RClear

  datatype Tx =
    | Upload(alive: bool, token: Path, phase: UploadPhase)
    | Retire(alive: bool, rows: set<RowId>)
    | Purge(alive: bool, row: RowId, path: Path, pstep: PurgePhase)
    | Recover(alive: bool, token: Path, rstep: RecoverPhase)

  /**
   `blobs` maps a path to the digest of the file there (None while it is still
   being written), `markers` to the journal's `created` flag. `used` holds every
   path ever named or generated, `absent` the files that legacy rows lacked at
   the start. `detached` records the paths that an upload could still create a
   file at when its session was lost.
   */
  datatype State = State(
    rows: map<RowId, Row>,
    blobs: map<Path, Option<Digest>>,
    markers: map<Path, bool>,
    txs: map<TxId, Tx>,
    used: set<Path>,
    absent: set<Path>,
    detached: set<Path>)

  // ----- Who names a path, who holds a lock -----

  ghost predicate Named(rows: map<RowId, Row>, p: Path) {
    exists r :: r in rows && (rows[r].live == Some(p) || rows[r].purge == Some(p))
  }

  ghost predicate LiveSomewhere(rows: map<RowId, Row>, p: Path) {
    exists r :: r in rows && rows[r].live == Some(p)
  }

  predicate HasDest(ph: UploadPhase) {
    ph.Adopting? || ph.Adopted? || ph.SharedInserted? || ph.SharedDropped? || ph.SharedCleared?
  }

  predicate Uncommitted(tx: Tx) {
    tx.Upload? && !tx.phase.Committed?
  }

  predicate Uses(tx: Tx, p: Path) {
    Uncommitted(tx) && (tx.token == p || (HasDest(tx.phase) && tx.phase.dest == p))
  }

  /** The transaction could still commit a row whose live path is p. */
  predicate CouldCommit(tx: Tx, p: Path) {
    && Uncommitted(tx) && tx.alive
    && !tx.phase.Failed? && !tx.phase.FailedDropped? && !tx.phase.FailedCleared?
    && p == (if HasDest(tx.phase) then tx.phase.dest else tx.token)
  }

  function RowLocks(tx: Tx): set<RowId> {
    if !tx.alive then {}
    else match tx
      case Upload(_, _, ph) => if HasDest(ph) then {ph.row} else {}
      case Retire(_, rows) => rows
      case Purge(_, r, _, _) => {r}
      case Recover(_, _, _) => {}
  }

  function TokenLocks(tx: Tx): set<Path> {
    if !tx.alive then {}
    else match tx
      case Upload(_, p, ph) => if ph.Committed? then {} else {p}
      case Recover(_, p, _) => {p}
      case _ => {}
  }

  ghost predicate RowFree(s: State, r: RowId) {
    forall t :: t in s.txs ==> r !in RowLocks(s.txs[t])
  }

  ghost predicate TokenFree(s: State, p: Path) {
    forall t :: t in s.txs ==> p !in TokenLocks(s.txs[t])
  }

  // ----- Steps -----

  /** One statement of an upload (crm_files.store_crm_attachment and the journal). */
  datatype UploadStep =
    | Begin(newToken: Path)
    | WriteMarker
    | OpenBlob
    | ConfirmCreated
    | WriteChunks(bytes: Digest)
    | LockShared(shared: RowId)
    | RestoreShared
    | InsertShared
    | InsertOwn
    | DropTemp
    | DropMarker
    | Commit(id: RowId)
    | Fail

  datatype RetireStep = RetireLock(row: RowId) | RetireCommit

  datatype PurgeStep = PurgeLock(row: RowId) | PurgeQuery | PurgeUnlink | PurgeGiveUp | PurgeCommit

  datatype RecoverStep =
    | RecoverLock(token: Path) | RecoverRead | RecoverQuery | RecoverStat | RecoverUnlink | RecoverClear

  /** Abort is a rollback or the death of the process; files stay as they are. */
  datatype Event =
    | UploadEvent(t: TxId, up: UploadStep)
    | RetireEvent(t: TxId, re: RetireStep)
    | PurgeEvent(t: TxId, pu: PurgeStep)
    | RecoverEvent(t: TxId, rc: RecoverStep)
    | Abort(t: TxId)
    | LoseSession(t: TxId)

  ghost predicate UploadEnabled(s: State, t: TxId, e: UploadStep) {
    if e.Begin? then t !in s.txs && e.newToken !in s.used
    else
      && t in s.txs && s.txs[t].Upload?
      && var tx := s.txs[t];
         var ph := tx.phase;
         match e
         case Begin(_) => false
         case WriteMarker => ph.Locked?
         case OpenBlob => ph.Marked? && tx.token !in s.blobs
         case ConfirmCreated => ph.Opened?
         case WriteChunks(_) => ph.Confirmed?
         case LockShared(r) =>
           && tx.alive && ph.Written?
           && r in s.rows && s.rows[r].live.Some? && s.rows[r].sha == ph.digest && RowFree(s, r)
         case RestoreShared => ph.Adopting? && (ph.dest in s.blobs || tx.token in s.blobs)
         case InsertShared => tx.alive && ph.Adopted?
         case InsertOwn => tx.alive && ph.Written?
         case DropTemp => ph.SharedInserted? || ph.Failed?
         case DropMarker => ph.SharedDropped? || ph.FailedDropped? || ph.Committed?
         case Commit(id) => tx.alive && (ph.Inserted? || ph.SharedCleared?) && id !in s.rows
         case Fail => ph.Marked? || ph.Opened? || ph.Confirmed? || ph.Written? || ph.Adopting? || ph.Adopted?
  }

  ghost predicate RetireEnabled(s: State, t: TxId, e: RetireStep) {
    match e
    case RetireLock(r) =>
      && r in s.rows && s.rows[r].live.Some? && RowFree(s, r)
      && (t in s.txs ==> s.txs[t].Retire? && s.txs[t].alive)
    case RetireCommit => t in s.txs && s.txs[t].Retire? && s.txs[t].alive
  }

  ghost predicate PurgeEnabled(s: State, t: TxId, e: PurgeStep) {
    if e.PurgeLock? then t !in s.txs && e.row in s.rows && s.rows[e.row].purge.Some? && RowFree(s, e.row)
    else
      && t in s.txs && s.txs[t].Purge?
      && var tx := s.txs[t];
         match e
         case PurgeLock(_) => false
         case PurgeQuery => tx.alive && tx.pstep.PLocked?
         case PurgeUnlink => tx.pstep.PClear?
         case PurgeGiveUp => tx.pstep.PClear?
         case PurgeCommit => tx.alive && (tx.pstep.PUnlinked? || tx.pstep.PKept?)
  }

  ghost predicate RecoverEnabled(s: State, t: TxId, e: RecoverStep) {
    if e.RecoverLock? then t !in s.txs && e.token in s.markers && TokenFree(s, e.token)
    else
      && t in s.txs && s.txs[t].Recover?
      && var tx := s.txs[t];
         match e
         case RecoverLock(_) => false
         case RecoverRead => tx.rstep.RLocked?
         case RecoverQuery => tx.alive && tx.rstep.RRead?
         case RecoverStat => tx.rstep.RUnnamed?
         case RecoverUnlink => tx.rstep.RUnlink?
         case RecoverClear => tx.rstep.RReferenced? || tx.rstep.RClear?
  }

  ghost predicate Enabled(s: State, e: Event) {
    match e
    case UploadEvent(t, up) => UploadEnabled(s, t, up)
    case RetireEvent(t, re) => RetireEnabled(s, t, re)
    case PurgeEvent(t, pu) => PurgeEnabled(s, t, pu)
    case RecoverEvent(t, rc) => RecoverEnabled(s, t, rc)
    case Abort(t) => t in s.txs
    case LoseSession(t) => t in s.txs && s.txs[t].alive
  }

  function Put(s: State, t: TxId, tx: Tx): State {
    s.(txs := s.txs[t := tx])
  }

  function End(s: State, t: TxId): State {
    s.(txs := s.txs - {t})
  }

  function Retired(row: Row): Row {
    if row.live.Some? then row.(live := None, purge := row.live) else row
  }

  /**
   Where an upload may still create a file: its own path until it has opened it,
   the shared path until it has restored that.
   */
  function AtRisk(tx: Tx): set<Path> {
    if !tx.Upload? then {}
    else match tx.phase
      case Locked | Marked => {tx.token}
      case Adopting(_, _, dest) => {dest}
      case _ => {}
  }

  ghost function ApplyUpload(s: State, t: TxId, e: UploadStep): State
    requires UploadEnabled(s, t, e)
  {
    if e.Begin? then Put(s, t, Upload(true, e.newToken, Locked)).(used := s.used + {e.newToken})
    else
      var tx := s.txs[t];
      var ph := tx.phase;
      match e
      case WriteMarker => Put(s, t, tx.(phase := Marked)).(markers := s.markers[tx.token := false])
      case OpenBlob => Put(s, t, tx.(phase := Opened)).(blobs := s.blobs[tx.token := None])
      case ConfirmCreated => Put(s, t, tx.(phase := Confirmed)).(markers := s.markers[tx.token := true])
      case WriteChunks(d) =>
        // A file whose name is already gone is not brought back by writing to it.
        Put(s, t, tx.(phase := Written(d))).(
          blobs := if tx.token in s.blobs then s.blobs[tx.token := Some(d)] else s.blobs)
      case LockShared(r) => Put(s, t, tx.(phase := Adopting(ph.digest, r, s.rows[r].live.value)))
      case RestoreShared =>
        Put(s, t, tx.(phase := Adopted(ph.digest, ph.row, ph.dest))).(
          blobs := if ph.dest in s.blobs then s.blobs else s.blobs[ph.dest := s.blobs[tx.token]])
      case InsertShared => Put(s, t, tx.(phase := SharedInserted(ph.digest, ph.row, ph.dest)))
      case InsertOwn => Put(s, t, tx.(phase := Inserted(ph.digest)))
      case DropTemp =>
        Put(s, t, tx.(phase := if ph.Failed? then FailedDropped else SharedDropped(ph.digest, ph.row, ph.dest))).(
          blobs := s.blobs - {tx.token})
      case DropMarker =>
        var s' := s.(markers := s.markers - {tx.token});
        if ph.Committed? then End(s', t)
        else Put(s', t, tx.(phase := if ph.FailedDropped? then FailedCleared
                                     else SharedCleared(ph.digest, ph.row, ph.dest)))
      case Commit(id) =>
        if ph.Inserted?
        then Put(s, t, tx.(phase := Committed)).(rows := s.rows[id := Row(ph.digest, Some(tx.token), None)])
        else End(s, t).(rows := s.rows[id := Row(ph.digest, Some(ph.dest), None)])
      case Fail => Put(s, t, tx.(phase := if ph.Marked? then FailedDropped else Failed))
  }

  ghost function ApplyRetire(s: State, t: TxId, e: RetireStep): State
    requires RetireEnabled(s, t, e)
  {
    match e
    case RetireLock(r) => Put(s, t, Retire(true, {r} + if t in s.txs then s.txs[t].rows else {}))
    case RetireCommit =>
      var rows := s.txs[t].rows;
      End(s, t).(rows := map r | r in s.rows :: if r in rows then Retired(s.rows[r]) else s.rows[r])
  }

  ghost function ApplyPurge(s: State, t: TxId, e: PurgeStep): State
    requires PurgeEnabled(s, t, e)
  {
    if e.PurgeLock? then Put(s, t, Purge(true, e.row, s.rows[e.row].purge.value, PLocked))
    else
      var tx := s.txs[t];
      match e
      case PurgeQuery => Put(s, t, tx.(pstep := if LiveSomewhere(s.rows, tx.path) then PKept else PClear))
      case PurgeUnlink => Put(s, t, tx.(pstep := PUnlinked)).(blobs := s.blobs - {tx.path})
      case PurgeGiveUp => Put(s, t, tx.(pstep := PKept))
      case PurgeCommit =>
        if tx.pstep.PUnlinked? && tx.row in s.rows
        then End(s, t).(rows := s.rows[tx.row := s.rows[tx.row].(purge := None)])
        else End(s, t)
  }

  ghost function ApplyRecover(s: State, t: TxId, e: RecoverStep): State
    requires RecoverEnabled(s, t, e)
  {
    if e.RecoverLock? then Put(s, t, Recover(true, e.token, RLocked))
    else
      var tx := s.txs[t];
      match e
      case RecoverRead =>
        if tx.token in s.markers then Put(s, t, tx.(rstep := RRead(s.markers[tx.token]))) else End(s, t)
      case RecoverQuery =>
        Put(s, t, tx.(rstep := if Named(s.rows, tx.token) then RReferenced else RUnnamed(tx.rstep.created)))
      case RecoverStat =>
        if tx.token !in s.blobs then Put(s, t, tx.(rstep := RClear))
        else if tx.rstep.created then Put(s, t, tx.(rstep := RUnlink))
        else End(s, t)
      case RecoverUnlink => Put(s, t, tx.(rstep := RClear)).(blobs := s.blobs - {tx.token})
      case RecoverClear => End(s, t).(markers := s.markers - {tx.token})
  }

  ghost function Apply(s: State, e: Event): State
    requires Enabled(s, e)
  {
    match e
    case UploadEvent(t, up) => ApplyUpload(s, t, up)
    case RetireEvent(t, re) => ApplyRetire(s, t, re)
    case PurgeEvent(t, pu) => ApplyPurge(s, t, pu)
    case RecoverEvent(t, rc) => ApplyRecover(s, t, rc)
    case Abort(t) => End(s, t)
    case LoseSession(t) => Put(s, t, s.txs[t].(alive := false)).(detached := s.detached + AtRisk(s.txs[t]))
  }

  // ----- The invariant -----

  /** No open transaction may still commit a row for p, or is writing there. */
  ghost predicate Quiet(s: State, p: Path) {
    forall t :: t in s.txs && s.txs[t].alive ==> !Uses(s.txs[t], p)
  }

  /** The upload that generated p is over. */
  ghost predicate Spent(s: State, p: Path) {
    p in s.used && forall t :: t in s.txs && Uncommitted(s.txs[t]) ==> s.txs[t].token != p
  }

  ghost predicate Gone(s: State, p: Path) {
    p in s.blobs ==> p in s.detached
  }

  /** The upload of p is over, and its file is accounted for without a marker. */
  ghost predicate Settled(s: State, p: Path) {
    Spent(s, p) && (Gone(s, p) || Named(s.rows, p))
  }

  predicate Dropped(ph: UploadPhase) {
    ph.SharedDropped? || ph.SharedCleared? || ph.FailedDropped? || ph.FailedCleared?
  }

  predicate BlobThere(ph: UploadPhase) {
    !ph.Locked? && !ph.Marked? && !Dropped(ph)
  }

  predicate MarkerThere(ph: UploadPhase) {
    !ph.Locked? && !ph.SharedCleared? && !ph.FailedCleared?
  }

  predicate HasDigest(ph: UploadPhase) {
    ph.Written? || ph.Inserted? || HasDest(ph)
  }

  /** All live rows of one path have one content. */
  ghost predicate Agrees(rows: map<RowId, Row>, p: Path, d: Digest) {
    forall r :: r in rows && rows[r].live == Some(p) ==> rows[r].sha == d
  }

  /** What an upload whose session is intact knows about its files and its locked row. */
  ghost predicate UploadOwns(s: State, p: Path, ph: UploadPhase) {
    && (p in s.blobs <==> BlobThere(ph))
    && (p in s.markers <==> MarkerThere(ph))
    && (HasDest(ph) ==>
          && ph.row in s.rows && s.rows[ph.row].live == Some(ph.dest)
          && (!ph.Adopting? ==> ph.dest in s.blobs))
  }

  ghost predicate UploadOk(s: State, tx: Tx)
    requires Uncommitted(tx)
  {
    && tx.token in s.used
    && !Named(s.rows, tx.token)
    && (HasDigest(tx.phase) && tx.token in s.blobs ==> s.blobs[tx.token] == Some(tx.phase.digest))
    && (HasDest(tx.phase) ==> Spent(s, tx.phase.dest) && Agrees(s.rows, tx.phase.dest, tx.phase.digest))
    && (if tx.alive then UploadOwns(s, tx.token, tx.phase)
        else AtRisk(tx) <= s.detached && (Dropped(tx.phase) ==> Gone(s, tx.token)))
  }

  ghost predicate TxOk(s: State, tx: Tx) {
    match tx
    case Upload(_, p, ph) => if ph.Committed? then Settled(s, p) else UploadOk(s, tx)
    case Retire(alive, rows) => alive ==> forall r :: r in rows ==> r in s.rows && s.rows[r].live.Some?
    case Purge(alive, r, p, st) =>
      && Spent(s, p)
      && (alive ==> r in s.rows && s.rows[r].purge == Some(p))
      && (st.PClear? || st.PUnlinked? ==> !LiveSomewhere(s.rows, p) && Quiet(s, p))
      && (st.PUnlinked? ==> Gone(s, p))
    case Recover(_, p, st) =>
      && p in s.used
      && (st.RReferenced? ==> Settled(s, p))
      && (st.RUnnamed? || st.RUnlink? || st.RClear? ==> !Named(s.rows, p) && Quiet(s, p))
      && (st.RClear? ==> Gone(s, p))
  }

  ghost predicate TxsOk(s: State) {
    forall t :: t in s.txs ==> TxOk(s, s.txs[t])
  }

  ghost predicate Apart(a: Tx, b: Tx) {
    && RowLocks(a) !! RowLocks(b)
    && TokenLocks(a) !! TokenLocks(b)
    && (Uncommitted(a) && Uncommitted(b) ==> a.token != b.token)
  }

  ghost predicate LocksOk(s: State) {
    forall t, u :: t in s.txs && u in s.txs && t != u ==> Apart(s.txs[t], s.txs[u])
  }

  /** A live row's file holds the row's content, unless the row never had a file. */
  ghost predicate RowOk(s: State, row: Row) {
    && !(row.live.Some? && row.purge.Some?)
    && (row.live.Some? ==>
          && Spent(s, row.live.value)
          && Agrees(s.rows, row.live.value, row.sha)
          && (if row.live.value in s.blobs then s.blobs[row.live.value] == Some(row.sha)
              else row.live.value in s.absent))
    && (row.purge.Some? ==> Spent(s, row.purge.value))
  }

  ghost predicate RowsOk(s: State) {
    forall r :: r in s.rows ==> RowOk(s, s.rows[r])
  }

  /** A file is named by a row, or has its marker, or was created by an upload without a session. */
  ghost predicate Accounted(s: State, p: Path) {
    p in s.blobs ==> Named(s.rows, p) || p in s.markers || p in s.detached
  }

  ghost predicate FilesOk(s: State) {
    && s.blobs.Keys <= s.used && s.markers.Keys <= s.used
    && forall p :: p in s.blobs ==> Accounted(s, p)
  }

  ghost predicate Inv(s: State) {
    TxsOk(s) && LocksOk(s) && RowsOk(s) && FilesOk(s)
  }

  /** Nothing running, no session lost, and every file present is accounted for. */
  ghost predicate Init(s: State) {
    s.txs == map[] && s.detached == {} && RowsOk(s) && FilesOk(s)
  }

  // ----- What one step may change, as seen by everybody else -----

  ghost predicate Mine(s: State, t: TxId, p: Path) {
    t in s.txs && Uses(s.txs[t], p)
  }

  ghost predicate MyToken(s: State, t: TxId, p: Path) {
    t in s.txs && Uncommitted(s.txs[t]) && s.txs[t].token == p
  }

  ghost predicate ChangesTx(s: State, s': State, t: TxId) {
    && (forall u :: u != t ==> (u in s'.txs <==> u in s.txs) && (u in s.txs ==> s'.txs[u] == s.txs[u]))
    && (t in s.txs && t in s'.txs && s'.txs[t].alive ==> s.txs[t].alive)
    && (forall p :: Mine(s', t, p) ==> Mine(s, t, p) || p !in s.used || LiveSomewhere(s.rows, p))
    && (forall p :: MyToken(s', t, p) ==> MyToken(s, t, p) || p !in s.used)
    && (t in s'.txs ==>
          && (forall r :: r in RowLocks(s'.txs[t]) ==> (t in s.txs && r in RowLocks(s.txs[t])) || RowFree(s, r))
          && (forall p :: p in TokenLocks(s'.txs[t]) ==> (t in s.txs && p in TokenLocks(s.txs[t])) || TokenFree(s, p)))
  }

  /** The row that the upload t is about to commit. */
  ghost predicate IsNewRow(s: State, t: TxId, row: Row) {
    && t in s.txs && s.txs[t].alive && Uncommitted(s.txs[t]) && row.live.Some?
    && (if HasDest(s.txs[t].phase)
        then row.live == Some(s.txs[t].phase.dest) && row.sha == s.txs[t].phase.digest
        else row.live == Some(s.txs[t].token))
  }

  ghost predicate ChangesRows(s: State, s': State, t: TxId) {
    && (forall p :: Named(s'.rows, p) ==> Named(s.rows, p) || (MyToken(s, t, p) && s.txs[t].alive))
    && (forall p :: LiveSomewhere(s'.rows, p) ==> LiveSomewhere(s.rows, p) || (Mine(s, t, p) && s.txs[t].alive))
    && (forall p :: Named(s.rows, p) ==> Named(s'.rows, p) || Gone(s, p))
    && (forall r :: r in s'.rows && s'.rows[r].live.Some? ==>
                      (r in s.rows && s'.rows[r] == s.rows[r]) || IsNewRow(s, t, s'.rows[r]))
    && (forall r :: r in s.rows ==> r in s'.rows && (s'.rows[r] == s.rows[r] || (t in s.txs && r in RowLocks(s.txs[t]))))
  }

  /** The file p may go: nobody needs it, and only a purge may take what a row still names. */
  ghost predicate Removable(s: State, t: TxId, p: Path) {
    && t in s.txs
    && !LiveSomewhere(s.rows, p) && (Named(s.rows, p) ==> s.txs[t].Purge?)
    && (Quiet(s, p) || (MyToken(s, t, p) && !CouldCommit(s.txs[t], p)))
  }

  ghost predicate NoToken(s: State, p: Path) {
    forall t :: t in s.txs && s.txs[t].alive && Uncommitted(s.txs[t]) ==> s.txs[t].token != p
  }

  ghost predicate ChangesFiles(s: State, s': State, t: TxId) {
    && s.used <= s'.used && s.detached <= s'.detached && s.absent == s'.absent
    && (forall p :: p in s'.blobs && p !in s.blobs ==>
                      && s'.rows == s.rows && t in s.txs && p in AtRisk(s.txs[t])
                      && (MyToken(s, t, p) || (Mine(s, t, p) && s'.blobs[p] == Some(s.txs[t].phase.digest))))
    && (forall p :: p in s'.blobs && p in s.blobs && s'.blobs[p] != s.blobs[p] ==> MyToken(s, t, p))
    && (forall p :: p in s.blobs && p !in s'.blobs ==>
                      Removable(s, t, p))
    && (forall p :: (p in s.markers) != (p in s'.markers) ==> MyToken(s, t, p) || NoToken(s, p))
  }

  ghost predicate Changes(s: State, s': State, t: TxId) {
    ChangesTx(s, s', t) && ChangesRows(s, s', t) && ChangesFiles(s, s', t)
  }

  lemma KeepsSpent(s: State, s': State, t: TxId, p: Path)
    requires Changes(s, s', t) && Spent(s, p)
    ensures Spent(s', p)
  {
    forall u | u in s'.txs && Uncommitted(s'.txs[u]) ensures s'.txs[u].token != p {
      if u == t { assert MyToken(s', t, s'.txs[t].token); }
    }
  }

  lemma KeepsQuiet(s: State, s': State, t: TxId, p: Path)
    requires Changes(s, s', t) && p in s.used && !LiveSomewhere(s.rows, p) && Quiet(s, p)
    ensures Quiet(s', p) && !LiveSomewhere(s'.rows, p)
    ensures !Named(s.rows, p) ==> !Named(s'.rows, p)
  {
    forall u | u in s'.txs && s'.txs[u].alive ensures !Uses(s'.txs[u], p) {
      assert u == t ==> (Mine(s', t, p) <==> Uses(s'.txs[u], p));
    }
  }
}
