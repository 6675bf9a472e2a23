/**
 Customer export jobs: workers claim a generation token, render outside the
 transaction and finish only if they are still current, while users cancel,
 retry and download. One event is one locked transaction or one file operation.

 A download reads its row without a lock and writes the status back later, so
 it is two events, and anything may happen between them.
 */
module ExportJobs {
  import opened Wrappers

  type JobId = nat
  type WorkerId = nat
  type ReaderId = nat
  type UserId = nat
  type CompanyId = int
  type Token = nat
  type Path = nat

  datatype Status = Pending | Processing | Ready | Failed | Expired | Canceled

  /** A rendered workbook covers a set of companies; Torn is an interrupted write. */
  datatype Content = Workbook(companies: set<CompanyId>) | Torn

  /** SHA-256, taken as injective. */
  datatype Digest = Sha256(content: Content)

  /** `scope` is None when the stored id list does not parse; `shapeOk` covers fields and format. */
  datatype Job = Job(
    owner: UserId,
    scope: Option<seq<CompanyId>>,
    shapeOk: bool,
    status: Status,
    token: Option<Token>,
    path: Option<Path>,
    sha: Option<Digest>)

  datatype Worker = Claimed(job: JobId, token: Token) | Built(job: JobId, token: Token, path: Path, sha: Digest)

  datatype Reader = Reader(job: JobId, copy: Job)

  /**
   `lost` collects files unlinked by a transaction that then did not commit,
   `stray` files whose worker died, or failed half way through writing.
   */
  datatype State = State(
    jobs: map<JobId, Job>,
    files: map<Path, Content>,
    workers: map<WorkerId, Worker>,
    readers: map<ReaderId, Reader>,
    visible: map<UserId, set<CompanyId>>,
    capable: set<UserId>,
    tokens: set<Token>,
    paths: set<Path>,
    lost: set<Path>,
    stray: set<Path>)

  function Ids(ids: seq<CompanyId>): set<CompanyId> {
    set i | i in ids
  }

  predicate Distinct(ids: seq<CompanyId>) {
    forall i, j :: 0 <= i < j < |ids| ==> ids[i] != ids[j]
  }

  function Visible(s: State, u: UserId): set<CompanyId> {
    if u in s.visible then s.visible[u] else {}
  }

  /** The companies of the job's scope, if its owner may still see every one of them. */
  function AuthorizedSnapshot(s: State, job: Job): Option<set<CompanyId>> {
    match job.scope
    case None => None
    case Some(ids) =>
      if ids != [] && Distinct(ids) && (forall i :: i in ids ==> i > 0) && Ids(ids) <= Visible(s, job.owner)
      then Some(Ids(ids))
      else None
  }

  datatype Event =
    | Create(j: JobId, owner: UserId, scope: Option<seq<CompanyId>>, shapeOk: bool)
    | SetAccess(user: UserId, ids: set<CompanyId>, mayExport: bool)
    | Claim(w: WorkerId, j: JobId, stale: bool, token: Token)
    | Build(w: WorkerId, path: Path)
    | TearBuild(w: WorkerId, path: Path)
    | GiveUp(w: WorkerId)
    | Finish(w: WorkerId)
    | Die(w: WorkerId, unlinked: bool)
    | Cancel(j: JobId)
    | Retry(j: JobId)
    | LoseFile(j: JobId)
    | OpenDownload(d: ReaderId, j: JobId)
    | CloseDownload(d: ReaderId, expired: bool)

  predicate Claimable(job: Job, stale: bool) {
    job.status.Pending? || (job.status.Processing? && stale)
  }

  predicate Enabled(s: State, e: Event) {
    match e
    case Create(j, _, _, _) => j !in s.jobs
    case SetAccess(_, _, _) => true
    case Claim(w, j, stale, token) =>
      w !in s.workers && j in s.jobs && Claimable(s.jobs[j], stale) && token !in s.tokens
    case Build(w, path) =>
      && w in s.workers && s.workers[w].Claimed? && s.workers[w].job in s.jobs && path !in s.paths
      && s.jobs[s.workers[w].job].shapeOk
      && AuthorizedSnapshot(s, s.jobs[s.workers[w].job]).Some?
    case TearBuild(w, path) => w in s.workers && s.workers[w].Claimed? && path !in s.paths
    case GiveUp(w) => w in s.workers && s.workers[w].Claimed? && s.workers[w].job in s.jobs
    case Finish(w) => w in s.workers && s.workers[w].Built? && s.workers[w].job in s.jobs
    case Die(w, unlinked) => w in s.workers && (unlinked ==> s.workers[w].Built?)
    case Cancel(j) =>
      j in s.jobs && (s.jobs[j].status.Pending? || s.jobs[j].status.Processing? || s.jobs[j].status.Ready?)
    case Retry(j) =>
      && j in s.jobs && (s.jobs[j].status.Failed? || s.jobs[j].status.Expired?)
      && AuthorizedSnapshot(s, s.jobs[j]).Some? && s.jobs[j].shapeOk
    case LoseFile(j) => j in s.jobs && s.jobs[j].status.Ready? && s.jobs[j].path.Some?
    case OpenDownload(d, j) => d !in s.readers && j in s.jobs && s.jobs[j].status.Ready?
    case CloseDownload(d, _) => d in s.readers && s.readers[d].job in s.jobs
  }

  function Unlinked(files: map<Path, Content>, path: Option<Path>): map<Path, Content> {
    if path.Some? then files - {path.value} else files
  }

  predicate Current(job: Job, token: Token) {
    job.status.Processing? && job.token == Some(token)
  }

  /** Claim one execution generation, or fail the job of an owner who may not export. */
  function ClaimedJob(s: State, job: Job, token: Token): Job {
    if job.owner in s.capable then job.(status := Processing, token := Some(token))
    else job.(status := Failed, token := None)
  }

  datatype Verdict = Serve(content: Content) | Withdraw(status: Status, remove: bool)

  /** What a download decides from its copy of the row and the file it finds. */
  function Judge(s: State, copy: Job, expired: bool): Verdict {
    if expired then Withdraw(Expired, true)
    else if AuthorizedSnapshot(s, copy).None? then Withdraw(Failed, true)
    else if !copy.shapeOk then Withdraw(Failed, true)
    else if copy.path.None? || copy.path.value !in s.files then Withdraw(Failed, false)
    else if Some(Sha256(s.files[copy.path.value])) != copy.sha then Withdraw(Failed, true)
    else Serve(s.files[copy.path.value])
  }

  function ApplyFinish(s: State, w: WorkerId): State
    requires Enabled(s, Finish(w))
  {
    var wk := s.workers[w];
    var job := s.jobs[wk.job];
    var s' := s.(workers := s.workers - {w});
    if !Current(job, wk.token) then s'.(files := s.files - {wk.path})
    else if job.owner !in s.capable || AuthorizedSnapshot(s, job).None? then
      s'.(files := s.files - {wk.path}, jobs := s.jobs[wk.job := job.(status := Failed, token := None)])
    else
      s'.(jobs := s.jobs[wk.job := job.(status := Ready, token := None, path := Some(wk.path), sha := Some(wk.sha))])
  }

  /**
   Writing the status column back, and nothing else. The table's check on claim
   tokens refuses any other status for a row that is being processed.
   */
  function Withdrawn(job: Job, st: Status): Job {
    if job.status.Processing? then job else job.(status := st)
  }

  function ApplyClose(s: State, d: ReaderId, expired: bool): State
    requires Enabled(s, CloseDownload(d, expired))
  {
    var rd := s.readers[d];
    var s' := s.(readers := s.readers - {d});
    match Judge(s, rd.copy, expired)
    case Serve(_) => s'
    case Withdraw(st, remove) =>
      s'.(files := if remove then Unlinked(s.files, rd.copy.path) else s.files,
          jobs := s.jobs[rd.job := Withdrawn(s.jobs[rd.job], st)])
  }

  function Apply(s: State, e: Event): State
    requires Enabled(s, e)
  {
    match e
    case Create(j, owner, scope, shapeOk) =>
      s.(jobs := s.jobs[j := Job(owner, scope, shapeOk, Pending, None, None, None)])
    case SetAccess(u, ids, mayExport) =>
      s.(visible := s.visible[u := ids], capable := if mayExport then s.capable + {u} else s.capable - {u})
    case Claim(w, j, _, token) =>
      s.(jobs := s.jobs[j := ClaimedJob(s, s.jobs[j], token)],
         workers := if s.jobs[j].owner in s.capable then s.workers[w := Claimed(j, token)] else s.workers,
         tokens := s.tokens + {token})
    case Build(w, path) =>
      var wk := s.workers[w];
      var content := Workbook(AuthorizedSnapshot(s, s.jobs[wk.job]).value);
      s.(files := s.files[path := content], paths := s.paths + {path},
         workers := s.workers[w := Built(wk.job, wk.token, path, Sha256(content))])
    case TearBuild(_, path) =>
      s.(files := s.files[path := Torn], paths := s.paths + {path}, stray := s.stray + {path})
    case GiveUp(w) =>
      var wk := s.workers[w];
      var job := s.jobs[wk.job];
      var s' := s.(workers := s.workers - {w});
      if !Current(job, wk.token) then s'
      else s'.(files := Unlinked(s.files, job.path),
               jobs := s.jobs[wk.job := job.(status := Failed, token := None, path := None, sha := None)])
    case Finish(w) => ApplyFinish(s, w)
    case Die(w, unlinked) =>
      var wk := s.workers[w];
      var s' := s.(workers := s.workers - {w});
      if wk.Claimed? then s'
      else if unlinked then s'.(files := s.files - {wk.path})
      else s'.(stray := s.stray + {wk.path})
    case Cancel(j) =>
      s.(files := Unlinked(s.files, s.jobs[j].path),
         jobs := s.jobs[j := s.jobs[j].(status := Canceled, token := None)])
    case Retry(j) =>
      s.(files := Unlinked(s.files, s.jobs[j].path),
         jobs := s.jobs[j := s.jobs[j].(status := Pending, token := None, path := None, sha := None)])
    case LoseFile(j) =>
      s.(files := Unlinked(s.files, s.jobs[j].path), lost := s.lost + {s.jobs[j].path.value})
    case OpenDownload(d, j) => s.(readers := s.readers[d := Reader(j, s.jobs[j])])
    case CloseDownload(d, expired) => ApplyClose(s, d, expired)
  }

  /** The download withdraws row j, judging by its own copy. */
  predicate Withdraws(s: State, e: Event, j: JobId) {
    && e.CloseDownload? && e.d in s.readers && s.readers[e.d].job == j
    && Judge(s, s.readers[e.d].copy, e.expired).Withdraw?
  }

  // ----- The invariant of all runs, late downloads included -----

  predicate JobOk(s: State, job: Job) {
    && (job.status.Processing? <==> job.token.Some?)
    && (job.token.Some? ==> job.token.value in s.tokens)
    && (job.path.Some? ==> job.path.value in s.paths && job.path.value !in s.stray)
    && (job.status.Pending? || job.status.Processing? ==> job.path.None?)
    && (job.status.Ready? ==>
          && job.path.Some? && job.scope.Some?
          && job.sha == Some(Sha256(Workbook(Ids(job.scope.value))))
          && (if job.path.value in s.files then Some(Sha256(s.files[job.path.value])) == job.sha
              else job.path.value in s.lost))
    && (job.status.Canceled? && job.path.Some? ==> job.path.value !in s.files)
  }

  predicate WorkerOk(s: State, wk: Worker) {
    && wk.token in s.tokens && wk.job in s.jobs
    && (wk.Built? ==>
          && wk.path in s.paths && wk.path !in s.stray && wk.path in s.files
          && wk.sha == Sha256(s.files[wk.path])
          && s.jobs[wk.job].scope.Some? && wk.sha == Sha256(Workbook(Ids(s.jobs[wk.job].scope.value))))
  }

  ghost predicate JobsOk(s: State) {
    && (forall j :: j in s.jobs ==> JobOk(s, s.jobs[j]))
    && (forall j, k :: j in s.jobs && k in s.jobs && j != k && s.jobs[j].token.Some? ==>
                         s.jobs[j].token != s.jobs[k].token)
    && (forall j, k :: j in s.jobs && k in s.jobs && j != k && s.jobs[j].path.Some? ==>
                         s.jobs[j].path != s.jobs[k].path)
  }

  ghost predicate WorkersOk(s: State) {
    && (forall w :: w in s.workers ==> WorkerOk(s, s.workers[w]))
    && (forall w, v :: w in s.workers && v in s.workers && w != v ==>
                         && s.workers[w].token != s.workers[v].token
                         && (s.workers[w].Built? && s.workers[v].Built? ==> s.workers[w].path != s.workers[v].path))
    && (forall w, j :: w in s.workers && j in s.jobs ==>
                         && (s.jobs[j].token == Some(s.workers[w].token) ==> s.workers[w].job == j)
                         && (s.workers[w].Built? ==> s.jobs[j].path != Some(s.workers[w].path)))
  }

  ghost predicate HeldByWorker(workers: map<WorkerId, Worker>, p: Path) {
    exists w :: w in workers && workers[w].Built? && workers[w].path == p
  }

  ghost predicate OfReadyJob(jobs: map<JobId, Job>, p: Path) {
    exists j :: j in jobs && jobs[j].status.Ready? && jobs[j].path == Some(p)
  }

  /** A row that is not canceled names the file. */
  ghost predicate OfRow(jobs: map<JobId, Job>, p: Path) {
    exists j :: j in jobs && !jobs[j].status.Canceled? && jobs[j].path == Some(p)
  }

  /** Every file on disk belongs to a row, to a worker between build and finish, or is a known stray. */
  ghost predicate FilesOk(s: State) {
    && Sane(s)
    && forall p :: p in s.files ==> OfRow(s.jobs, p) || HeldByWorker(s.workers, p) || p in s.stray
  }

  predicate Sane(s: State) {
    s.files.Keys <= s.paths && s.stray <= s.files.Keys && s.lost <= s.paths && s.lost !! s.files.Keys
  }

  /** The file a copy names is nobody else's, and gone once its row has moved on. */
  ghost predicate CopyOk(s: State, j: JobId, p: Path) {
    && p in s.paths && p !in s.stray
    && (forall w :: w in s.workers && s.workers[w].Built? ==> s.workers[w].path != p)
    && (forall k :: k in s.jobs && k != j ==> s.jobs[k].path != Some(p))
    && (j in s.jobs && s.jobs[j].path != Some(p) ==> p !in s.files)
  }

  /** A download only ever starts from a ready row, and scope and owner never change. */
  ghost predicate ReaderOk(s: State, rd: Reader) {
    && rd.copy.status.Ready? && rd.job in s.jobs && rd.copy.owner == s.jobs[rd.job].owner
    && rd.copy.scope.Some? && rd.copy.scope == s.jobs[rd.job].scope
    && rd.copy.sha == Some(Sha256(Workbook(Ids(rd.copy.scope.value))))
    && rd.copy.path.Some? && CopyOk(s, rd.job, rd.copy.path.value)
  }

  ghost predicate ReadersOk(s: State) {
    forall d :: d in s.readers ==> ReaderOk(s, s.readers[d])
  }

  ghost predicate Inv(s: State) {
    JobsOk(s) && WorkersOk(s) && FilesOk(s) && ReadersOk(s)
  }

  const EMPTY := State(map[], map[], map[], map[], map[], {}, {}, {}, {}, {})
}
