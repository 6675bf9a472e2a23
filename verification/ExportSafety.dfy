/**
 What the export protocol guarantees over whole runs: any interleaving of
 workers, stale reclaims, cancellations, retries, downloads, changes of access
 rights and crashes.
 */
module ExportSafety {
  import opened Wrappers
  import opened ExportJobs
  import opened ExportInvariant

  ghost predicate Possible(s: State, es: seq<Event>)
    decreases |es|
  {
    es == [] || (Enabled(s, es[0]) && Possible(Apply(s, es[0]), es[1..]))
  }

  ghost function After(s: State, es: seq<Event>): State
    requires Possible(s, es)
    decreases |es|
  {
    if es == [] then s else After(Apply(s, es[0]), es[1..])
  }

  lemma {:induction false} RunKeepsInv(s: State, es: seq<Event>)
    requires Inv(s) && Possible(s, es)
    ensures Inv(After(s, es))
    decreases |es|
  {
    if es != [] {
      StepKeepsInv(s, es[0]);
      RunKeepsInv(Apply(s, es[0]), es[1..]);
    }
  }

  // ----- Only the holder of the current claim finishes a job -----

  lemma OnlyFinishMakesReady(s: State, e: Event, j: JobId)
    requires Enabled(s, e) && j in s.jobs
    requires !s.jobs[j].status.Ready? && j in Apply(s, e).jobs && Apply(s, e).jobs[j].status.Ready?
    ensures e.Finish? && s.workers[e.w].job == j
  {
    match e
    case Create(_, _, _, _) =>
    case Claim(_, _, _, _) =>
    case CloseDownload(_, _) =>
    case Finish(_) =>
    case _ =>
  }

  /**
   A job becomes ready in exactly one way: the worker that holds its current
   token finishes, its owner may still export and still sees every company of
   the scope, and the stored file covers exactly that scope, under its digest.
   */
  lemma OnlyTheClaimHolderFinishes(s: State, e: Event, j: JobId)
    requires Inv(s) && Enabled(s, e) && j in s.jobs
    requires !s.jobs[j].status.Ready? && j in Apply(s, e).jobs && Apply(s, e).jobs[j].status.Ready?
    ensures e.Finish? && s.workers[e.w].job == j
    ensures s.jobs[j].status.Processing? && s.jobs[j].token == Some(s.workers[e.w].token)
    ensures s.jobs[j].owner in s.capable && s.jobs[j].scope.Some?
    ensures Ids(s.jobs[j].scope.value) <= Visible(s, s.jobs[j].owner)
    ensures var s' := Apply(s, e);
            && s'.jobs[j].token.None? && s'.jobs[j].path == Some(s.workers[e.w].path)
            && s.workers[e.w].path in s'.files
            && s'.files[s.workers[e.w].path] == Workbook(Ids(s.jobs[j].scope.value))
            && s'.jobs[j].sha == Some(Sha256(s'.files[s.workers[e.w].path]))
  {
    OnlyFinishMakesReady(s, e, j);
    assert WorkerOk(s, s.workers[e.w]);
    hide Inv, JobsOk, WorkersOk, FilesOk, ReadersOk;
  }

  /** A worker whose token is no longer the row's leaves every row alone and removes its own file. */
  lemma SupersededWorkerLeavesNoTrace(s: State, w: WorkerId, e: Event)
    requires w in s.workers && (e == Finish(w) || e == GiveUp(w)) && Enabled(s, e)
    requires !Current(s.jobs[s.workers[w].job], s.workers[w].token)
    ensures Apply(s, e).jobs == s.jobs
    ensures s.workers[w].Built? ==> Apply(s, e).files == s.files - {s.workers[w].path}
    ensures s.workers[w].Claimed? ==> Apply(s, e).files == s.files
    ensures Apply(s, e).workers == s.workers - {w}
  {
  }

  /** Once a token is gone from a row it never comes back, late downloads or not. */
  lemma StepKeepsSuperseded(s: State, e: Event, j: JobId, t: Token)
    requires Enabled(s, e) && t in s.tokens && j in s.jobs && s.jobs[j].token != Some(t)
    ensures var s' := Apply(s, e); t in s'.tokens && j in s'.jobs && s'.jobs[j].token != Some(t)
  {
    match e
    case Finish(_) =>
    case CloseDownload(_, _) =>
    case Claim(_, _, _, _) =>
    case _ =>
  }

  lemma {:induction false} SupersededForEver(s: State, es: seq<Event>, j: JobId, t: Token)
    requires Possible(s, es) && t in s.tokens && j in s.jobs && s.jobs[j].token != Some(t)
    ensures j in After(s, es).jobs && After(s, es).jobs[j].token != Some(t)
    decreases |es|
  {
    if es != [] {
      StepKeepsSuperseded(s, es[0], j, t);
      SupersededForEver(Apply(s, es[0]), es[1..], j, t);
    }
  }

  /** After a cancellation, a retry or a stale reclaim, the old worker can never finish the job. */
  lemma SupersededNeverFinishes(s: State, es: seq<Event>, w: WorkerId, j: JobId, t: Token)
    requires Possible(s, es) && t in s.tokens && j in s.jobs && s.jobs[j].token != Some(t)
    requires w in After(s, es).workers && After(s, es).workers[w].token == t && After(s, es).workers[w].job == j
    requires Enabled(After(s, es), Finish(w))
    ensures Apply(After(s, es), Finish(w)).jobs == After(s, es).jobs
  {
    SupersededForEver(s, es, j, t);
    SupersededWorkerLeavesNoTrace(After(s, es), w, Finish(w));
  }

  // ----- Canceled is final -----

  /** One event changes a canceled row exactly when it is the write-back of a download that withdraws it. */
  lemma CanceledUnlessLate(s: State, e: Event, j: JobId)
    requires Enabled(s, e) && j in s.jobs && s.jobs[j].status.Canceled?
    ensures j in Apply(s, e).jobs && (Apply(s, e).jobs[j] != s.jobs[j] <==> Withdraws(s, e, j))
  {
    match e
    case CloseDownload(d, expired) =>
    case Finish(_) =>
    case Claim(_, _, _, _) =>
    case _ =>
  }

  /** Row j is the same at every point of the run. */
  ghost predicate RowStays(s: State, es: seq<Event>, j: JobId)
    requires Possible(s, es) && j in s.jobs
    decreases |es|
  {
    es == [] ||
    (var s' := Apply(s, es[0]); j in s'.jobs && s'.jobs[j] == s.jobs[j] && RowStays(s', es[1..], j))
  }

  ghost predicate NeverWithdrawn(s: State, es: seq<Event>, j: JobId)
    requires Possible(s, es)
    decreases |es|
  {
    es == [] || (!Withdraws(s, es[0], j) && NeverWithdrawn(Apply(s, es[0]), es[1..], j))
  }

  /** Canceled is final in exactly those runs in which no download withdraws the row afterwards. */
  lemma {:induction false} CanceledIsFinal(s: State, es: seq<Event>, j: JobId)
    requires Possible(s, es) && j in s.jobs && s.jobs[j].status.Canceled?
    ensures RowStays(s, es, j) <==> NeverWithdrawn(s, es, j)
    decreases |es|
  {
    if es != [] {
      CanceledUnlessLate(s, es[0], j);
      hide Withdraws, Apply, Enabled;
      if Apply(s, es[0]).jobs[j] == s.jobs[j] { CanceledIsFinal(Apply(s, es[0]), es[1..], j); }
    }
  }

  // ----- Files -----

  /** A file under a row that is neither ready nor canceled: a download withdrew the row after it had moved on. */
  ghost predicate Stranded(s: State, p: Path) {
    p in s.files && exists j :: j in s.jobs && (s.jobs[j].status.Failed? || s.jobs[j].status.Expired?) && s.jobs[j].path == Some(p)
  }

  lemma RowsAreReadyOrWithdrawn(s: State, p: Path)
    requires Inv(s) && p in s.files && OfRow(s.jobs, p)
    ensures OfReadyJob(s.jobs, p) || Stranded(s, p)
  {
    var j :| j in s.jobs && !s.jobs[j].status.Canceled? && s.jobs[j].path == Some(p);
    assert JobOk(s, s.jobs[j]);
  }

  lemma OwnersAreDistinct(s: State, p: Path)
    requires Inv(s)
    ensures !(OfReadyJob(s.jobs, p) && (HeldByWorker(s.workers, p) || p in s.stray || Stranded(s, p)))
    ensures !(Stranded(s, p) && (HeldByWorker(s.workers, p) || p in s.stray))
    ensures !(HeldByWorker(s.workers, p) && p in s.stray)
  {
    forall j | j in s.jobs && s.jobs[j].path == Some(p) ensures p !in s.stray && !HeldByWorker(s.workers, p) {
      assert JobOk(s, s.jobs[j]);
    }
    forall w | w in s.workers && s.workers[w].Built? ensures s.workers[w].path !in s.stray {
      assert WorkerOk(s, s.workers[w]);
    }
  }

  /**
   Conservation: at every point of every run the files on disk are exactly those
   of ready jobs (less the ones an interrupted withdrawal removed), those held by
   workers between build and finish, the strays of crashed workers, and the
   stranded ones; no file is two of these.
   */
  lemma FilesAreConserved(es: seq<Event>, p: Path)
    requires Possible(EMPTY, es)
    ensures var s := After(EMPTY, es);
            && (p in s.files <==> (OfReadyJob(s.jobs, p) && p !in s.lost) || HeldByWorker(s.workers, p) || p in s.stray || Stranded(s, p))
            && !(OfReadyJob(s.jobs, p) && (HeldByWorker(s.workers, p) || p in s.stray || Stranded(s, p)))
            && !(Stranded(s, p) && (HeldByWorker(s.workers, p) || p in s.stray))
            && !(HeldByWorker(s.workers, p) && p in s.stray)
  {
    RunKeepsInv(EMPTY, es);
    var s := After(EMPTY, es);
    OwnersAreDistinct(s, p);
    if p in s.files && OfRow(s.jobs, p) { RowsAreReadyOrWithdrawn(s, p); }
    if OfReadyJob(s.jobs, p) {
      var j :| j in s.jobs && s.jobs[j].status.Ready? && s.jobs[j].path == Some(p);
      assert JobOk(s, s.jobs[j]);
    }
    if HeldByWorker(s.workers, p) {
      var w :| w in s.workers && s.workers[w].Built? && s.workers[w].path == p;
      assert WorkerOk(s, s.workers[w]);
    }
  }

  /** The file of a row that failed or expired is gone. */
  ghost predicate NothingStranded(s: State) {
    forall j :: j in s.jobs && (s.jobs[j].status.Failed? || s.jobs[j].status.Expired?) && s.jobs[j].path.Some? ==>
                  s.jobs[j].path.value !in s.files
  }

  /** The download withdraws a row that has been finished again since, with another file. */
  predicate StrandsFile(s: State, e: Event) {
    && e.CloseDownload? && e.d in s.readers && s.readers[e.d].job in s.jobs
    && Withdraws(s, e, s.readers[e.d].job)
    && var job := s.jobs[s.readers[e.d].job];
       job.status.Ready? && job.path.Some? && job.path != s.readers[e.d].copy.path && job.path.value in s.files
  }

  lemma CloseStrandsExactly(s: State, d: ReaderId, expired: bool)
    requires Inv(s) && NothingStranded(s) && Enabled(s, CloseDownload(d, expired))
    ensures NothingStranded(Apply(s, CloseDownload(d, expired))) <==> !StrandsFile(s, CloseDownload(d, expired))
  {
    var e := CloseDownload(d, expired);
    var s' := ApplyClose(s, d, expired);
    var rd := s.readers[d];
    assert ReaderOk(s, rd) && JobOk(s, s.jobs[rd.job]);
    forall k | k in s.jobs && k != rd.job && s.jobs[k].path.Some?
      ensures s'.jobs[k] == s.jobs[k] && (s.jobs[k].path.value in s'.files ==> s.jobs[k].path.value in s.files)
    {}
    if StrandsFile(s, e) {
      assert s'.jobs[rd.job].path.value in s'.files;
    }
  }

  /** A withdrawn row of the new state is an old one, or its file has gone, or it has none. */
  lemma RowsOfStep(s: State, e: Event, j: JobId)
    requires Enabled(s, e) && !e.CloseDownload? && j in Apply(s, e).jobs
    ensures var job := Apply(s, e).jobs[j];
            job.status.Failed? || job.status.Expired? ==>
              || (j in s.jobs && job == s.jobs[j])
              || (j in s.jobs && (s.jobs[j].status.Pending? || s.jobs[j].status.Processing?) && job.path == s.jobs[j].path)
              || job.path.None?
  {
    match e
    case Finish(_) =>
    case Claim(_, _, _, _) =>
    case _ =>
  }

  lemma NewFilesOfStep(s: State, e: Event, p: Path)
    requires Enabled(s, e) && p in Apply(s, e).files && p !in s.files
    ensures p !in s.paths
  {
    match e
    case Finish(_) =>
    case CloseDownload(_, _) =>
    case _ =>
  }

  lemma OthersStrandNothing(s: State, e: Event)
    requires Inv(s) && NothingStranded(s) && Enabled(s, e) && !e.CloseDownload?
    ensures NothingStranded(Apply(s, e))
  {
    var s' := Apply(s, e);
    hide Apply, Enabled, JobOk, WorkersOk, FilesOk, ReadersOk;
    forall j | j in s'.jobs && (s'.jobs[j].status.Failed? || s'.jobs[j].status.Expired?) && s'.jobs[j].path.Some?
      ensures s'.jobs[j].path.value !in s'.files
    {
      RowsOfStep(s, e, j);
      assert JobOk(s, s.jobs[j]);
      PathsOfRows(s, s.jobs[j]);
      if s'.jobs[j].path.value in s'.files { NewFilesOfStep(s, e, s'.jobs[j].path.value); }
    }
  }

  lemma PathsOfRows(s: State, job: Job)
    requires JobOk(s, job)
    ensures job.path.Some? ==> job.path.value in s.paths
    ensures job.status.Pending? || job.status.Processing? ==> job.path.None?
  {
  }

  /** One event strands a file exactly when it is such a write-back. */
  lemma StepStrandsExactly(s: State, e: Event)
    requires Inv(s) && NothingStranded(s) && Enabled(s, e)
    ensures NothingStranded(Apply(s, e)) <==> !StrandsFile(s, e)
  {
    if e.CloseDownload? { CloseStrandsExactly(s, e.d, e.expired); } else { OthersStrandNothing(s, e); }
  }

  ghost predicate NeverStrands(s: State, es: seq<Event>)
    requires Possible(s, es)
    decreases |es|
  {
    es == [] || (!StrandsFile(s, es[0]) && NeverStrands(Apply(s, es[0]), es[1..]))
  }

  ghost predicate AlwaysNothingStranded(s: State, es: seq<Event>)
    requires Possible(s, es)
    decreases |es|
  {
    NothingStranded(s) && (es == [] || AlwaysNothingStranded(Apply(s, es[0]), es[1..]))
  }

  /** No file is ever stranded in exactly the runs without such a write-back. */
  lemma {:induction false} RunStrandsExactly(s: State, es: seq<Event>)
    requires Inv(s) && NothingStranded(s) && Possible(s, es)
    ensures AlwaysNothingStranded(s, es) <==> NeverStrands(s, es)
    ensures NeverStrands(s, es) ==> NothingStranded(After(s, es))
    decreases |es|
  {
    if es != [] {
      StepStrandsExactly(s, es[0]);
      StepKeepsInv(s, es[0]);
      hide Inv, NothingStranded, StrandsFile, Apply, Enabled;
      if NothingStranded(Apply(s, es[0])) { RunStrandsExactly(Apply(s, es[0]), es[1..]); }
    }
  }

  predicate Clean(es: seq<Event>) {
    forall i :: 0 <= i < |es| ==> !es[i].Die? && !es[i].TearBuild? && !es[i].LoseFile?
  }

  lemma {:induction false} CleanRunsLoseNothing(s: State, es: seq<Event>)
    requires Possible(s, es) && Clean(es)
    ensures After(s, es).lost == s.lost && After(s, es).stray == s.stray
    decreases |es|
  {
    if es != [] {
      assert !es[0].Die? && !es[0].TearBuild? && !es[0].LoseFile?;
      CleanRunsLoseNothing(Apply(s, es[0]), es[1..]);
    }
  }

  /** Without crashes and such write-backs the files are those of ready jobs and of workers, and no others. */
  lemma CleanRunsConserveFiles(es: seq<Event>, p: Path)
    requires Possible(EMPTY, es) && NeverStrands(EMPTY, es) && Clean(es)
    ensures p in After(EMPTY, es).files <==>
            OfReadyJob(After(EMPTY, es).jobs, p) || HeldByWorker(After(EMPTY, es).workers, p)
  {
    FilesAreConserved(es, p);
    CleanRunsLoseNothing(EMPTY, es);
    RunStrandsExactly(EMPTY, es);
  }

  // ----- Tokens -----

  /** At every point of every run a row carries a token exactly while it is being processed, and no two rows the same. */
  lemma TokenExactlyWhileProcessing(s: State, es: seq<Event>, j: JobId, k: JobId)
    requires Inv(s) && Possible(s, es) && j in After(s, es).jobs && k in After(s, es).jobs
    ensures After(s, es).jobs[j].status.Processing? <==> After(s, es).jobs[j].token.Some?
    ensures After(s, es).jobs[j].token.Some? && After(s, es).jobs[j].token == After(s, es).jobs[k].token ==> j == k
  {
    RunKeepsInv(s, es);
    assert JobOk(After(s, es), After(s, es).jobs[j]);
  }

  // ----- Downloads -----

  /** A late download disturbs neither a row that is being processed nor any file: it only ends. */
  lemma ProcessingIsGuarded(s: State, d: ReaderId, expired: bool)
    requires Inv(s) && Enabled(s, CloseDownload(d, expired)) && s.jobs[s.readers[d].job].status.Processing?
    ensures Apply(s, CloseDownload(d, expired)) == s.(readers := s.readers - {d})
  {
    var rd := s.readers[d];
    assert ReaderOk(s, rd) && JobOk(s, s.jobs[rd.job]);
    assert s.files - {rd.copy.path.value} == s.files;
    assert s.jobs[rd.job := s.jobs[rd.job]] == s.jobs;
  }

  /** Owner and scope of a job are what they were, after any run. */
  lemma {:induction false} ScopeNeverChanges(s: State, es: seq<Event>, j: JobId)
    requires Possible(s, es) && j in s.jobs
    ensures j in After(s, es).jobs
    ensures After(s, es).jobs[j].owner == s.jobs[j].owner && After(s, es).jobs[j].scope == s.jobs[j].scope
    decreases |es|
  {
    if es != [] {
      ScopeIsFixed(s, es[0], j);
      hide Apply, Enabled;
      ScopeNeverChanges(Apply(s, es[0]), es[1..], j);
    }
  }

  /**
   Whatever a download serves, on time or late, after any run, is the workbook of
   exactly the job's companies, every one of which the owner may see at that moment.
   */
  lemma ServedContentIsAuthorized(s: State, d: ReaderId, expired: bool)
    requires Inv(s) && Enabled(s, CloseDownload(d, expired))
    requires Judge(s, s.readers[d].copy, expired).Serve?
    ensures var job := s.jobs[s.readers[d].job];
            && job.scope.Some? && !expired
            && Judge(s, s.readers[d].copy, expired).content == Workbook(Ids(job.scope.value))
            && Ids(job.scope.value) <= Visible(s, job.owner)
  {
    assert ReaderOk(s, s.readers[d]);
    hide JobsOk, WorkersOk, FilesOk, ReadersOk, CopyOk;
  }
}
