/**
 Every event of the export protocol keeps the invariant. A step touches at most
 one job, one worker and one file; the frame lemmas carry everything else.
 */
module ExportInvariant {
  import opened Wrappers
  import opened ExportJobs

  // ----- Frame: a step touches one job, one worker and one file -----

  ghost predicate OthersSame(s: State, s': State, j: JobId, w: WorkerId, q: Path) {
    && (forall k :: k != j ==> (k in s'.jobs <==> k in s.jobs) && (k in s.jobs ==> s'.jobs[k] == s.jobs[k]))
    && (forall v :: v != w ==> (v in s'.workers <==> v in s.workers) && (v in s.workers ==> s'.workers[v] == s.workers[v]))
    && (forall p :: p != q ==> (p in s'.files <==> p in s.files) && (p in s.files ==> s'.files[p] == s.files[p]))
    && s.tokens <= s'.tokens && s.paths <= s'.paths && s.lost <= s'.lost
    && (forall p :: p != q ==> (p in s'.stray <==> p in s.stray))
    && (j in s.jobs ==> j in s'.jobs && s'.jobs[j].scope == s.jobs[j].scope && s'.jobs[j].owner == s.jobs[j].owner)
    && (forall d :: d in s'.readers ==> d in s.readers && s'.readers[d] == s.readers[d])
  }

  /** Nobody but job j and worker w has anything to do with the file q. */
  ghost predicate Private(s: State, j: JobId, w: WorkerId, q: Path) {
    && (forall k :: k in s.jobs && k != j ==> s.jobs[k].path != Some(q))
    && (forall v :: v in s.workers && v != w && s.workers[v].Built? ==> s.workers[v].path != q)
  }

  /** No download has a copy that names q. */
  ghost predicate Uncopied(s: State, q: Path) {
    forall d :: d in s.readers ==> s.readers[d].copy.path != Some(q)
  }

  ghost predicate NewJobOk(s: State, s': State, j: JobId, w: WorkerId) {
    j in s'.jobs ==>
      var job := s'.jobs[j];
      && JobOk(s', job)
      && (job.token.Some? ==> (j in s.jobs && s.jobs[j].token == job.token) || job.token.value !in s.tokens)
      && (job.path.Some? ==>
            || (j in s.jobs && s.jobs[j].path == job.path)
            || (w in s.workers && s.workers[w].Built? && job.path == Some(s.workers[w].path) && w !in s'.workers))
  }

  ghost predicate NewWorkerOk(s: State, s': State, j: JobId, w: WorkerId) {
    w in s'.workers ==>
      var wk := s'.workers[w];
      && WorkerOk(s', wk)
      && ((w in s.workers && s.workers[w].token == wk.token && s.workers[w].job == wk.job) || wk.token !in s.tokens)
      && (wk.Built? ==> (w in s.workers && s.workers[w] == wk) || wk.path !in s.paths)
      && (j in s'.jobs && s'.jobs[j].token == Some(wk.token) ==> wk.job == j)
  }

  lemma KeepsJobs(s: State, s': State, j: JobId, w: WorkerId, q: Path)
    requires Inv(s) && OthersSame(s, s', j, w, q) && Private(s, j, w, q) && NewJobOk(s, s', j, w)
    ensures JobsOk(s')
  {
    forall k | k in s'.jobs ensures JobOk(s', s'.jobs[k]) {
      if k != j { assert JobOk(s, s.jobs[k]); }
    }
    forall k | k in s'.jobs && k != j && j in s'.jobs
      ensures s'.jobs[j].token.Some? ==> s'.jobs[j].token != s'.jobs[k].token
      ensures s'.jobs[j].path.Some? ==> s'.jobs[j].path != s'.jobs[k].path
    {
      assert JobOk(s, s.jobs[k]);
    }
  }

  lemma KeepsWorkerPairs(s: State, s': State, j: JobId, w: WorkerId, q: Path)
    requires Inv(s) && OthersSame(s, s', j, w, q) && NewWorkerOk(s, s', j, w)
    ensures forall v, u :: v in s'.workers && u in s'.workers && v != u ==>
                             && s'.workers[v].token != s'.workers[u].token
                             && (s'.workers[v].Built? && s'.workers[u].Built? ==> s'.workers[v].path != s'.workers[u].path)
  {
    hide JobsOk, FilesOk, ReadersOk, JobOk;
    forall v, u | v in s'.workers && u in s'.workers && v != u
      ensures s'.workers[v].token != s'.workers[u].token
      ensures s'.workers[v].Built? && s'.workers[u].Built? ==> s'.workers[v].path != s'.workers[u].path
    {
      if v != w { assert WorkerOk(s, s.workers[v]); }
      if u != w { assert WorkerOk(s, s.workers[u]); }
    }
  }

  lemma KeepsWorkerJobs(s: State, s': State, j: JobId, w: WorkerId, q: Path)
    requires Inv(s) && OthersSame(s, s', j, w, q) && NewJobOk(s, s', j, w) && NewWorkerOk(s, s', j, w)
    ensures forall v, k :: v in s'.workers && k in s'.jobs ==>
                             && (s'.jobs[k].token == Some(s'.workers[v].token) ==> s'.workers[v].job == k)
                             && (s'.workers[v].Built? ==> s'.jobs[k].path != Some(s'.workers[v].path))
  {
    forall v, k | v in s'.workers && k in s'.jobs
      ensures s'.jobs[k].token == Some(s'.workers[v].token) ==> s'.workers[v].job == k
      ensures s'.workers[v].Built? ==> s'.jobs[k].path != Some(s'.workers[v].path)
    {
      if v != w { assert WorkerOk(s, s.workers[v]); }
      if k in s.jobs { assert JobOk(s, s.jobs[k]); }
    }
  }

  lemma KeepsWorkers(s: State, s': State, j: JobId, w: WorkerId, q: Path)
    requires Inv(s) && OthersSame(s, s', j, w, q) && Private(s, j, w, q)
    requires NewJobOk(s, s', j, w) && NewWorkerOk(s, s', j, w)
    ensures WorkersOk(s')
  {
    forall v | v in s'.workers ensures WorkerOk(s', s'.workers[v]) {
      if v != w { assert WorkerOk(s, s.workers[v]); }
    }
    KeepsWorkerPairs(s, s', j, w, q);
    KeepsWorkerJobs(s, s', j, w, q);
  }

  predicate StillNames(job: Job, job': Job) {
    job'.path == job.path && (job'.status.Canceled? ==> job.status.Canceled?)
  }

  lemma KeepsFiles(s: State, s': State, j: JobId, w: WorkerId, q: Path)
    requires Inv(s) && OthersSame(s, s', j, w, q)
    requires Sane(s')
    requires q in s'.files ==> OfRow(s'.jobs, q) || HeldByWorker(s'.workers, q) || q in s'.stray
    requires j in s.jobs && s.jobs[j].path.Some? && s.jobs[j].path != Some(q) ==> StillNames(s.jobs[j], s'.jobs[j])
    requires w in s.workers && s.workers[w].Built? ==>
               s.workers[w].path == q || (w in s'.workers && s'.workers[w] == s.workers[w])
    ensures FilesOk(s')
  {
    forall p | p in s'.files ensures OfRow(s'.jobs, p) || HeldByWorker(s'.workers, p) || p in s'.stray {
      if p != q {
        if OfRow(s.jobs, p) {
          var k :| k in s.jobs && s.jobs[k].path == Some(p) && !s.jobs[k].status.Canceled?;
          assert s'.jobs[k].path == Some(p) && !s'.jobs[k].status.Canceled?;
        } else if HeldByWorker(s.workers, p) {
          var v :| v in s.workers && s.workers[v].Built? && s.workers[v].path == p;
          assert s'.workers[v] == s.workers[v];
        }
      }
    }
  }

  lemma KeepsReader(s: State, s': State, j: JobId, w: WorkerId, q: Path, rd: Reader)
    requires Inv(s) && OthersSame(s, s', j, w, q) && NewJobOk(s, s', j, w) && NewWorkerOk(s, s', j, w)
    requires ReaderOk(s, rd) && (rd.copy.path != Some(q) || (q !in s'.files && q !in s'.stray))
    requires j in s.jobs && s.jobs[j].path.Some? && s.jobs[j].path != Some(q) ==> StillNames(s.jobs[j], s'.jobs[j])
    requires w in s.workers && s.workers[w].Built? ==> s.workers[w].path != rd.copy.path.value
    ensures ReaderOk(s', rd)
  {
    hide JobOk, WorkerOk, JobsOk, WorkersOk, FilesOk, ReadersOk;
  }

  lemma KeepsReaders(s: State, s': State, j: JobId, w: WorkerId, q: Path)
    requires Inv(s) && OthersSame(s, s', j, w, q) && NewJobOk(s, s', j, w) && NewWorkerOk(s, s', j, w)
    requires Uncopied(s, q) || (q !in s'.files && q !in s'.stray)
    requires j in s.jobs && s.jobs[j].path.Some? && s.jobs[j].path != Some(q) ==> StillNames(s.jobs[j], s'.jobs[j])
    ensures ReadersOk(s')
  {
    forall d | d in s'.readers ensures ReaderOk(s', s'.readers[d]) {
      assert ReaderOk(s, s.readers[d]);
      hide OthersSame, NewJobOk, NewWorkerOk, JobsOk, WorkersOk, FilesOk;
      KeepsReader(s, s', j, w, q, s.readers[d]);
    }
  }

  lemma Keeps(s: State, s': State, j: JobId, w: WorkerId, q: Path)
    requires Inv(s) && OthersSame(s, s', j, w, q) && Private(s, j, w, q)
    requires NewJobOk(s, s', j, w) && NewWorkerOk(s, s', j, w)
    requires Uncopied(s, q) || (q !in s'.files && q !in s'.stray)
    requires Sane(s')
    requires q in s'.files ==> OfRow(s'.jobs, q) || HeldByWorker(s'.workers, q) || q in s'.stray
    requires j in s.jobs && s.jobs[j].path.Some? && s.jobs[j].path != Some(q) ==> StillNames(s.jobs[j], s'.jobs[j])
    requires w in s.workers && s.workers[w].Built? ==>
               s.workers[w].path == q || (w in s'.workers && s'.workers[w] == s.workers[w])
    ensures Inv(s')
  {
    KeepsJobs(s, s', j, w, q);
    KeepsWorkers(s, s', j, w, q);
    KeepsFiles(s, s', j, w, q);
    KeepsReaders(s, s', j, w, q);
  }

  lemma {:induction false} UnusedId(ids: set<nat>) returns (x: nat)
    ensures x !in ids && forall i :: i in ids ==> i < x
  {
    x := 0;
    var rest := ids;
    while rest != {}
      invariant rest <= ids && forall i :: i in ids && i !in rest ==> i < x
      decreases rest
    {
      var i :| i in rest;
      if x <= i { x := i + 1; }
      rest := rest - {i};
    }
  }

  /** A step on job j and the file q alone. */
  lemma KeepsByJob(s: State, s': State, j: JobId, q: Path)
    requires Inv(s) && s'.workers == s.workers
    requires forall w :: w !in s.workers ==> OthersSame(s, s', j, w, q) && Private(s, j, w, q) && NewJobOk(s, s', j, w)
    requires Uncopied(s, q) || (q !in s'.files && q !in s'.stray)
    requires Sane(s')
    requires q in s'.files ==> OfRow(s'.jobs, q) || q in s'.stray
    requires j in s.jobs ==> j in s'.jobs
    requires j in s.jobs && s.jobs[j].path.Some? && s.jobs[j].path != Some(q) ==> StillNames(s.jobs[j], s'.jobs[j])
    ensures Inv(s')
  {
    var w := UnusedId(s.workers.Keys);
    Keeps(s, s', j, w, q);
  }

  lemma KeepsCreate(s: State, j: JobId, owner: UserId, scope: Option<seq<CompanyId>>, shapeOk: bool)
    requires Inv(s) && Enabled(s, Create(j, owner, scope, shapeOk))
    ensures Inv(Apply(s, Create(j, owner, scope, shapeOk)))
  {
    var s' := Apply(s, Create(j, owner, scope, shapeOk));
    var q := UnusedId(s.paths);
    forall w | w !in s.workers ensures Private(s, j, w, q) && Uncopied(s, q) { UnusedIsPrivate(s, j, w, q); }
    var v := UnusedId(s.workers.Keys);
    assert Uncopied(s, q);
    hide Private, Uncopied, JobsOk, WorkersOk, ReadersOk;
    KeepsByJob(s, s', j, q);
  }

  lemma KeepsClaim(s: State, w: WorkerId, j: JobId, stale: bool, token: Token)
    requires Inv(s) && Enabled(s, Claim(w, j, stale, token))
    ensures Inv(Apply(s, Claim(w, j, stale, token)))
  {
    var s' := Apply(s, Claim(w, j, stale, token));
    var q := UnusedId(s.paths);
    forall k | k in s.jobs ensures s.jobs[k].path != Some(q) && s.jobs[k].token != Some(token) { assert JobOk(s, s.jobs[k]); }
    forall v | v in s.workers ensures s.workers[v].Built? ==> s.workers[v].path != q { assert WorkerOk(s, s.workers[v]); }
    UnusedIsPrivate(s, j, w, q);
    hide ReadersOk, ReaderOk, FilesOk, Private, Uncopied;
    Keeps(s, s', j, w, q);
  }

  lemma BuildFrame(s: State, w: WorkerId, path: Path)
    requires Enabled(s, Build(w, path))
    ensures OthersSame(s, Apply(s, Build(w, path)), s.workers[w].job, w, path)
  {
  }

  lemma BuildsWorker(s: State, w: WorkerId, path: Path)
    requires Inv(s) && Enabled(s, Build(w, path))
    ensures var s' := Apply(s, Build(w, path));
            NewWorkerOk(s, s', s.workers[w].job, w) && NewJobOk(s, s', s.workers[w].job, w) && HeldByWorker(s'.workers, path)
  {
    var s' := Apply(s, Build(w, path));
    assert WorkerOk(s, s.workers[w]) && JobOk(s, s.jobs[s.workers[w].job]);
    assert s'.workers[w].path == path;
    hide JobsOk, FilesOk, ReadersOk;
  }

  lemma KeepsBuild(s: State, w: WorkerId, path: Path)
    requires Inv(s) && Enabled(s, Build(w, path))
    ensures Inv(Apply(s, Build(w, path)))
  {
    var s' := Apply(s, Build(w, path));
    var j := s.workers[w].job;
    UnusedIsPrivate(s, j, w, path);
    BuildFrame(s, w, path);
    BuildsWorker(s, w, path);
    hide Private, Uncopied, JobsOk, WorkersOk, ReadersOk, OthersSame, NewJobOk, NewWorkerOk;
    Keeps(s, s', j, w, path);
  }

  lemma KeepsTearBuild(s: State, w: WorkerId, path: Path)
    requires Inv(s) && Enabled(s, TearBuild(w, path))
    ensures Inv(Apply(s, TearBuild(w, path)))
  {
    var s' := Apply(s, TearBuild(w, path));
    var j := UnusedId(s.jobs.Keys);
    UnusedIsPrivate(s, j, 0, path);
    forall v | v !in s.workers ensures Private(s, j, v, path) && Uncopied(s, path) { UnusedIsPrivate(s, j, v, path); }
    hide Private, Uncopied, JobsOk, WorkersOk, ReadersOk;
    KeepsByJob(s, s', j, path);
  }

  /** A path that was never handed out is nobody's. */
  lemma UnusedIsPrivate(s: State, j: JobId, w: WorkerId, q: Path)
    requires JobsOk(s) && WorkersOk(s) && ReadersOk(s) && q !in s.paths
    ensures Private(s, j, w, q) && Uncopied(s, q)
  {
    forall d | d in s.readers ensures s.readers[d].copy.path != Some(q) { assert ReaderOk(s, s.readers[d]); }
    forall k | k in s.jobs ensures s.jobs[k].path != Some(q) { assert JobOk(s, s.jobs[k]); }
    forall v | v in s.workers && s.workers[v].Built? ensures s.workers[v].path != q { assert WorkerOk(s, s.workers[v]); }
  }

  /** A worker without a file goes away. */
  lemma KeepsLeaving(s: State, w: WorkerId)
    requires Inv(s) && w in s.workers && s.workers[w].Claimed?
    ensures Inv(s.(workers := s.workers - {w}))
  {
    var j := UnusedId(s.jobs.Keys);
    var q := UnusedId(s.paths);
    UnusedIsPrivate(s, j, w, q);
    hide Private, Uncopied, JobsOk, WorkersOk, ReadersOk;
    Keeps(s, s.(workers := s.workers - {w}), j, w, q);
  }

  /** The current worker gives up: its job, which has no file, fails. */
  lemma KeepsGivingUp(s: State, w: WorkerId)
    requires Inv(s) && Enabled(s, GiveUp(w)) && Current(s.jobs[s.workers[w].job], s.workers[w].token)
    ensures Inv(Apply(s, GiveUp(w)))
  {
    var j := s.workers[w].job;
    var q := UnusedId(s.paths);
    UnusedIsPrivate(s, j, w, q);
    assert JobOk(s, s.jobs[j]);
    var failed := s.jobs[j].(status := Failed, token := None, path := None, sha := None);
    var s' := s.(workers := s.workers - {w}, jobs := s.jobs[j := failed]);
    assert Apply(s, GiveUp(w)) == s';
    hide Private, Uncopied, JobsOk, WorkersOk, ReadersOk, WorkerOk, Apply, Enabled;
    Keeps(s, s', j, w, q);
  }

  lemma KeepsGiveUp(s: State, w: WorkerId)
    requires Inv(s) && Enabled(s, GiveUp(w))
    ensures Inv(Apply(s, GiveUp(w)))
  {
    hide Inv;
    if Current(s.jobs[s.workers[w].job], s.workers[w].token) { KeepsGivingUp(s, w); } else { KeepsLeaving(s, w); }
  }

  lemma KeepsFinish(s: State, w: WorkerId)
    requires Inv(s) && Enabled(s, Finish(w))
    ensures Inv(Apply(s, Finish(w)))
  {
    var s' := ApplyFinish(s, w);
    var wk := s.workers[w];
    var job := s.jobs[wk.job];
    assert WorkerOk(s, wk) && JobOk(s, job);
    FinishFrame(s, w);
    BuiltIsPrivate(s, w);
    FinishesJob(s, w);
    hide OthersSame, Private, NewJobOk, JobsOk, WorkersOk, JobOk, WorkerOk;
    if !Current(job, wk.token) {
      assert s'.jobs == s.jobs;
      Keeps(s, s', wk.job, w, wk.path);
    } else if s'.jobs[wk.job].status.Ready? {
      assert OfRow(s'.jobs, wk.path);
      Keeps(s, s', wk.job, w, wk.path);
    } else {
      Keeps(s, s', wk.job, w, wk.path);
    }
  }

  /** The file of a finished build belongs to nobody else. */
  lemma BuiltIsPrivate(s: State, w: WorkerId)
    requires WorkersOk(s) && ReadersOk(s) && w in s.workers && s.workers[w].Built?
    ensures Private(s, s.workers[w].job, w, s.workers[w].path) && Uncopied(s, s.workers[w].path)
  {
    forall d | d in s.readers ensures s.readers[d].copy.path != Some(s.workers[w].path) {
      assert ReaderOk(s, s.readers[d]);
    }
  }

  lemma FinishFrame(s: State, w: WorkerId)
    requires Enabled(s, Finish(w))
    ensures OthersSame(s, ApplyFinish(s, w), s.workers[w].job, w, s.workers[w].path)
  {
  }

  lemma FinishesJob(s: State, w: WorkerId)
    requires Inv(s) && Enabled(s, Finish(w))
    ensures NewJobOk(s, ApplyFinish(s, w), s.workers[w].job, w)
  {
    assert WorkerOk(s, s.workers[w]) && JobOk(s, s.jobs[s.workers[w].job]);
    hide JobsOk, WorkersOk, FilesOk;
  }

  /** A worker that dies between build and finish takes its file along, or leaves it as a stray. */
  lemma KeepsDieBuilt(s: State, s': State, w: WorkerId, p: Path)
    requires Inv(s) && w in s.workers && s.workers[w].Built? && s.workers[w].path == p
    requires s' == s.(workers := s.workers - {w}, files := s.files - {p})
             || s' == s.(workers := s.workers - {w}, stray := s.stray + {p})
    ensures Inv(s')
  {
    var j := UnusedId(s.jobs.Keys);
    assert WorkerOk(s, s.workers[w]);
    BuiltIsPrivate(s, w);
    assert Private(s, j, w, p);
    hide JobsOk, ReadersOk, Uncopied, WorkersOk, Private, WorkerOk;
    Keeps(s, s', j, w, p);
  }

  lemma KeepsDie(s: State, w: WorkerId, unlinked: bool)
    requires Inv(s) && Enabled(s, Die(w, unlinked))
    ensures Inv(Apply(s, Die(w, unlinked)))
  {
    hide Inv;
    if s.workers[w].Built? { KeepsDieBuilt(s, Apply(s, Die(w, unlinked)), w, s.workers[w].path); } else { KeepsLeaving(s, w); }
  }

  /** The row of job j changes, and the file q, which is its own or was, goes away. */
  lemma KeepsWithdrawalOf(s: State, s': State, j: JobId, q: Path)
    requires Inv(s) && j in s.jobs && s'.workers == s.workers && s'.tokens == s.tokens && s'.paths == s.paths
    requires s'.stray == s.stray && s.lost <= s'.lost && Sane(s') && s'.visible == s.visible && s'.capable == s.capable
    requires forall d :: d in s'.readers ==> d in s.readers && s'.readers[d] == s.readers[d]
    requires j in s'.jobs && s'.jobs == s.jobs[j := s'.jobs[j]]
    requires s'.jobs[j].scope == s.jobs[j].scope && s'.jobs[j].owner == s.jobs[j].owner
    requires s'.files == s.files - {q} && q !in s.stray
    requires forall w :: w !in s.workers ==> Private(s, j, w, q)
    requires JobOk(s', s'.jobs[j]) && (s'.jobs[j].path.Some? ==> s'.jobs[j].path == s.jobs[j].path)
    requires s.jobs[j].path.Some? && s.jobs[j].path != Some(q) ==> StillNames(s.jobs[j], s'.jobs[j])
    requires s'.jobs[j].token.Some? ==> s'.jobs[j].token == s.jobs[j].token
    ensures Inv(s')
  {
    assert JobOk(s, s.jobs[j]);
    forall w ensures OthersSame(s, s', j, w, q) && NewJobOk(s, s', j, w) {}
    hide JobsOk, WorkersOk, FilesOk, ReadersOk, Private, JobOk, OthersSame, NewJobOk;
    KeepsByJob(s, s', j, q);
  }

  /** The row of job j changes, and the file it names (if any) goes away. */
  lemma KeepsWithdrawal(s: State, s': State, j: JobId)
    requires Inv(s) && j in s.jobs && s'.workers == s.workers && s'.tokens == s.tokens && s'.paths == s.paths
    requires s'.stray == s.stray && s.lost <= s'.lost && Sane(s') && s'.visible == s.visible && s'.capable == s.capable
    requires s'.readers == s.readers
    requires j in s'.jobs && s'.jobs == s.jobs[j := s'.jobs[j]]
    requires s'.jobs[j].scope == s.jobs[j].scope && s'.jobs[j].owner == s.jobs[j].owner
    requires s'.files == Unlinked(s.files, s.jobs[j].path)
    requires JobOk(s', s'.jobs[j]) && (s'.jobs[j].path.Some? ==> s'.jobs[j].path == s.jobs[j].path)
    requires s'.jobs[j].token.Some? ==> s'.jobs[j].token == s.jobs[j].token
    ensures Inv(s')
  {
    assert JobOk(s, s.jobs[j]);
    var q;
    if s.jobs[j].path.Some? { q := s.jobs[j].path.value; } else { q := UnusedId(s.paths); }
    forall k | k in s.jobs && k != j ensures s.jobs[k].path != Some(q) { assert JobOk(s, s.jobs[k]); }
    forall v | v in s.workers && s.workers[v].Built? ensures s.workers[v].path != q { assert WorkerOk(s, s.workers[v]); }
    assert q !in s.stray && s'.files == s.files - {q};
    forall w | w !in s.workers ensures Private(s, j, w, q) {}
    hide JobsOk, WorkersOk, FilesOk, ReadersOk, Private, JobOk;
    KeepsWithdrawalOf(s, s', j, q);
  }

  lemma WithdrawnJobOk(s: State, s': State, j: JobId, st: Status)
    requires j in s.jobs && JobOk(s, s.jobs[j]) && (st.Expired? || st.Failed?)
    requires s'.tokens == s.tokens && s'.paths == s.paths && s'.stray == s.stray
    ensures JobOk(s', Withdrawn(s.jobs[j], st))
  {
  }

  lemma KeepsLateWithdrawal(s: State, s': State, d: ReaderId, st: Status)
    requires Inv(s) && d in s.readers && s.readers[d].job in s.jobs && (st.Expired? || st.Failed?)
    requires s.readers[d].copy.path.Some?
    requires var rd := s.readers[d];
             s' == s.(readers := s.readers - {d}, files := s.files - {rd.copy.path.value},
                      jobs := s.jobs[rd.job := Withdrawn(s.jobs[rd.job], st)])
    ensures Inv(s')
  {
    var rd := s.readers[d];
    var p := rd.copy.path.value;
    assert ReaderOk(s, rd) && JobOk(s, s.jobs[rd.job]);
    WithdrawnJobOk(s, s', rd.job, st);
    forall w | w !in s.workers ensures Private(s, rd.job, w, p) {}
    hide JobsOk, WorkersOk, ReadersOk, Private, JobOk;
    KeepsWithdrawalOf(s, s', rd.job, p);
  }

  lemma KeepsCloseDownload(s: State, d: ReaderId, expired: bool)
    requires Inv(s) && Enabled(s, CloseDownload(d, expired))
    ensures Inv(Apply(s, CloseDownload(d, expired)))
  {
    assert ReaderOk(s, s.readers[d]);
    var s' := ApplyClose(s, d, expired);
    hide Inv, ReaderOk, AuthorizedSnapshot;
    match Judge(s, s.readers[d].copy, expired)
    case Serve(_) => FewerReaders(s, s');
    case Withdraw(st, remove) =>
      assert !remove ==> s.files - {s.readers[d].copy.path.value} == s.files;
      KeepsLateWithdrawal(s, s', d, st);
  }

  lemma FewerReaders(s: State, s': State)
    requires Inv(s) && s' == s.(readers := s'.readers)
    requires forall d :: d in s'.readers ==> d in s.readers && s'.readers[d] == s.readers[d]
    ensures Inv(s')
  {
    SameButReaders(s, s');
    forall d | d in s'.readers ensures ReaderOk(s', s'.readers[d]) { assert ReaderOk(s, s.readers[d]); }
  }

  lemma SameButReaders(s: State, s': State)
    requires Inv(s) && s' == s.(readers := s'.readers, visible := s'.visible, capable := s'.capable)
    ensures JobsOk(s') && WorkersOk(s') && FilesOk(s')
  {
    forall j | j in s'.jobs ensures JobOk(s', s'.jobs[j]) { assert JobOk(s, s.jobs[j]); }
    forall w | w in s'.workers ensures WorkerOk(s', s'.workers[w]) { assert WorkerOk(s, s.workers[w]); }
  }

  lemma KeepsSetAccess(s: State, u: UserId, ids: set<CompanyId>, mayExport: bool)
    requires Inv(s)
    ensures Inv(Apply(s, SetAccess(u, ids, mayExport)))
  {
    var s' := Apply(s, SetAccess(u, ids, mayExport));
    SameButReaders(s, s');
    forall d | d in s'.readers ensures ReaderOk(s', s'.readers[d]) { assert ReaderOk(s, s.readers[d]); }
  }

  lemma KeepsOpenDownload(s: State, d: ReaderId, j: JobId)
    requires Inv(s) && Enabled(s, OpenDownload(d, j))
    ensures Inv(Apply(s, OpenDownload(d, j)))
  {
    var s' := Apply(s, OpenDownload(d, j));
    SameButReaders(s, s');
    assert JobOk(s, s.jobs[j]);
    assert CopyOk(s', j, s.jobs[j].path.value) by {
      forall k | k in s.jobs && k != j ensures s.jobs[k].path != s.jobs[j].path {}
    }
    forall c | c in s'.readers ensures ReaderOk(s', s'.readers[c]) {
      if c != d { assert ReaderOk(s, s.readers[c]); }
    }
  }

  lemma KeepsLoseFile(s: State, j: JobId)
    requires Inv(s) && Enabled(s, LoseFile(j))
    ensures Inv(Apply(s, LoseFile(j)))
  {
    assert JobOk(s, s.jobs[j]);
    hide JobsOk, WorkersOk, ReadersOk, FilesOk;
    KeepsWithdrawal(s, Apply(s, LoseFile(j)), j);
  }

  lemma KeepsCancel(s: State, j: JobId)
    requires Inv(s) && Enabled(s, Cancel(j))
    ensures Inv(Apply(s, Cancel(j)))
  {
    assert JobOk(s, s.jobs[j]);
    hide JobsOk, WorkersOk, ReadersOk, FilesOk;
    KeepsWithdrawal(s, Apply(s, Cancel(j)), j);
  }

  lemma KeepsRetry(s: State, j: JobId)
    requires Inv(s) && Enabled(s, Retry(j))
    ensures Inv(Apply(s, Retry(j)))
  {
    assert JobOk(s, s.jobs[j]);
    hide JobsOk, WorkersOk, ReadersOk, FilesOk;
    KeepsWithdrawal(s, Apply(s, Retry(j)), j);
  }

  /** Every event keeps the invariant, late downloads included. */
  lemma StepKeepsInv(s: State, e: Event)
    requires Inv(s) && Enabled(s, e)
    ensures Inv(Apply(s, e))
  {
    match e
    case Create(j, owner, scope, shapeOk) => KeepsCreate(s, j, owner, scope, shapeOk);
    case SetAccess(u, ids, mayExport) => KeepsSetAccess(s, u, ids, mayExport);
    case Claim(w, j, stale, token) => KeepsClaim(s, w, j, stale, token);
    case Build(w, path) => KeepsBuild(s, w, path);
    case TearBuild(w, path) => KeepsTearBuild(s, w, path);
    case GiveUp(w) => KeepsGiveUp(s, w);
    case Finish(w) => KeepsFinish(s, w);
    case Die(w, unlinked) => KeepsDie(s, w, unlinked);
    case Cancel(j) => KeepsCancel(s, j);
    case Retry(j) => KeepsRetry(s, j);
    case LoseFile(j) => KeepsLoseFile(s, j);
    case OpenDownload(d, j) => KeepsOpenDownload(s, d, j);
    case CloseDownload(d, expired) => KeepsCloseDownload(s, d, expired);
  }

  /** Owner and scope of a job never change. */
  lemma ScopeIsFixed(s: State, e: Event, j: JobId)
    requires Enabled(s, e) && j in s.jobs
    ensures var s' := Apply(s, e);
            j in s'.jobs && s'.jobs[j].owner == s.jobs[j].owner && s'.jobs[j].scope == s.jobs[j].scope
  {
    match e
    case Finish(w) =>
    case CloseDownload(d, expired) =>
    case _ =>
  }
}
