/**
 What each operation of an export job leaves in its row and on disk, said in
 terms of the columns themselves.
 */
module ExportOutcomes {
  import opened Wrappers
  import opened ExportJobs

  /** A scope names at least one company, each once and by a positive id, and its owner may see them all. */
  predicate ScopeHolds(s: State, job: Job) {
    && job.scope.Some? && job.scope.value != []
    && (forall i :: 0 <= i < |job.scope.value| ==> job.scope.value[i] > 0)
    && (forall i, k :: 0 <= i < k < |job.scope.value| ==> job.scope.value[i] != job.scope.value[k])
    && job.owner in s.visible && (forall i :: 0 <= i < |job.scope.value| ==> job.scope.value[i] in s.visible[job.owner])
  }

  lemma SnapshotExactly(s: State, job: Job)
    ensures AuthorizedSnapshot(s, job).Some? <==> ScopeHolds(s, job)
    ensures AuthorizedSnapshot(s, job).Some? ==> forall c :: c in AuthorizedSnapshot(s, job).value <==> c in job.scope.value
  {
    if ScopeHolds(s, job) {
      forall i | i in job.scope.value ensures i > 0 && i in Visible(s, job.owner) {
        var k :| 0 <= k < |job.scope.value| && job.scope.value[k] == i;
      }
      assert Ids(job.scope.value) <= Visible(s, job.owner);
    }
    if AuthorizedSnapshot(s, job).Some? {
      var ids := job.scope.value;
      assert Distinct(ids) && ids[0] in Ids(ids);
      forall i | 0 <= i < |ids| ensures ids[i] > 0 && job.owner in s.visible && ids[i] in s.visible[job.owner] {
        assert ids[i] in ids && ids[i] in Ids(ids);
      }
    }
  }

  /** The file of the copy is on disk with the digest the copy names. */
  predicate FileHolds(s: State, copy: Job) {
    copy.path.Some? && copy.path.value in s.files && copy.sha == Some(Sha256(s.files[copy.path.value]))
  }

  predicate Servable(s: State, copy: Job, expired: bool) {
    !expired && ScopeHolds(s, copy) && copy.shapeOk && FileHolds(s, copy)
  }

  /**
   A copy is served exactly when it has not expired, its scope and shape hold and
   its file is intact, and what is served is that file. Otherwise the row expires
   or fails, and the file goes unless it was missing with everything else in order.
   */
  lemma JudgedExactly(s: State, copy: Job, expired: bool)
    ensures var v := Judge(s, copy, expired);
            && (v.Serve? <==> Servable(s, copy, expired))
            && (v.Serve? ==> v.content == s.files[copy.path.value])
            && (v.Withdraw? ==> v.status == if expired then Expired else Failed)
            && (v.Withdraw? ==>
                  (v.remove <==> expired || !ScopeHolds(s, copy) || !copy.shapeOk || (copy.path.Some? && copy.path.value in s.files)))
  {
    SnapshotExactly(s, copy);
    hide AuthorizedSnapshot, ScopeHolds;
  }

  /** The event touches nothing but row j, and of the files at most the one named. */
  ghost predicate OnlyRow(s: State, s': State, j: JobId, gone: Option<Path>) {
    && s'.jobs.Keys == s.jobs.Keys && (forall k :: k in s.jobs && k != j ==> s'.jobs[k] == s.jobs[k])
    && (forall p :: p in s'.files <==> p in s.files && Some(p) != gone) && (forall p :: p in s'.files ==> s'.files[p] == s.files[p])
    && s'.visible == s.visible && s'.capable == s.capable && s'.readers == s.readers
  }

  /** What the owner asked for stays as it was. */
  predicate SameOrder(job: Job, job': Job) {
    job'.owner == job.owner && job'.scope == job.scope && job'.shapeOk == job.shapeOk
  }

  /** A job that waits, or whose worker is stale, is claimed under the given token, or fails where its owner may not export. */
  lemma ClaimGives(s: State, w: WorkerId, j: JobId, stale: bool, token: Token)
    requires Enabled(s, Claim(w, j, stale, token))
    ensures var s' := Apply(s, Claim(w, j, stale, token));
            && OnlyRow(s, s', j, None) && SameOrder(s.jobs[j], s'.jobs[j])
            && (s.jobs[j].status == Pending || (s.jobs[j].status == Processing && stale))
            && s'.jobs[j].path == s.jobs[j].path && s'.jobs[j].sha == s.jobs[j].sha
            && if s.jobs[j].owner in s.capable
               then s'.jobs[j].status == Processing && s'.jobs[j].token == Some(token) && s'.workers == s.workers[w := Claimed(j, token)]
               else s'.jobs[j].status == Failed && s'.jobs[j].token == None && s'.workers == s.workers
  {
  }

  /** Cancelling stops a job that waits, runs or is ready, whatever its worker does, and takes its file. */
  lemma CancelGives(s: State, j: JobId)
    ensures Enabled(s, Cancel(j)) <==> j in s.jobs && s.jobs[j].status in {Pending, Processing, Ready}
    ensures Enabled(s, Cancel(j)) ==>
              var s' := Apply(s, Cancel(j));
              && OnlyRow(s, s', j, s.jobs[j].path) && SameOrder(s.jobs[j], s'.jobs[j])
              && s'.jobs[j].status == Canceled && s'.jobs[j].token == None && s'.workers == s.workers
  {
  }

  /** Retrying queues a failed or expired job again, as if it had never been built, if its scope and shape still hold. */
  lemma RetryGives(s: State, j: JobId)
    ensures Enabled(s, Retry(j)) <==>
              j in s.jobs && s.jobs[j].status in {Failed, Expired} && ScopeHolds(s, s.jobs[j]) && s.jobs[j].shapeOk
    ensures Enabled(s, Retry(j)) ==>
              var s' := Apply(s, Retry(j));
              && OnlyRow(s, s', j, s.jobs[j].path) && SameOrder(s.jobs[j], s'.jobs[j])
              && s'.jobs[j] == Job(s.jobs[j].owner, s.jobs[j].scope, s.jobs[j].shapeOk, Pending, None, None, None)
              && s'.workers == s.workers
  {
    if j in s.jobs { SnapshotExactly(s, s.jobs[j]); }
    hide AuthorizedSnapshot, ScopeHolds;
  }

  /** A build writes one new file with exactly the companies of the scope, and only while the scope and shape hold. */
  lemma BuildGives(s: State, w: WorkerId, path: Path)
    requires w in s.workers && s.workers[w].Claimed? && s.workers[w].job in s.jobs && path !in s.paths
    ensures Enabled(s, Build(w, path)) <==> ScopeHolds(s, s.jobs[s.workers[w].job]) && s.jobs[s.workers[w].job].shapeOk
    ensures Enabled(s, Build(w, path)) ==>
              var s' := Apply(s, Build(w, path));
              && s'.jobs == s.jobs && s'.files.Keys == s.files.Keys + {path}
              && (forall p :: p in s.files && p != path ==> s'.files[p] == s.files[p])
              && s'.files[path].Workbook? && (forall c :: c in s'.files[path].companies <==> c in s.jobs[s.workers[w].job].scope.value)
              && s'.workers == s.workers[w := Built(s.workers[w].job, s.workers[w].token, path, Sha256(s'.files[path]))]
  {
    SnapshotExactly(s, s.jobs[s.workers[w].job]);
    hide AuthorizedSnapshot, ScopeHolds;
  }

  /** A finished build makes the row ready under the built file, for the current claim of an owner who may still have it. */
  lemma FinishGives(s: State, w: WorkerId)
    requires Enabled(s, Finish(w))
    ensures var wk := s.workers[w];
            var job := s.jobs[wk.job];
            var s' := Apply(s, Finish(w));
            var current := job.status == Processing && job.token == Some(wk.token);
            var granted := current && job.owner in s.capable && ScopeHolds(s, job);
            && OnlyRow(s, s', wk.job, if granted then None else Some(wk.path)) && s'.workers == s.workers - {w}
            && SameOrder(job, s'.jobs[wk.job])
            && (if granted then s'.jobs[wk.job] == Job(job.owner, job.scope, job.shapeOk, Ready, None, Some(wk.path), Some(wk.sha))
                else if current then s'.jobs[wk.job] == Job(job.owner, job.scope, job.shapeOk, Failed, None, job.path, job.sha)
                else s'.jobs[wk.job] == job)
  {
    SnapshotExactly(s, s.jobs[s.workers[w].job]);
    hide AuthorizedSnapshot, ScopeHolds;
  }

  /** A worker that gives up fails its job if it still holds the claim, and only then. */
  lemma GiveUpGives(s: State, w: WorkerId)
    requires Enabled(s, GiveUp(w))
    ensures var wk := s.workers[w];
            var job := s.jobs[wk.job];
            var s' := Apply(s, GiveUp(w));
            var current := job.status == Processing && job.token == Some(wk.token);
            && OnlyRow(s, s', wk.job, if current then job.path else None) && s'.workers == s.workers - {w}
            && s'.jobs[wk.job] == if current then Job(job.owner, job.scope, job.shapeOk, Failed, None, None, None) else job
  {
  }
}
