/**
 The export views and the worker loop in the source's own form: methods that
 lock a row, reassign its columns and unlink files. Each is proved to perform
 exactly one event of the ExportJobs protocol, or nothing where it refuses.
 */
module ExportService {
  import opened Wrappers
  import opened ExportJobs
  import opened ExportOutcomes

  datatype Reply = Served(content: Content) | Code(http: nat)

  class CustomerExports {
    var jobs: map<JobId, Job>
    var files: map<Path, Content>
    var workers: map<WorkerId, Worker>
    var readers: map<ReaderId, Reader>
    var visible: map<UserId, set<CompanyId>>
    var capable: set<UserId>
    ghost var tokens: set<Token>
    ghost var paths: set<Path>
    ghost var lost: set<Path>
    ghost var stray: set<Path>

    constructor ()
      ensures View() == EMPTY
    {
      jobs, files, workers, readers, visible, capable := map[], map[], map[], map[], map[], {};
      tokens, paths, lost, stray := {}, {}, {}, {};
    }

    ghost function View(): State
      reads this
    {
      State(jobs, files, workers, readers, visible, capable, tokens, paths, lost, stray)
    }

    method RemovePrivateFile(job: Job)
      modifies this`files
      ensures files == Unlinked(old(files), job.path)
    {
      if job.path.Some? && job.path.value in files {
        files := files - {job.path.value};
      }
    }

    /** _authorized_snapshot: every id of the scope, positive, listed once and still visible. */
    method Snapshot(job: Job) returns (companies: Option<set<CompanyId>>)
      ensures companies == AuthorizedSnapshot(View(), job)
      ensures companies.Some? <==> ScopeHolds(View(), job)
      ensures companies.Some? ==> forall c :: c in companies.value <==> c in job.scope.value
    {
      SnapshotExactly(View(), job);
      if job.scope.None? || job.scope.value == [] { return None; }
      var ids := job.scope.value;
      var seen: set<CompanyId> := {};
      var allowed := if job.owner in visible then visible[job.owner] else {};
      var i := 0;
      while i < |ids|
        invariant 0 <= i <= |ids|
        invariant forall c :: c in seen <==> exists k :: 0 <= k < i && ids[k] == c
        invariant forall k, l :: 0 <= k < l < i ==> ids[k] != ids[l]
        invariant forall k :: 0 <= k < i ==> ids[k] > 0 && ids[k] in allowed
      {
        if ids[i] in seen || ids[i] <= 0 || ids[i] !in allowed {
          assert ids[i] in ids && ids[i] in Ids(ids);
          return None;
        }
        seen := seen + {ids[i]};
        i := i + 1;
      }
      forall c | c in ids ensures c in seen {
        var k :| 0 <= k < |ids| && ids[k] == c;
      }
      forall c | c in seen ensures c in Ids(ids) {
        var k :| 0 <= k < |ids| && ids[k] == c;
        assert ids[k] in ids;
      }
      assert seen == Ids(ids);
      return Some(seen);
    }

    method ClaimJob(w: WorkerId, j: JobId, stale: bool, token: Token) returns (claimed: bool)
      requires w !in workers && token !in tokens
      modifies this
      ensures claimed <==> j in old(jobs) && Claimable(old(jobs)[j], stale) && old(jobs)[j].owner in capable
      ensures View() == if j in old(jobs) && Claimable(old(jobs)[j], stale)
                        then Apply(old(View()), Claim(w, j, stale, token)) else old(View())
    {
      if j !in jobs { return false; }
      var job := jobs[j];
      if !(job.status.Pending? || (job.status.Processing? && stale)) { return false; }
      tokens := tokens + {token};
      if job.owner !in capable {
        jobs := jobs[j := job.(status := Failed, token := None)];
        return false;
      }
      jobs := jobs[j := job.(status := Processing, token := Some(token))];
      workers := workers[w := Claimed(j, token)];
      return true;
    }

    method FailProcessingJob(j: JobId, token: Token)
      modifies this`jobs, this`files
      ensures j in old(jobs) && Current(old(jobs)[j], token) ==>
                && files == Unlinked(old(files), old(jobs)[j].path)
                && jobs == old(jobs)[j := old(jobs)[j].(status := Failed, token := None, path := None, sha := None)]
      ensures !(j in old(jobs) && Current(old(jobs)[j], token)) ==> jobs == old(jobs) && files == old(files)
    {
      if j !in jobs { return; }
      var job := jobs[j];
      if !job.status.Processing? || job.token != Some(token) { return; }
      RemovePrivateFile(job);
      jobs := jobs[j := job.(status := Failed, token := None, path := None, sha := None)];
    }

    /** The part of process_customer_export_job between the claim and the second lock. */
    method Render(w: WorkerId, path: Path) returns (built: bool)
      requires w in workers && workers[w].Claimed? && workers[w].job in jobs && path !in paths
      modifies this
      ensures built <==> Enabled(old(View()), Build(w, path))
      ensures View() == Apply(old(View()), if built then Build(w, path) else GiveUp(w))
    {
      var wk := workers[w];
      var job := jobs[wk.job];
      var companies := Snapshot(job);
      if !job.shapeOk || companies.None? {
        FailProcessingJob(wk.job, wk.token);
        workers := workers - {w};
        return false;
      }
      var content := Workbook(companies.value);
      paths := paths + {path};
      files := files[path := content];
      workers := workers[w := Built(wk.job, wk.token, path, Sha256(content))];
      return true;
    }

    /** The closing transaction of process_customer_export_job. */
    method FinishJob(w: WorkerId) returns (ready: bool)
      requires Enabled(View(), Finish(w))
      modifies this
      ensures View() == Apply(old(View()), Finish(w))
      ensures ready <==>
                var wk := old(workers)[w];
                && Current(old(jobs)[wk.job], wk.token) && old(jobs)[wk.job].owner in capable
                && AuthorizedSnapshot(old(View()), old(jobs)[wk.job]).Some?
    {
      var wk := workers[w];
      var locked := jobs[wk.job];
      workers := workers - {w};
      if !locked.status.Processing? || locked.token != Some(wk.token) {
        files := files - {wk.path};
        return false;
      }
      var companies := Snapshot(locked);
      if locked.owner !in capable || companies.None? {
        files := files - {wk.path};
        jobs := jobs[wk.job := locked.(status := Failed, token := None)];
        return false;
      }
      jobs := jobs[wk.job := locked.(status := Ready, token := None, path := Some(wk.path), sha := Some(wk.sha))];
      return true;
    }

    method CancelJob(j: JobId) returns (reply: Reply)
      modifies this`jobs, this`files
      ensures reply == Code(404) <==> j !in old(jobs)
      ensures View() == if Enabled(old(View()), Cancel(j)) then Apply(old(View()), Cancel(j)) else old(View())
    {
      if j !in jobs { return Code(404); }
      var job := jobs[j];
      if !(job.status.Pending? || job.status.Processing? || job.status.Ready?) { return Code(302); }
      RemovePrivateFile(job);
      jobs := jobs[j := job.(status := Canceled, token := None)];
      return Code(302);
    }

    method RetryJob(j: JobId) returns (reply: Reply)
      modifies this`jobs, this`files
      ensures reply == Code(404) <==> j !in old(jobs)
      ensures View() == if Enabled(old(View()), Retry(j)) then Apply(old(View()), Retry(j)) else old(View())
    {
      if j !in jobs { return Code(404); }
      var job := jobs[j];
      if !(job.status.Failed? || job.status.Expired?) { return Code(302); }
      var companies := Snapshot(job);
      if companies.None? || !job.shapeOk { return Code(302); }
      RemovePrivateFile(job);
      jobs := jobs[j := job.(status := Pending, token := None, path := None, sha := None)];
      return Code(302);
    }

    /** A download reads its row without a lock ... */
    method OpenJob(d: ReaderId, j: JobId) returns (reply: Option<Reply>)
      requires d !in readers
      modifies this`readers
      ensures reply == if j !in jobs then Some(Code(404)) else if !jobs[j].status.Ready? then Some(Code(410)) else None
      ensures View() == if reply.None? then Apply(old(View()), OpenDownload(d, j)) else old(View())
    {
      if j !in jobs { return Some(Code(404)); }
      if !jobs[j].status.Ready? { return Some(Code(410)); }
      readers := readers[d := Reader(j, jobs[j])];
      return None;
    }

    /** save(update_fields=['status']): refused by the table for a row that is being processed. */
    method SaveStatus(j: JobId, status: Status, code: nat) returns (reply: Reply)
      requires j in jobs
      modifies this`jobs
      ensures jobs == old(jobs)[j := Withdrawn(old(jobs)[j], status)]
      ensures reply == Code(if old(jobs)[j].status.Processing? then 500 else code)
    {
      if jobs[j].status.Processing? {
        assert jobs[j := jobs[j]] == jobs;
        return Code(500);
      }
      jobs := jobs[j := jobs[j].(status := status)];
      return Code(code);
    }

    /** ... and answers from that copy, writing only the status column back. */
    method AnswerDownload(d: ReaderId, expired: bool) returns (reply: Reply)
      requires Enabled(View(), CloseDownload(d, expired))
      modifies this`jobs, this`files, this`readers
      ensures View() == Apply(old(View()), CloseDownload(d, expired))
      ensures var copy := old(readers)[d].copy;
              var row := old(readers)[d].job;
              && readers == old(readers) - {d}
              && (if Servable(old(View()), copy, expired) then
                    reply == Served(old(files)[copy.path.value]) && jobs == old(jobs) && files == old(files)
                  else
                    && reply == Code(if old(jobs)[row].status == Processing then 500
                                     else if !expired && !ScopeHolds(old(View()), copy) then 403 else 410)
                    && (if old(jobs)[row].status == Processing then jobs == old(jobs)
                        else jobs == old(jobs)[row := old(jobs)[row].(status := if expired then Expired else Failed)])
                    && files == if copy.path.Some? then old(files) - {copy.path.value} else old(files))
    {
      AnswerFollows(View(), d, expired);
      assert d in readers && readers[d].job in jobs;
      var rd := readers[d];
      var job := rd.copy;
      readers := readers - {d};
      var companies := Snapshot(job);
      SameScope(old(View()), View(), job);
      hide Apply, Enabled, Judge, AuthorizedSnapshot, ScopeHolds;
      if expired {
        RemovePrivateFile(job);
        reply := SaveStatus(rd.job, Expired, 410);
        return;
      }
      if companies.None? {
        RemovePrivateFile(job);
        reply := SaveStatus(rd.job, Failed, 403);
        return;
      }
      if !job.shapeOk {
        RemovePrivateFile(job);
        reply := SaveStatus(rd.job, Failed, 410);
        return;
      }
      if job.path.None? || job.path.value !in files {
        reply := SaveStatus(rd.job, Failed, 410);
        return;
      }
      var payload := files[job.path.value];
      if job.sha != Some(Sha256(payload)) {
        RemovePrivateFile(job);
        reply := SaveStatus(rd.job, Failed, 410);
        return;
      }
      return Served(payload);
    }

    /**
     A download that nobody comes between: it serves the file of a ready row
     whose scope is still visible, or withdraws that row, and leaves everything
     else as it is.
     */
    method Download(j: JobId, expired: bool, d: ReaderId) returns (reply: Reply)
      requires d !in readers
      modifies this`jobs, this`files, this`readers
      ensures readers == old(readers)
      ensures j !in old(jobs) ==> reply == Code(404)
      ensures j in old(jobs) && old(jobs)[j].status != Ready ==> reply == Code(410)
      ensures reply.Served? <==> j in old(jobs) && old(jobs)[j].status == Ready && Servable(old(View()), old(jobs)[j], expired)
      ensures reply.Served? ==> reply.content == old(files)[old(jobs)[j].path.value]
      ensures reply.Served? || j !in old(jobs) || old(jobs)[j].status != Ready ==> jobs == old(jobs) && files == old(files)
      ensures j in old(jobs) && old(jobs)[j].status == Ready && !reply.Served? ==>
                && reply == Code(if !expired && !ScopeHolds(old(View()), old(jobs)[j]) then 403 else 410)
                && jobs == old(jobs)[j := old(jobs)[j].(status := if expired then Expired else Failed)]
                && files == if old(jobs)[j].path.Some? then old(files) - {old(jobs)[j].path.value} else old(files)
    {
      var refused := OpenJob(d, j);
      if refused.Some? { return refused.value; }
      SameScope(old(View()), View(), jobs[j]);
      hide ScopeHolds, Enabled, Apply;
      assert Enabled(View(), CloseDownload(d, expired));
      reply := AnswerDownload(d, expired);
    }
  }

  /** Whether a scope holds depends on what its owner may see, and on nothing else. */
  lemma SameScope(s: State, t: State, job: Job)
    requires t.visible == s.visible
    ensures ScopeHolds(t, job) == ScopeHolds(s, job) && AuthorizedSnapshot(t, job) == AuthorizedSnapshot(s, job)
  {
  }

  /** What the write-back of a download leaves, by what it decides. */
  lemma AnswerFollows(s: State, d: ReaderId, expired: bool)
    requires Enabled(s, CloseDownload(d, expired))
    ensures var rd := s.readers[d];
            var t := Apply(s, CloseDownload(d, expired));
            && t == s.(jobs := t.jobs, files := t.files, readers := s.readers - {d})
            && (if Servable(s, rd.copy, expired) then t.jobs == s.jobs && t.files == s.files
                else
                  && (if s.jobs[rd.job].status == Processing then t.jobs == s.jobs
                      else t.jobs == s.jobs[rd.job := s.jobs[rd.job].(status := if expired then Expired else Failed)])
                  && t.files == if rd.copy.path.Some? then s.files - {rd.copy.path.value} else s.files)
  {
    JudgedExactly(s, s.readers[d].copy, expired);
    hide Judge, ScopeHolds, FileHolds;
    var rd := s.readers[d];
    assert s.jobs[rd.job := s.jobs[rd.job]] == s.jobs;
    if rd.copy.path.Some? && rd.copy.path.value !in s.files { assert s.files - {rd.copy.path.value} == s.files; }
  }
}
