/**
 Two runs in which a download writes back after its row has moved on. A job of
 one company is ready with its file; a download has read the row.
 */
module ExportLate {
  import opened Wrappers
  import opened ExportJobs
  import opened ExportInvariant
  import opened ExportSafety

  ghost predicate Leads(s: State, s': State) {
    exists es :: Possible(s, es) && After(s, es) == s'
  }

  lemma {:induction false} Join(s: State, es: seq<Event>, fs: seq<Event>)
    requires Possible(s, es) && Possible(After(s, es), fs)
    ensures Possible(s, es + fs) && After(s, es + fs) == After(After(s, es), fs)
    decreases |es|
  {
    if es == [] {
      assert es + fs == fs;
    } else {
      Join(Apply(s, es[0]), es[1..], fs);
      assert (es + fs)[1..] == es[1..] + fs;
    }
  }

  lemma Stays(s: State)
    ensures Leads(s, s)
  {
    assert Possible(s, []) && After(s, []) == s;
  }

  lemma Next(s: State, m: State, e: Event)
    requires Leads(s, m) && Enabled(m, e)
    ensures Leads(s, Apply(m, e))
  {
    var es :| Possible(s, es) && After(s, es) == m;
    assert Possible(Apply(m, e), []);
    assert Possible(m, [e]) && After(m, [e]) == Apply(m, e);
    Join(s, es, [e]);
  }

  const ONE := Job(0, Some([1]), true, Ready, None, Some(0), Some(Sha256(Workbook({1}))))

  const START := EMPTY.(jobs := map[0 := ONE], files := map[0 := Workbook({1})], paths := {0},
                        visible := map[0 := {1}], capable := {0})

  lemma StartIsSound()
    ensures Inv(START) && NothingStranded(START)
  {
    assert Ids([1]) == {1};
    assert START.jobs[0].path == Some(0) && OfRow(START.jobs, 0);
  }

  /** A download that read the row before a cancellation overwrites `canceled` afterwards. */
  lemma LateDownloadRevivesCanceled() returns (m: State, s: State)
    ensures Inv(START) && Leads(START, m) && 0 in m.jobs && m.jobs[0].status == Canceled
    ensures Leads(m, s) && 0 in s.jobs && s.jobs[0].status == Expired
  {
    StartIsSound();
    Stays(START);
    hide Leads;
    Next(START, START, OpenDownload(0, 0));
    var reading := START.(readers := map[0 := Reader(0, ONE)]);
    assert Apply(START, OpenDownload(0, 0)) == reading;
    Next(START, reading, Cancel(0));
    m := Apply(reading, Cancel(0));
    Stays(m);
    Next(m, m, CloseDownload(0, true));
    s := Apply(m, CloseDownload(0, true));
  }

  /** Two downloads have read the row; the first one withdrew it, and it was retried. */
  lemma Retried() returns (m: State)
    ensures Leads(START, m)
    ensures m == START.(jobs := map[0 := ONE.(status := Pending, path := None, sha := None)], files := map[],
                        readers := map[1 := Reader(0, ONE)])
  {
    Stays(START);
    hide Leads;
    Next(START, START, OpenDownload(0, 0));
    var one := START.(readers := map[0 := Reader(0, ONE)]);
    assert Apply(START, OpenDownload(0, 0)) == one;
    Next(START, one, OpenDownload(1, 0));
    var two := START.(readers := map[0 := Reader(0, ONE), 1 := Reader(0, ONE)]);
    assert Apply(one, OpenDownload(1, 0)) == two;
    Next(START, two, CloseDownload(0, true));
    var expired := START.(jobs := map[0 := ONE.(status := Expired)], files := map[], readers := map[1 := Reader(0, ONE)]);
    assert Apply(two, CloseDownload(0, true)) == expired;
    assert Ids([1]) == {1};
    Next(START, expired, Retry(0));
    m := Apply(expired, Retry(0));
  }

  lemma Reclaimed() returns (m: State)
    ensures Leads(START, m)
    ensures m == START.(jobs := map[0 := ONE.(status := Processing, token := Some(9), path := None, sha := None)],
                        files := map[], readers := map[1 := Reader(0, ONE)], workers := map[0 := Claimed(0, 9)],
                        tokens := {9})
  {
    var n := Retried();
    hide Leads;
    Next(START, n, Claim(0, 0, false, 9));
    m := Apply(n, Claim(0, 0, false, 9));
  }

  lemma Refinished() returns (m: State)
    ensures Leads(START, m)
    ensures m == START.(jobs := map[0 := ONE.(path := Some(1))], files := map[1 := Workbook({1})],
                        readers := map[1 := Reader(0, ONE)], workers := map[], tokens := {9}, paths := {0, 1})
  {
    var n := Reclaimed();
    hide Leads;
    assert Ids([1]) == {1};
    Next(START, n, Build(0, 1));
    var built := n.(files := map[1 := Workbook({1})], paths := {0, 1},
                    workers := map[0 := Built(0, 9, 1, Sha256(Workbook({1})))]);
    assert Apply(n, Build(0, 1)) == built;
    Next(START, built, Finish(0));
    m := Apply(built, Finish(0));
  }

  /** The second download then expires the row that has been finished again: its new file stays under an expired row, unknown to any worker. */
  lemma LateDownloadStrandsFile() returns (s: State)
    ensures Inv(START) && NothingStranded(START) && Leads(START, s)
    ensures 0 in s.jobs && s.jobs[0].status == Expired && s.jobs[0].path == Some(1)
    ensures Stranded(s, 1) && s.workers == map[] && s.stray == {}
  {
    StartIsSound();
    var m := Refinished();
    hide Leads;
    Next(START, m, CloseDownload(1, true));
    s := Apply(m, CloseDownload(1, true));
    assert s.jobs[0].path == Some(1);
  }
}
