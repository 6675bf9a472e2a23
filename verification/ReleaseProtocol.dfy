/**
 The release store under concurrent publishers and crashes: every disk write of
 stage() and activate() is one step, the publication lock is an flock that the
 operating system releases when its holder dies, and a rename is one step.
 */
module ReleaseProtocol {
  import opened Wrappers
  import opened Digests
  import opened ReleaseStore

  type Proc = nat
  type Token = nat

  /** Where a publisher is; `Publishing` and the later phases hold the lock. */
  datatype Task =
    | Wanting(snap: Snapshot)
    | Publishing(snap: Snapshot)
    | Filling(snap: Snapshot, token: Token, todo: set<string>)
    | Sealed(snap: Snapshot, token: Token)
    | Hoping(version: Version, expected: Option<Version>)
    | Checking(version: Version, expected: Option<Version>)
    | Swapping(version: Version, current: Option<Version>)

  /** `pointers` lists every content active.json has had, oldest first. */
  datatype Store = Store(
    owner: Owner,
    folders: map<Version, Folder>,
    stages: map<Token, Folder>,
    pointers: seq<Pointer>,
    tokens: set<Token>,
    tasks: map<Proc, Task>)

  function EMPTY(owner: Owner): Store { Store(owner, map[], map[], [], {}, map[]) }

  predicate Locks(t: Task) { !t.Wanting? && !t.Hoping? }

  predicate LockFree(s: Store) { forall p :: p in s.tasks ==> !Locks(s.tasks[p]) }

  function CurrentIn(pointers: seq<Pointer>): Option<Version> {
    if pointers == [] then None else Some(pointers[|pointers| - 1].version)
  }

  function NameOf(o: Owner, snap: Snapshot): Version { Id(Sha(ManifestOf(o, snap))) }

  datatype Event =
    | StartStage(p: Proc, snap: Snapshot)
    | StartActivate(p: Proc, version: Version, expected: Option<Version>)
    | TakeLock(p: Proc)
    | GiveUp(p: Proc)
    | MakeStage(p: Proc, token: Token)
    | WriteFile(p: Proc, name: string)
    | WriteManifest(p: Proc)
    | Install(p: Proc)
    | RemoveStage(p: Proc)
    | Compare(p: Proc)
    | Swap(p: Proc)
    | Crash(p: Proc)

  /**
   GiveUp ends a task without writing: the lock was busy, a check failed, or
   there was nothing to do. RemoveStage is the clean-up after a failed write.
   */
  predicate Enabled(s: Store, e: Event) {
    match e
    case StartStage(p, snap) => p !in s.tasks && StageFault(s.owner, snap).None?
    case StartActivate(p, version, expected) => p !in s.tasks
    case TakeLock(p) => p in s.tasks && !Locks(s.tasks[p]) && LockFree(s)
    case GiveUp(p) => p in s.tasks && !s.tasks[p].Filling? && !s.tasks[p].Sealed?
    case MakeStage(p, token) =>
      p in s.tasks && s.tasks[p].Publishing? && token !in s.tokens && NameOf(s.owner, s.tasks[p].snap) !in s.folders
    case WriteFile(p, name) => p in s.tasks && s.tasks[p].Filling? && s.tasks[p].token in s.stages && name in s.tasks[p].todo && name in s.tasks[p].snap.documents
    case WriteManifest(p) => p in s.tasks && s.tasks[p].Filling? && s.tasks[p].token in s.stages && s.tasks[p].todo == {}
    case Install(p) => p in s.tasks && s.tasks[p].Sealed? && s.tasks[p].token in s.stages
    case RemoveStage(p) => p in s.tasks && (s.tasks[p].Filling? || s.tasks[p].Sealed?)
    case Compare(p) =>
      && p in s.tasks && s.tasks[p].Checking?
      && CurrentIn(s.pointers) == s.tasks[p].expected && CurrentIn(s.pointers) != Some(s.tasks[p].version)
      && Verified(s, s.tasks[p].version)
    case Swap(p) => p in s.tasks && s.tasks[p].Swapping?
    case Crash(p) => p in s.tasks
  }

  /** verify() by the lock holder. */
  predicate Verified(s: Store, v: Version) {
    v in s.folders && Intact(s.owner, v, s.folders[v])
  }

  function Apply(s: Store, e: Event): Store
    requires Enabled(s, e)
  {
    match e
    case StartStage(p, snap) => s.(tasks := s.tasks[p := Wanting(snap)])
    case StartActivate(p, version, expected) => s.(tasks := s.tasks[p := Hoping(version, expected)])
    case TakeLock(p) =>
      var t := s.tasks[p];
      s.(tasks := s.tasks[p := if t.Wanting? then Publishing(t.snap) else Checking(t.version, t.expected)])
    case GiveUp(p) => s.(tasks := s.tasks - {p})
    case MakeStage(p, token) =>
      var snap := s.tasks[p].snap;
      s.(stages := s.stages[token := Folder(NoManifest, map[])], tokens := s.tokens + {token},
         tasks := s.tasks[p := Filling(snap, token, snap.documents.Keys)])
    case WriteFile(p, name) =>
      var t := s.tasks[p];
      var f := s.stages[t.token];
      s.(stages := s.stages[t.token := f.(files := f.files[name := t.snap.documents[name]])],
         tasks := s.tasks[p := Filling(t.snap, t.token, t.todo - {name})])
    case WriteManifest(p) =>
      var t := s.tasks[p];
      s.(stages := s.stages[t.token := s.stages[t.token].(manifest := Written(ManifestOf(s.owner, t.snap)))],
         tasks := s.tasks[p := Sealed(t.snap, t.token)])
    case Install(p) =>
      var t := s.tasks[p];
      s.(folders := s.folders[NameOf(s.owner, t.snap) := s.stages[t.token]], stages := s.stages - {t.token},
         tasks := s.tasks[p := Publishing(t.snap)])
    case RemoveStage(p) => s.(stages := s.stages - {s.tasks[p].token}, tasks := s.tasks - {p})
    case Compare(p) => s.(tasks := s.tasks[p := Swapping(s.tasks[p].version, CurrentIn(s.pointers))])
    case Swap(p) =>
      var t := s.tasks[p];
      s.(pointers := s.pointers + [Pointer(t.version, t.current)], tasks := s.tasks - {p})
    case Crash(p) => s.(tasks := s.tasks - {p})
  }

  // ----- The invariant -----

  /** Every folder under releases/ is a finished release. */
  ghost predicate FoldersComplete(s: Store) {
    forall v :: v in s.folders ==> Complete(v, s.folders[v])
  }

  /** What a publisher may rely on while it holds the lock. */
  ghost predicate TaskOk(o: Owner, folders: map<Version, Folder>, stages: map<Token, Folder>, pointers: seq<Pointer>, tokens: set<Token>, t: Task) {
    match t
    case Wanting(_) => true
    case Publishing(_) => true
    case Filling(snap, token, todo) =>
      && token in tokens && NameOf(o, snap) !in folders && todo <= snap.documents.Keys
      && token in stages && stages[token].manifest == NoManifest
      && stages[token].files == Without(snap.documents, todo)
    case Sealed(snap, token) =>
      && token in tokens && NameOf(o, snap) !in folders
      && token in stages && stages[token] == Folder(Written(ManifestOf(o, snap)), snap.documents)
    case Hoping(_, _) => true
    case Checking(_, _) => true
    case Swapping(version, current) =>
      current == CurrentIn(pointers) && current != Some(version) && version in folders && Intact(o, version, folders[version])
  }

  ghost predicate TasksOk(s: Store) {
    forall p :: p in s.tasks ==> TaskOk(s.owner, s.folders, s.stages, s.pointers, s.tokens, s.tasks[p])
  }

  /** The lock has one holder. */
  ghost predicate OneHolder(s: Store) {
    forall p, q :: p in s.tasks && q in s.tasks && Locks(s.tasks[p]) && Locks(s.tasks[q]) ==> p == q
  }

  ghost predicate StagesNamed(s: Store) {
    s.stages.Keys <= s.tokens
  }

  ghost function Previous(pointers: seq<Pointer>, i: nat): Option<Version>
    requires i < |pointers|
  {
    if i == 0 then None else Some(pointers[i - 1].version)
  }

  /** Each pointer names a release that verifies, and as its previous the release active just before. */
  ghost predicate Chained(s: Store) {
    forall i :: 0 <= i < |s.pointers| ==>
      && s.pointers[i].previous == Previous(s.pointers, i) && s.pointers[i].previous != Some(s.pointers[i].version)
      && s.pointers[i].version in s.folders && Intact(s.owner, s.pointers[i].version, s.folders[s.pointers[i].version])
  }

  ghost predicate Inv(s: Store) {
    FoldersComplete(s) && TasksOk(s) && OneHolder(s) && StagesNamed(s) && Chained(s)
  }

  /** What no step undoes: releases stay as they are, and the list of pointers only grows. */
  ghost predicate Keeps(s: Store, t: Store) {
    && t.owner == s.owner
    && (forall v :: v in s.folders ==> v in t.folders && t.folders[v] == s.folders[v])
    && s.pointers <= t.pointers
  }

  // ----- Each step -----

  lemma OthersWait(s: Store, p: Proc)
    requires OneHolder(s) && p in s.tasks && Locks(s.tasks[p])
    ensures forall q :: q in s.tasks && q != p ==> !Locks(s.tasks[q])
  {
  }

  lemma IdleStep(s: Store, t: Store, p: Proc)
    requires Inv(s)
    requires t == s.(tasks := t.tasks)
    requires forall q :: q in t.tasks && q != p ==> q in s.tasks && t.tasks[q] == s.tasks[q]
    requires p in t.tasks ==> TaskOk(s.owner, s.folders, s.stages, s.pointers, s.tokens, t.tasks[p])
    requires p in t.tasks && Locks(t.tasks[p]) ==> LockFree(s) || (p in s.tasks && Locks(s.tasks[p]))
    ensures Inv(t) && Keeps(s, t)
  {
    hide TaskOk, Complete, Intact;
    assert t.folders == s.folders && t.pointers == s.pointers && t.stages == s.stages && t.tokens == s.tokens;
  }

  lemma StageStep(s: Store, t: Store, p: Proc)
    requires Inv(s) && p in s.tasks && Locks(s.tasks[p])
    requires t == s.(stages := t.stages, tokens := t.tokens, tasks := t.tasks)
    requires s.tokens <= t.tokens && t.stages.Keys <= t.tokens
    requires forall q :: q in t.tasks && q != p ==> q in s.tasks && t.tasks[q] == s.tasks[q]
    requires p in t.tasks ==> TaskOk(t.owner, t.folders, t.stages, t.pointers, t.tokens, t.tasks[p])
    ensures Inv(t) && Keeps(s, t)
  {
    OthersWait(s, p);
    hide Complete, Intact;
    assert t.folders == s.folders && t.pointers == s.pointers;
    forall q | q in t.tasks && q != p ensures TaskOk(t.owner, t.folders, t.stages, t.pointers, t.tokens, t.tasks[q]) {
      assert !Locks(s.tasks[q]);
    }
  }

  lemma InstallStep(s: Store, p: Proc)
    requires Inv(s) && Enabled(s, Install(p))
    ensures Inv(Apply(s, Install(p))) && Keeps(s, Apply(s, Install(p)))
  {
    OthersWait(s, p);
    var t := Apply(s, Install(p));
    var snap := s.tasks[p].snap;
    assert TaskOk(s.owner, s.folders, s.stages, s.pointers, s.tokens, s.tasks[p]);
    WrittenIsComplete(s.owner, snap);
    hide Complete, Intact, ManifestOf;
    assert NameOf(s.owner, snap) !in s.folders;
    forall q | q in t.tasks ensures TaskOk(t.owner, t.folders, t.stages, t.pointers, t.tokens, t.tasks[q]) {
      assert q != p ==> !Locks(s.tasks[q]);
    }
  }

  lemma PointerJoins(s: Store, v: Version)
    requires Chained(s) && CurrentIn(s.pointers) != Some(v) && v in s.folders && Intact(s.owner, v, s.folders[v])
    ensures Chained(s.(pointers := s.pointers + [Pointer(v, CurrentIn(s.pointers))]))
  {
    hide Intact;
  }

  lemma SwapStep(s: Store, p: Proc)
    requires Inv(s) && Enabled(s, Swap(p))
    ensures Inv(Apply(s, Swap(p))) && Keeps(s, Apply(s, Swap(p)))
  {
    OthersWait(s, p);
    var t := Apply(s, Swap(p));
    hide Complete, Intact;
    assert TaskOk(s.owner, s.folders, s.stages, s.pointers, s.tokens, s.tasks[p]);
    PointerJoins(s, s.tasks[p].version);
    hide FoldersComplete, Chained, StagesNamed;
    forall q | q in t.tasks ensures TaskOk(t.owner, t.folders, t.stages, t.pointers, t.tokens, t.tasks[q]) {
      assert !Locks(s.tasks[q]);
    }
  }

  lemma WriteFileStep(s: Store, p: Proc, name: string)
    requires Inv(s) && Enabled(s, WriteFile(p, name))
    ensures Inv(Apply(s, WriteFile(p, name))) && Keeps(s, Apply(s, WriteFile(p, name)))
  {
    var t, task := Apply(s, WriteFile(p, name)), s.tasks[p];
    assert TaskOk(s.owner, s.folders, s.stages, s.pointers, s.tokens, task);
    StageStep(s, t, p);
  }

  lemma WriteManifestStep(s: Store, p: Proc)
    requires Inv(s) && Enabled(s, WriteManifest(p))
    ensures Inv(Apply(s, WriteManifest(p))) && Keeps(s, Apply(s, WriteManifest(p)))
  {
    var t, task := Apply(s, WriteManifest(p)), s.tasks[p];
    assert TaskOk(s.owner, s.folders, s.stages, s.pointers, s.tokens, task);
    NothingWritten(task.snap.documents);
    StageStep(s, t, p);
  }

  lemma MakeStageStep(s: Store, p: Proc, token: Token)
    requires Inv(s) && Enabled(s, MakeStage(p, token))
    ensures Inv(Apply(s, MakeStage(p, token))) && Keeps(s, Apply(s, MakeStage(p, token)))
  {
    var t, snap := Apply(s, MakeStage(p, token)), s.tasks[p].snap;
    NothingWritten(snap.documents);
    StageStep(s, t, p);
  }

  lemma CompareStep(s: Store, p: Proc)
    requires Inv(s) && Enabled(s, Compare(p))
    ensures Inv(Apply(s, Compare(p))) && Keeps(s, Apply(s, Compare(p)))
  {
    hide Complete, Intact;
    IdleStep(s, Apply(s, Compare(p)), p);
  }

  /** Every step keeps the invariant, every release and every pointer written so far. */
  lemma StepKeepsInv(s: Store, e: Event)
    requires Inv(s) && Enabled(s, e)
    ensures Inv(Apply(s, e)) && Keeps(s, Apply(s, e))
  {
    hide Inv, Keeps, TaskOk, LockFree;
    match e
    case StartStage(p, snap) => StartsIdle(s, Apply(s, e), p);
    case StartActivate(p, _, _) => StartsIdle(s, Apply(s, e), p);
    case TakeLock(p) => TakeLockStep(s, p);
    case GiveUp(p) => EndsIdle(s, Apply(s, e), p);
    case Crash(p) => EndsIdle(s, Apply(s, e), p);
    case Compare(p) => CompareStep(s, p);
    case MakeStage(p, token) => MakeStageStep(s, p, token);
    case WriteFile(p, name) => WriteFileStep(s, p, name);
    case WriteManifest(p) => WriteManifestStep(s, p);
    case RemoveStage(p) => RemoveStageStep(s, p);
    case Install(p) => InstallStep(s, p);
    case Swap(p) => SwapStep(s, p);
  }

  lemma StartsIdle(s: Store, t: Store, p: Proc)
    requires Inv(s) && t == s.(tasks := t.tasks) && p in t.tasks && (t.tasks[p].Wanting? || t.tasks[p].Hoping?)
    requires t.tasks == s.tasks[p := t.tasks[p]]
    ensures Inv(t) && Keeps(s, t)
  {
    IdleStep(s, t, p);
  }

  lemma EndsIdle(s: Store, t: Store, p: Proc)
    requires Inv(s) && t == s.(tasks := s.tasks - {p})
    ensures Inv(t) && Keeps(s, t)
  {
    IdleStep(s, t, p);
  }

  lemma TakeLockStep(s: Store, p: Proc)
    requires Inv(s) && Enabled(s, TakeLock(p))
    ensures Inv(Apply(s, TakeLock(p))) && Keeps(s, Apply(s, TakeLock(p)))
  {
    IdleStep(s, Apply(s, TakeLock(p)), p);
  }

  lemma RemoveStageStep(s: Store, p: Proc)
    requires Inv(s) && Enabled(s, RemoveStage(p))
    ensures Inv(Apply(s, RemoveStage(p))) && Keeps(s, Apply(s, RemoveStage(p)))
  {
    StageStep(s, Apply(s, RemoveStage(p)), p);
  }

  // ----- Whole runs -----

  predicate CanRun(s: Store, es: seq<Event>)
    decreases |es|
  {
    es == [] || (Enabled(s, es[0]) && CanRun(Apply(s, es[0]), es[1..]))
  }

  function Run(s: Store, es: seq<Event>): Store
    requires CanRun(s, es)
    decreases |es|
  {
    if es == [] then s else Run(Apply(s, es[0]), es[1..])
  }

  lemma {:induction false} RunKeepsInv(s: Store, es: seq<Event>)
    requires Inv(s) && CanRun(s, es)
    ensures Inv(Run(s, es)) && Keeps(s, Run(s, es))
    decreases |es|
  {
    hide Inv, Enabled, Apply;
    if es == [] {
      KeepsItself(s);
    } else {
      StepKeepsInv(s, es[0]);
      RunKeepsInv(Apply(s, es[0]), es[1..]);
      KeepsChain(s, Apply(s, es[0]), Run(s, es));
    }
  }

  lemma KeepsItself(s: Store)
    ensures Keeps(s, s)
  {
  }

  lemma KeepsChain(s: Store, t: Store, u: Store)
    requires Keeps(s, t) && Keeps(t, u)
    ensures Keeps(s, u)
  {
  }

  /**
   Store safety: after any interleaving of publishers and crashes, a release
   folder is absent or complete, and the pointers form a chain of releases that
   verify, each naming as previous the one active just before.
   */
  lemma StoreIsSafe(o: Owner, es: seq<Event>)
    requires CanRun(EMPTY(o), es)
    ensures var s := Run(EMPTY(o), es);
            && Inv(s)
            && (forall v :: v in s.folders ==> Complete(v, s.folders[v]))
            && (forall i :: 0 <= i < |s.pointers| ==>
                  && s.pointers[i].previous == Previous(s.pointers, i)
                  && s.pointers[i].version in s.folders
                  && Intact(o, s.pointers[i].version, s.folders[s.pointers[i].version]))
  {
    assert Inv(EMPTY(o));
    RunKeepsInv(EMPTY(o), es);
  }

  /** The swap is a compare-and-swap: the version compared with is still the active one when the pointer is replaced. */
  lemma SwapIsCompareAndSwap(s: Store, p: Proc)
    requires Inv(s) && Enabled(s, Swap(p))
    ensures var t := Apply(s, Swap(p));
            && t.pointers == s.pointers + [Pointer(s.tasks[p].version, CurrentIn(s.pointers))]
            && CurrentIn(t.pointers) == Some(s.tasks[p].version) != CurrentIn(s.pointers)
            && LockFree(t)
  {
    hide Intact, Complete;
    assert TaskOk(s.owner, s.folders, s.stages, s.pointers, s.tokens, s.tasks[p]);
    OthersWait(s, p);
  }
}
