/**
 What flow mutations guarantee over whole runs: the accepted requests form an
 append-only log, replays are answered from it, no update is lost, and the
 stored graph is a function of the workspace.
 */
module FlowSafety {
  import opened Wrappers
  import opened FlowRequests
  import opened FlowWorkspace

  // ----- The invariant -----

  predicate KeysOk(w: Workspace) {
    && (forall k :: k in w.configs ==> InTemplate(w.filterEnabled, k))
    && (forall k :: k in w.drafts ==> InTemplate(w.filterEnabled, k))
    && (forall k :: k in w.positions ==> InTemplate(w.filterEnabled, k) && w.positions[k] == CleanPosition(k, w.positions[k]))
  }

  /** In-template rows are what the workspace says; anything else is set aside. */
  ghost predicate GraphOk(f: Flow) {
    && (forall k :: InTemplate(f.state.filterEnabled, k) ==>
                      && k in f.nodes && f.nodes[k] == NodeFor(f.state, k)
                      && k in f.tasks && f.tasks[k] == TaskFor(f.state, k))
    && (forall k :: k in f.nodes && !InTemplate(f.state.filterEnabled, k) ==> f.nodes[k].status == Paused)
    && (forall k :: k in f.tasks && !InTemplate(f.state.filterEnabled, k) ==> f.tasks[k].status == Skipped)
    && f.edges == PlannedEdges(f.state.filterEnabled)
  }

  predicate StatusOk(f: Flow) {
    f.status == Archived || f.status == (if f.state.configs != map[] then Configuring else Draft)
  }

  ghost predicate FlowOk(f: Flow) {
    KeysOk(f.state) && GraphOk(f) && StatusOk(f) && |f.state.receipts| <= RECEIPT_LIMIT
  }

  /** The accepted requests of a flow that change it, oldest first. */
  function Log(audit: seq<Audit>, key: FlowId): seq<Data> {
    if audit == [] then []
    else
      var last := audit[|audit| - 1];
      Log(audit[..|audit| - 1], key)
      + (if last.flow == key && !Duplicates(last.receipt.digest.data)
         then [last.receipt.digest.data] else [])
  }

  predicate OnceEach(audit: seq<Audit>) {
    forall i, j :: 0 <= i < j < |audit| ==> !(audit[i].flow == audit[j].flow && audit[i].request == audit[j].request)
  }

  /** The version counts the log, and each request was accepted against the version before it. */
  predicate LogOk(s: Store, key: FlowId)
    requires key in s.flows
  {
    var log := Log(s.audit, key);
    && s.flows[key].state.version == 1 + |log|
    && forall i :: 0 <= i < |log| ==> Get(log[i], "expectedVersion") == Integer(i + 1)
  }

  predicate ReceiptsOk(s: Store, key: FlowId)
    requires key in s.flows
  {
    var cache := s.flows[key].state.receipts;
    forall id :: id in cache ==> Audit(key, id, cache[id]) in s.audit
  }

  predicate AuditOk(s: Store) {
    forall a :: a in s.audit ==>
      && a.flow in s.flows
      && (a.receipt.createdId.Some? <==> Duplicates(a.receipt.digest.data))
      && (a.receipt.createdId.Some? ==>
            && a.receipt.createdId.value in s.flows
            && s.flows[a.receipt.createdId.value].site == s.flows[a.flow].site)
  }

  /** The log, the versions and the receipts agree with one another. */
  ghost predicate BookOk(s: Store) {
    && (forall key :: key in s.flows ==> LogOk(s, key) && ReceiptsOk(s, key))
    && OnceEach(s.audit) && AuditOk(s)
  }

  ghost predicate FlowsOk(s: Store) {
    forall key :: key in s.flows ==> FlowOk(s.flows[key])
  }

  // ----- The audit log answers for every accepted request -----

  lemma {:induction false} PriorInAudit(audit: seq<Audit>, key: FlowId, id: RequestId)
    ensures PriorReceipt(audit, key, id).Some? ==> Audit(key, id, PriorReceipt(audit, key, id).value) in audit
    ensures PriorReceipt(audit, key, id).None? ==> forall a :: a in audit ==> !(a.flow == key && a.request == id)
  {
    if audit != [] {
      var front := audit[..|audit| - 1];
      PriorInAudit(front, key, id);
      assert audit == front + [audit[|audit| - 1]];
    }
  }

  /** Cache or log, evicted or not: the receipt of an accepted request is always found. */
  lemma ReceiptIsFound(s: Store, key: FlowId, a: Audit)
    requires BookOk(s) && a in s.audit && a.flow == key
    ensures FindReceipt(s, key, a.request) == Some(a.receipt)
  {
    var i :| 0 <= i < |s.audit| && s.audit[i] == a;
    PriorInAudit(s.audit, key, a.request);
    var r := FindReceipt(s, key, a.request);
    assert r.Some? && Audit(key, a.request, r.value) in s.audit;
    var j :| 0 <= j < |s.audit| && s.audit[j] == Audit(key, a.request, r.value);
    assert i == j;
  }

  lemma NoReceiptNoAudit(s: Store, key: FlowId, id: RequestId)
    requires BookOk(s) && key in s.flows && FindReceipt(s, key, id).None?
    ensures forall a :: a in s.audit ==> !(a.flow == key && a.request == id)
  {
    PriorInAudit(s.audit, key, id);
  }

  // ----- Every command keeps the invariant -----

  lemma MaterializedIsOk(f: Flow)
    ensures GraphOk(Materialized(f)) && Materialized(f).state == f.state
  {
    forall k: Task ensures InTemplate(f.state.filterEnabled, k) <==> k in Template(f.state.filterEnabled) {
      match k
      case Filter =>
      case _ =>
    }
  }

  /** What any action leaves alone. */
  predicate GoodAct(f: Flow, g: Flow) {
    && g.site == f.site && g.state.receipts == f.state.receipts && g.state.version == f.state.version
    && g.revision >= f.revision
    && (g.revision == f.revision ==> g.state.configs == f.state.configs && g.state.filterEnabled == f.state.filterEnabled)
  }

  lemma ActedIsGood(f: Flow, a: Action, out: Outside)
    requires Acted(f, a, out).Ok?
    ensures GoodAct(f, Acted(f, a, out).value)
  {
    var g := Acted(f, a, out).value;
    match a
    case SaveConfig(task, cleaned) =>
      if Lookup(f.state.configs, task) == Some(cleaned.value) { assert g.state.configs == f.state.configs; }
    case SavePixelStep(values, formValues) =>
      if Lookup(f.state.configs, Pixel) == Some(values) && Lookup(f.state.configs, Form) == Some(formValues) {
        assert g.state.configs == f.state.configs;
      }
    case _ =>
  }

  lemma ActedKeepsKeys(f: Flow, a: Action, out: Outside)
    requires KeysOk(f.state) && Acted(f, a, out).Ok?
    ensures KeysOk(Acted(f, a, out).value.state)
  {
    match a
    case SaveConfig(_, _) =>
    case SavePixelStep(_, _) =>
    case SetFilter(_) =>
    case SetPositions(_) =>
    case _ =>
  }

  predicate SameTopology(f: Flow, g: Flow) {
    && g.nodes == f.nodes && g.tasks == f.tasks && g.edges == f.edges
    && g.state.configs == f.state.configs && g.state.drafts == f.state.drafts
    && g.state.filterEnabled == f.state.filterEnabled
  }

  lemma ActedKeepsTopology(f: Flow, a: Action, out: Outside)
    requires Acted(f, a, out).Ok? && !TouchesGraph(a)
    ensures SameTopology(f, Acted(f, a, out).value)
  {
    match a
    case SetPositions(_) =>
    case _ =>
  }

  lemma SameGraph(f: Flow, g: Flow)
    requires GraphOk(f) && SameTopology(f, g)
    ensures GraphOk(g)
  {
    forall k ensures NodeFor(f.state, k) == NodeFor(g.state, k) && TaskFor(f.state, k) == TaskFor(g.state, k) {}
  }

  lemma LogStep(audit: seq<Audit>, a: Audit, key: FlowId)
    ensures Log(audit + [a], key) ==
            Log(audit, key) + (if a.flow == key && !Duplicates(a.receipt.digest.data)
                               then [a.receipt.digest.data] else [])
  {
    assert (audit + [a])[..|audit|] == audit;
  }

  // ----- Flows -----

  lemma CacheStaysBounded(cache: map<RequestId, Receipt>, kept: set<RequestId>, id: RequestId, r: Receipt)
    requires Evicts(cache, kept)
    ensures |Kept(cache, kept)[id := r]| <= RECEIPT_LIMIT
  {
    assert Kept(cache, kept).Keys == kept;
    var cache' := Kept(cache, kept)[id := r];
    assert cache'.Keys == kept + {id};
    assert |cache'| == |cache'.Keys|;
  }

  lemma SettledIsOk(f: Flow)
    ensures StatusOk(Settled(f)) && Settled(f).state == f.state && SameTopology(f, Settled(f))
  {
  }

  /**
   Receipt, version and status are written over an action's effect: the receipt is
   there, older ones are as they were or evicted, a copy leaves the version ...
   */
  lemma RecordedIsOk(f: Flow, acted: Flow, id: RequestId, action: Action, receipt: Receipt, kept: set<RequestId>)
    requires Evicts(f.state.receipts, kept) && GoodAct(f, acted) && KeysOk(acted.state)
    ensures var g := Recorded(acted, id, action, receipt, kept);
            && KeysOk(g.state) && StatusOk(g) && |g.state.receipts| <= RECEIPT_LIMIT
            && id in g.state.receipts && g.state.receipts[id] == receipt
            && (forall r :: r in g.state.receipts && r != id ==>
                              r in f.state.receipts && g.state.receipts[r] == f.state.receipts[r])
            && g.state.version == f.state.version + (if action.Duplicate? then 0 else 1)
  {
    CacheStaysBounded(f.state.receipts, kept, id, receipt);
    RecordedFields(acted, id, action, receipt, kept);
  }

  lemma SettledGraphOk(acted: Flow, g: Flow)
    requires GraphOk(acted) && SameTopology(acted, g)
    ensures GraphOk(Settled(g))
  {
    hide GraphOk;
    SettledIsOk(g);
    SameGraph(acted, Settled(g));
  }

  /** ... and the graph follows if it has to. */
  lemma RecordedGraphOk(acted: Flow, id: RequestId, action: Action, receipt: Receipt, kept: set<RequestId>)
    requires TouchesGraph(action) || GraphOk(acted)
    ensures GraphOk(Recorded(acted, id, action, receipt, kept))
  {
    hide GraphOk, Materialized, Settled, Kept, TouchesGraph;
    var h := acted.(state := acted.state.(version := if action.Duplicate? then acted.state.version else acted.state.version + 1,
                                          receipts := Kept(acted.state.receipts, kept)[id := receipt]));
    if TouchesGraph(action) {
      MaterializedIsOk(Settled(h));
    } else {
      SettledGraphOk(acted, h);
    }
  }

  lemma RecordedFields(acted: Flow, id: RequestId, action: Action, receipt: Receipt, kept: set<RequestId>)
    ensures var g := Recorded(acted, id, action, receipt, kept);
            && g.site == acted.site && g.revision == acted.revision
            && g.state.configs == acted.state.configs && g.state.filterEnabled == acted.state.filterEnabled
            && g.state.version == (if action.Duplicate? then acted.state.version else acted.state.version + 1)
            && g.state.receipts == Kept(acted.state.receipts, kept)[id := receipt]
            && g.state.drafts == acted.state.drafts && g.state.positions == acted.state.positions
  {
  }

  lemma CopyIsOk(f: Flow, actor: ActorId, name: Name)
    requires FlowOk(f)
    ensures FlowOk(Copied(f, actor, name)) && Copied(f, actor, name).state.version == 1
    ensures Copied(f, actor, name).state.receipts == map[] && Copied(f, actor, name).site == f.site
  {
    var g := NewFlow(f.site, actor, Fingerprint(name, f.fingerprint.production, ""));
    MaterializedIsOk(g.(state := g.state.(filterEnabled := f.state.filterEnabled, positions := f.state.positions)));
  }

  /** A flow that has no audit rows has an empty log. */
  lemma {:induction false} NoAuditNoLog(audit: seq<Audit>, key: FlowId)
    requires forall a :: a in audit ==> a.flow != key
    ensures Log(audit, key) == []
  {
    if audit != [] { NoAuditNoLog(audit[..|audit| - 1], key); }
  }

  // ----- The book -----

  /** f becomes the flow of the audit row a, and a copy appears under the request's id. */
  ghost predicate GoodAppend(s: Store, f: Flow, copy: Option<Flow>, a: Audit) {
    && a.flow in s.flows
    && (forall b :: b in s.audit ==> !(b.flow == a.flow && b.request == a.request))
    && f.site == s.flows[a.flow].site
    && (forall id :: id in f.state.receipts ==>
          if id == a.request then f.state.receipts[id] == a.receipt
          else id in s.flows[a.flow].state.receipts && f.state.receipts[id] == s.flows[a.flow].state.receipts[id])
    && (if Duplicates(a.receipt.digest.data) then
          && f.state.version == s.flows[a.flow].state.version
          && a.receipt.createdId == Some(a.request) && a.request !in s.flows
          && copy.Some? && copy.value.site == f.site
          && copy.value.state.version == 1 && copy.value.state.receipts == map[]
        else
          && f.state.version == s.flows[a.flow].state.version + 1 && copy.None? && a.receipt.createdId.None?
          && Get(a.receipt.digest.data, "expectedVersion") == Integer(s.flows[a.flow].state.version))
  }

  lemma AppendKeepsLog(s: Store, f: Flow, copy: Option<Flow>, a: Audit, k: FlowId)
    requires BookOk(s) && GoodAppend(s, f, copy, a) && k in Appended(s, f, copy, a).flows
    ensures var s' := Appended(s, f, copy, a); LogOk(s', k) && ReceiptsOk(s', k)
  {
    var s' := Appended(s, f, copy, a);
    LogStep(s.audit, a, k);
    assert s'.audit[|s.audit|] == a;
    if k == a.flow {
    } else if k !in s.flows {
      forall b | b in s.audit ensures b.flow != k {}
      NoAuditNoLog(s.audit, k);
    } else {
      assert s'.flows[k] == s.flows[k];
    }
  }

  lemma AppendKeepsAudit(s: Store, f: Flow, copy: Option<Flow>, a: Audit)
    requires BookOk(s) && GoodAppend(s, f, copy, a)
    ensures var s' := Appended(s, f, copy, a); OnceEach(s'.audit) && AuditOk(s')
  {
    var s' := Appended(s, f, copy, a);
    forall i | 0 <= i < |s.audit| ensures !(s.audit[i].flow == a.flow && s.audit[i].request == a.request) {
      assert s.audit[i] in s.audit;
    }
    forall k | k in s.flows ensures k in s'.flows && s'.flows[k].site == s.flows[k].site {}
    forall b | b in s'.audit ensures b in s.audit || b == a {}
  }

  lemma AppendKeepsBook(s: Store, f: Flow, copy: Option<Flow>, a: Audit)
    requires BookOk(s) && GoodAppend(s, f, copy, a)
    ensures BookOk(Appended(s, f, copy, a))
  {
    forall k | k in Appended(s, f, copy, a).flows
      ensures LogOk(Appended(s, f, copy, a), k) && ReceiptsOk(Appended(s, f, copy, a), k)
    {
      AppendKeepsLog(s, f, copy, a, k);
    }
    AppendKeepsAudit(s, f, copy, a);
  }

  /** The request reaches the end of mutate_flow for the first time. */
  predicate Accepted(s: Store, c: Command) {
    && c.Mutate? && c.key in s.flows && s.flows[c.key].site == c.site
    && FindReceipt(s, c.key, c.req.id).None? && Checked(s, c.key, c.req, c.out).Ok?
  }

  /** The one way a request changes anything: it appends one audit row with its flow (and copy). */
  lemma AcceptedAppends(s: Store, c: Command) returns (f: Flow, copy: Option<Flow>, a: Audit)
    requires BookOk(s) && Accepted(s, c)
    ensures a == Audit(c.key, c.req.id, ReceiptFor(c.actor, c.req)) && GoodAppend(s, f, copy, a)
    ensures Do(s, c) == (Appended(s, f, copy, a), Ok(if Duplicates(c.req.data) then c.req.id else c.key))
    ensures f.revision >= s.flows[c.key].revision
    ensures f.revision == s.flows[c.key].revision ==>
              f.state.configs == s.flows[c.key].state.configs && f.state.filterEnabled == s.flows[c.key].state.filterEnabled
    ensures Get(c.req.data, "expectedVersion") == Integer(s.flows[c.key].state.version)
    ensures f == Recorded(Checked(s, c.key, c.req, c.out).value, c.req.id, ActionOf(c.req.data, c.out), ReceiptFor(c.actor, c.req), c.kept)
    ensures copy == if Duplicates(c.req.data) then Some(Copied(s.flows[c.key], c.actor, c.out.copyName)) else None
  {
    var acted := Checked(s, c.key, c.req, c.out).value;
    a := Audit(c.key, c.req.id, ReceiptFor(c.actor, c.req));
    f := Recorded(acted, c.req.id, ActionOf(c.req.data, c.out), a.receipt, c.kept);
    copy := if Duplicates(c.req.data) then Some(Copied(s.flows[c.key], c.actor, c.out.copyName)) else None;
    ActedIsGood(s.flows[c.key], ActionOf(c.req.data, c.out), c.out);
    RecordedFields(acted, c.req.id, ActionOf(c.req.data, c.out), a.receipt, c.kept);
    NoReceiptNoAudit(s, c.key, c.req.id);
  }

  lemma OtherwiseNothing(s: Store, c: Command)
    requires c.Mutate? && !Accepted(s, c)
    ensures Do(s, c).0 == s
  {
  }

  lemma NewFlowIsOk(site: SiteId, actor: ActorId, fp: Fingerprint)
    ensures FlowOk(NewFlow(site, actor, fp)) && NewFlow(site, actor, fp).state == FRESH
  {
    MaterializedIsOk(Flow(site, actor, fp, fp.name, Draft, 1, FRESH, map[], map[], {}));
  }

  lemma CreateKeepsBook(s: Store, id: FlowId, f: Flow)
    requires BookOk(s) && id !in s.flows && f.state == FRESH
    ensures BookOk(s.(flows := s.flows[id := f]))
  {
    var s' := s.(flows := s.flows[id := f]);
    forall b | b in s.audit ensures b.flow != id {}
    NoAuditNoLog(s.audit, id);
    forall k | k in s'.flows ensures LogOk(s', k) && ReceiptsOk(s', k) {
      if k != id { assert LogOk(s, k) && ReceiptsOk(s, k); }
    }
  }

  lemma StepKeepsBook(s: Store, c: Command)
    requires BookOk(s)
    ensures BookOk(Do(s, c).0)
  {
    if c.Mutate? {
      if Accepted(s, c) {
        var f, copy, a := AcceptedAppends(s, c);
        AppendKeepsBook(s, f, copy, a);
      } else {
        OtherwiseNothing(s, c);
      }
    } else if c.fp.Some? && c.id !in s.flows && c.out.createOk {
      NewFlowIsOk(c.site, c.actor, c.fp.value);
      CreateKeepsBook(s, c.id, NewFlow(c.site, c.actor, c.fp.value));
    }
  }

  lemma AcceptedFlowIsOk(s: Store, c: Command)
    requires Accepted(s, c) && Possible(s, c) && FlowOk(s.flows[c.key])
    ensures FlowOk(Recorded(Checked(s, c.key, c.req, c.out).value, c.req.id, ActionOf(c.req.data, c.out), ReceiptFor(c.actor, c.req), c.kept))
    ensures FlowOk(Copied(s.flows[c.key], c.actor, c.out.copyName))
  {
    var f := s.flows[c.key];
    ActedIsGood(f, ActionOf(c.req.data, c.out), c.out);
    ActedKeepsKeys(f, ActionOf(c.req.data, c.out), c.out);
    if !TouchesGraph(ActionOf(c.req.data, c.out)) {
      ActedKeepsTopology(f, ActionOf(c.req.data, c.out), c.out);
      SameGraph(f, Acted(f, ActionOf(c.req.data, c.out), c.out).value);
    }
    RecordedIsOk(f, Acted(f, ActionOf(c.req.data, c.out), c.out).value, c.req.id, ActionOf(c.req.data, c.out), ReceiptFor(c.actor, c.req), c.kept);
    RecordedGraphOk(Acted(f, ActionOf(c.req.data, c.out), c.out).value, c.req.id, ActionOf(c.req.data, c.out), ReceiptFor(c.actor, c.req), c.kept);
    CopyIsOk(f, c.actor, c.out.copyName);
  }

  lemma StepKeepsFlows(s: Store, c: Command)
    requires FlowsOk(s) && BookOk(s) && Possible(s, c)
    ensures FlowsOk(Do(s, c).0)
  {
    if c.Mutate? {
      if Accepted(s, c) {
        var f, copy, a := AcceptedAppends(s, c);
        AcceptedKeepsFlows(s, c, f, copy, a);
      } else {
        OtherwiseNothing(s, c);
      }
    } else if c.fp.Some? && c.id !in s.flows && c.out.createOk {
      NewFlowIsOk(c.site, c.actor, c.fp.value);
      CreatedFlows(s, c.id, NewFlow(c.site, c.actor, c.fp.value));
    }
  }

  lemma AcceptedKeepsFlows(s: Store, c: Command, f: Flow, copy: Option<Flow>, a: Audit)
    requires FlowsOk(s) && Accepted(s, c) && Possible(s, c)
    requires f == Recorded(Checked(s, c.key, c.req, c.out).value, c.req.id, ActionOf(c.req.data, c.out), ReceiptFor(c.actor, c.req), c.kept)
    requires copy == if Duplicates(c.req.data) then Some(Copied(s.flows[c.key], c.actor, c.out.copyName)) else None
    ensures FlowsOk(Appended(s, f, copy, a))
  {
    assert FlowOk(s.flows[c.key]);
    AcceptedFlowIsOk(s, c);
    AppendedFlows(s, f, copy, a);
  }

  lemma CreatedFlows(s: Store, id: FlowId, f: Flow)
    requires FlowsOk(s) && FlowOk(f)
    ensures FlowsOk(s.(flows := s.flows[id := f]))
  {
  }

  lemma AppendedFlows(s: Store, f: Flow, copy: Option<Flow>, a: Audit)
    requires FlowsOk(s) && FlowOk(f) && (copy.Some? ==> FlowOk(copy.value))
    ensures FlowsOk(Appended(s, f, copy, a))
  {
  }

  // ----- Runs -----

  ghost predicate Runs(s: Store, cs: seq<Command>)
    decreases |cs|
  {
    cs == [] || (Possible(s, cs[0]) && Runs(Do(s, cs[0]).0, cs[1..]))
  }

  function After(s: Store, cs: seq<Command>): Store
    decreases |cs|
  {
    if cs == [] then s else After(Do(s, cs[0]).0, cs[1..])
  }

  lemma {:induction false} RunKeepsBook(s: Store, cs: seq<Command>)
    requires BookOk(s)
    ensures BookOk(After(s, cs))
    decreases |cs|
  {
    if cs != [] {
      StepKeepsBook(s, cs[0]);
      RunKeepsBook(Do(s, cs[0]).0, cs[1..]);
    }
  }

  lemma {:induction false} RunKeepsInv(s: Store, cs: seq<Command>)
    requires FlowsOk(s) && BookOk(s) && Runs(s, cs)
    ensures FlowsOk(After(s, cs)) && BookOk(After(s, cs))
    decreases |cs|
  {
    if cs != [] {
      StepKeepsFlows(s, cs[0]);
      StepKeepsBook(s, cs[0]);
      RunKeepsInv(Do(s, cs[0]).0, cs[1..]);
    }
  }

  const EMPTY := Store(map[], [])

  // ----- The log only grows, and rows never disappear -----

  ghost predicate Extends(s: Store, s': Store) {
    && s.audit <= s'.audit && s.flows.Keys <= s'.flows.Keys
    && forall k :: k in s.flows ==>
         && s'.flows[k].site == s.flows[k].site
         && s'.flows[k].revision >= s.flows[k].revision
         && (s'.flows[k].revision == s.flows[k].revision ==>
               && s'.flows[k].state.configs == s.flows[k].state.configs
               && s'.flows[k].state.filterEnabled == s.flows[k].state.filterEnabled)
  }

  lemma AppendExtends(s: Store, f: Flow, copy: Option<Flow>, a: Audit)
    requires GoodAppend(s, f, copy, a) && f.revision >= s.flows[a.flow].revision
    requires f.revision == s.flows[a.flow].revision ==>
               && f.state.configs == s.flows[a.flow].state.configs
               && f.state.filterEnabled == s.flows[a.flow].state.filterEnabled
    ensures Extends(s, Appended(s, f, copy, a))
  {
  }

  lemma StepExtends(s: Store, c: Command)
    requires BookOk(s)
    ensures Extends(s, Do(s, c).0)
  {
    if c.Mutate? {
      if Accepted(s, c) {
        var f, copy, a := AcceptedAppends(s, c);
        AppendExtends(s, f, copy, a);
      } else {
        OtherwiseNothing(s, c);
      }
    } else if c.fp.Some? && c.id !in s.flows && c.out.createOk {
      assert Do(s, c).0.flows == s.flows[c.id := NewFlow(c.site, c.actor, c.fp.value)];
    }
  }

  lemma {:induction false} RunExtends(s: Store, cs: seq<Command>)
    requires BookOk(s)
    ensures Extends(s, After(s, cs))
    decreases |cs|
  {
    if cs != [] {
      StepExtends(s, cs[0]);
      StepKeepsBook(s, cs[0]);
      RunExtends(Do(s, cs[0]).0, cs[1..]);
    }
  }

  // ----- Idempotency -----

  /** Each request id takes effect at most once per flow: a change is always a new line of the log. */
  lemma EffectsAreLogged(s: Store, c: Command)
    requires BookOk(s) && c.Mutate? && Do(s, c).0 != s
    ensures Do(s, c).0.audit == s.audit + [Audit(c.key, c.req.id, ReceiptFor(c.actor, c.req))]
    ensures forall a :: a in s.audit ==> !(a.flow == c.key && a.request == c.req.id)
    ensures c.key in s.flows && Get(c.req.data, "expectedVersion") == Integer(s.flows[c.key].state.version)
  {
    if Accepted(s, c) { var _, _, _ := AcceptedAppends(s, c); } else { OtherwiseNothing(s, c); }
  }

  /** A granted request, new or repeated, has its receipt in the log afterwards. */
  lemma GrantedIsLogged(s: Store, c: Command) returns (a: Audit)
    requires BookOk(s) && c.Mutate? && Do(s, c).1.Ok?
    ensures a in Do(s, c).0.audit && a.flow == c.key && a.request == c.req.id
    ensures a.receipt.digest == Sha256(c.req.data) && a.receipt.actor == c.actor
    ensures Do(s, c).1 == Ok(if a.receipt.createdId.Some? then a.receipt.createdId.value else c.key)
    ensures c.key in s.flows && s.flows[c.key].site == c.site
  {
    if Accepted(s, c) {
      var f, copy, b := AcceptedAppends(s, c);
      a := b;
      assert Do(s, c).0.audit[|s.audit|] == a;
    } else {
      OtherwiseNothing(s, c);
      var found := FindReceipt(s, c.key, c.req.id);
      PriorInAudit(s.audit, c.key, c.req.id);
      a := Audit(c.key, c.req.id, found.value);
      assert a in s.audit;
    }
  }

  /** What a logged request meets, in any later store. */
  lemma LoggedAnswers(s: Store, a: Audit, c: Command)
    requires BookOk(s) && a in s.audit && c.Mutate? && c.key == a.flow && c.req.id == a.request
    requires s.flows[c.key].site == c.site
    ensures Do(s, c) ==
            if a.receipt.digest != Sha256(c.req.data) || a.receipt.actor != c.actor then (s, Err(Conflict))
            else (s, Ok(if a.receipt.createdId.Some? then a.receipt.createdId.value else c.key))
  {
    ReceiptIsFound(s, c.key, a);
  }

  /**
   Once granted, a request can be repeated after any further history: nothing
   changes and the same flow comes back, whichever receipts were evicted and
   whatever validation would make of the same object by then.
   */
  lemma ReplayIsAnswered(s: Store, c: Command, cs: seq<Command>, again: Command)
    requires BookOk(s) && c.Mutate? && Do(s, c).1.Ok?
    requires again.Mutate? && again.site == c.site && again.key == c.key && again.actor == c.actor && again.req == c.req
    ensures Do(After(Do(s, c).0, cs), again) == (After(Do(s, c).0, cs), Do(s, c).1)
  {
    var s1 := Do(s, c).0;
    var a := GrantedIsLogged(s, c);
    StepExtends(s, c);
    StepKeepsBook(s, c);
    LaterAnswers(s1, cs, a, again, c.site);
  }

  lemma LaterAnswers(s: Store, cs: seq<Command>, a: Audit, c: Command, site: SiteId)
    requires BookOk(s)
    requires a in s.audit && a.flow in s.flows && s.flows[a.flow].site == site
    requires c.Mutate? && c.site == site && c.key == a.flow && c.req.id == a.request
    ensures Do(After(s, cs), c) ==
            if a.receipt.digest != Sha256(c.req.data) || a.receipt.actor != c.actor then (After(s, cs), Err(Conflict))
            else (After(s, cs), Ok(if a.receipt.createdId.Some? then a.receipt.createdId.value else c.key))
  {
    RunKeepsBook(s, cs);
    RunExtends(s, cs);
    LoggedAnswers(After(s, cs), a, c);
  }

  /**
   The same id with another object, even one that validation would clean to the
   same values, or by another actor, is refused for ever, and changes nothing.
   */
  lemma ReuseIsRefused(s: Store, c: Command, cs: seq<Command>, other: Command)
    requires BookOk(s) && c.Mutate? && Do(s, c).1.Ok?
    requires other.Mutate? && other.site == c.site && other.key == c.key && other.req.id == c.req.id
    requires other.req.data != c.req.data || other.actor != c.actor
    ensures Do(After(Do(s, c).0, cs), other) == (After(Do(s, c).0, cs), Err(Conflict))
  {
    var a := GrantedIsLogged(s, c);
    StepExtends(s, c);
    StepKeepsBook(s, c);
    LaterAnswers(Do(s, c).0, cs, a, other, c.site);
  }

  // ----- No lost update -----

  /**
   The version is one plus the number of accepted requests that change the flow,
   and the i-th of them was accepted by somebody who had seen version i.
   */
  lemma NoUpdateIsLost(cs: seq<Command>, key: FlowId)
    requires key in After(EMPTY, cs).flows
    ensures var s := After(EMPTY, cs);
            var log := Log(s.audit, key);
            && s.flows[key].state.version == 1 + |log|
            && (forall i :: 0 <= i < |log| ==> Get(log[i], "expectedVersion") == Integer(i + 1))
  {
    RunKeepsBook(EMPTY, cs);
  }

  /** Two states of one flow with the same desired revision have the same configuration. */
  lemma RevisionFixesConfiguration(cs: seq<Command>, ds: seq<Command>, key: FlowId)
    requires key in After(EMPTY, cs).flows
    ensures var f := After(EMPTY, cs).flows[key];
            var s' := After(After(EMPTY, cs), ds);
            && key in s'.flows && s'.flows[key].revision >= f.revision
            && (s'.flows[key].revision == f.revision ==>
                  && s'.flows[key].state.configs == f.state.configs
                  && s'.flows[key].state.filterEnabled == f.state.filterEnabled)
  {
    RunKeepsBook(EMPTY, cs);
    RunExtends(After(EMPTY, cs), ds);
  }

  // ----- The stored graph -----

  /** After every run, keys stay within the template and the stored rows are the planned ones. */
  lemma GraphFollowsWorkspace(cs: seq<Command>, key: FlowId)
    requires Runs(EMPTY, cs) && key in After(EMPTY, cs).flows
    ensures KeysOk(After(EMPTY, cs).flows[key].state) && GraphOk(After(EMPTY, cs).flows[key])
  {
    RunKeepsInv(EMPTY, cs);
  }

  /** Flows with equal configuration, drafts and filter have equal planned rows and edges. */
  lemma GraphIsAFunction(f: Flow, g: Flow)
    requires GraphOk(f) && GraphOk(g)
    requires f.state.configs == g.state.configs && f.state.drafts == g.state.drafts
    requires f.state.filterEnabled == g.state.filterEnabled
    ensures f.edges == g.edges
    ensures forall k :: InTemplate(f.state.filterEnabled, k) ==>
                          k in f.nodes && k in g.nodes && f.nodes[k] == g.nodes[k]
                          && k in f.tasks && k in g.tasks && f.tasks[k] == g.tasks[k]
  {
  }

  /**
   The paused rows are the exception: they keep what was there when the filter
   was last on, so equal workspaces can have different stored node tables.
   */
  lemma PausedRowsRemember(f: Flow)
    requires KeysOk(f.state) && !f.state.filterEnabled && Filter !in f.nodes
    ensures var on := Materialized(WithFilter(f, true));
            var off := Materialized(WithFilter(on, false));
            && off.state == f.state && GraphOk(off)
            && Filter in off.nodes && off.nodes[Filter].status == Paused
  {
    var on := Materialized(WithFilter(f, true));
    var w := WithFilter(on, false);
    assert on.state == f.state.(filterEnabled := true);
    assert Filter !in f.state.configs && Filter !in f.state.drafts && Filter !in f.state.positions;
    assert f.state.configs - {Filter} == f.state.configs;
    assert f.state.drafts - {Filter} == f.state.drafts;
    assert f.state.positions - {Filter} == f.state.positions;
    assert w.state == f.state;
    assert Filter in Template(true);
    hide GraphOk, KeysOk;
    MaterializedIsOk(w);
  }
}
