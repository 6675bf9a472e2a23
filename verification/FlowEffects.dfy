/**
 What each request leaves behind, said on the store before and after it and on
 the JSON object the caller sent: every column of the flow, and nothing else.
 Each result also says exactly which requests are accepted.
 */
module FlowEffects {
  import opened Wrappers
  import opened Text
  import opened FlowRequests
  import opened FlowWorkspace
  import opened FlowActions

  /** What a flow holds apart from its version, its receipts and its graph rows. */
  datatype Contents = Contents(
    name: Name,
    archived: bool,
    revision: nat,
    configs: map<Task, Values>,
    drafts: map<Task, Values>,
    positions: map<Task, Position>,
    filterEnabled: bool,
    history: nat,
    pixelManaged: bool,
    guideClosed: bool)

  function ContentsOf(f: Flow): Contents {
    var w := f.state;
    Contents(f.name, f.status == Archived, f.revision, w.configs, w.drafts, w.positions, w.filterEnabled, w.history,
             w.pixelManaged, w.guideClosed)
  }

  /** A request for a flow of its site, under an id this flow has not seen. */
  predicate Unseen(s: Store, c: Command) {
    c.Mutate? && c.key in s.flows && s.flows[c.key].site == c.site && FindReceipt(s, c.key, c.req.id).None?
  }

  predicate Asks(c: Command, kind: string) {
    c.Mutate? && Get(c.req.data, "action") == Str(kind)
  }

  predicate AsksFor(c: Command, kind: string, t: Task) {
    Asks(c, kind) && Get(c.req.data, "nodeKey") == Str(TaskName(t))
  }

  predicate UpToDate(s: Store, c: Command)
    requires Unseen(s, c)
  {
    Get(c.req.data, "expectedVersion") == Integer(s.flows[c.key].state.version)
  }

  predicate Editable(s: Store, c: Command)
    requires Unseen(s, c)
  {
    UpToDate(s, c) && s.flows[c.key].status != Archived
  }

  ghost predicate Refused(s: Store, c: Command) {
    Do(s, c).0 == s && Do(s, c).1.Err?
  }

  // ----- The rows of the graph -----

  /** The rows of a task say whether and how it is configured. */
  ghost predicate ShowsTask(g: Flow, k: Task) {
    var w := g.state;
    && k in g.nodes && k in g.tasks
    && g.nodes[k].sequence == g.tasks[k].sequence && 1 <= g.nodes[k].sequence <= |TaskKeys(w.filterEnabled)|
    && TaskKeys(w.filterEnabled)[g.nodes[k].sequence - 1] == k
    && g.nodes[k].status == (if k in w.configs then Configured else Pending)
    && g.nodes[k].desired == (if k in w.configs then Some(w.configs[k]) else None)
    && g.tasks[k].status == (if k in w.configs then Waiting else Todo)
    && g.tasks[k].input == (if k in w.drafts then Some(w.drafts[k]) else None)
    && (g.tasks[k].recorded <==> k in w.configs)
  }

  /** Rows of a task outside the template are set aside as they are, and none appears. */
  ghost predicate SetsAside(f: Flow, g: Flow, k: Task) {
    && (k in g.nodes <==> k in f.nodes) && (k in g.tasks <==> k in f.tasks)
    && (k in f.nodes ==> g.nodes[k] == Node(Paused, f.nodes[k].sequence, f.nodes[k].desired))
    && (k in f.tasks ==> g.tasks[k] == TaskRow(Skipped, f.tasks[k].sequence, f.tasks[k].input, f.tasks[k].recorded))
  }

  ghost predicate Redrawn(f: Flow, g: Flow) {
    && g.edges == PlannedEdges(g.state.filterEnabled)
    && forall k: Task :: if InTemplate(g.state.filterEnabled, k) then ShowsTask(g, k) else SetsAside(f, g, k)
  }

  lemma TemplateHolds(filterEnabled: bool, k: Task)
    ensures k in Template(filterEnabled) <==> InTemplate(filterEnabled, k)
  {
    match k case Filter => case _ =>
  }

  lemma RowsOf(f: Flow, k: Task)
    ensures var g := Materialized(f);
            if InTemplate(f.state.filterEnabled, k)
            then k in g.nodes && g.nodes[k] == NodeFor(f.state, k) && k in g.tasks && g.tasks[k] == TaskFor(f.state, k)
            else SetsAside(f, g, k)
  {
    TemplateHolds(f.state.filterEnabled, k);
    hide Template, InTemplate, PlannedEdges, NodeFor, TaskFor;
  }

  lemma RedrawsTask(f: Flow, k: Task)
    ensures var g := Materialized(f);
            if InTemplate(f.state.filterEnabled, k) then ShowsTask(g, k) else SetsAside(f, g, k)
  {
    RowsOf(f, k);
    TaskKeysAreTheTemplate(f.state.filterEnabled, k);
    hide TaskKeys, InTemplate, PlannedEdges, NodesFor, TasksFor, SetsAside;
  }

  lemma Redraws(f: Flow, g: Flow)
    requires f.nodes == g.nodes && f.tasks == g.tasks
    ensures Redrawn(f, Materialized(g))
  {
    forall k: Task
      ensures var m := Materialized(g); if InTemplate(g.state.filterEnabled, k) then ShowsTask(m, k) else SetsAside(f, m, k)
    {
      RedrawsTask(g, k);
      hide NodesFor, TasksFor, PlannedEdges, ShowsTask, InTemplate;
    }
    hide ShowsTask, SetsAside, NodesFor, TasksFor, PlannedEdges, InTemplate;
  }

  /** The filter node sits on the way from crm to server, and nothing else depends on it. */
  lemma FilterSplitsOneEdge()
    ensures (Crm, Server) in PlannedEdges(false)
    ensures PlannedEdges(true) == PlannedEdges(false) - {(Crm, Server)} + {(Crm, Filter), (Filter, Server)}
    ensures forall k :: InTemplate(false, k) && k != Dataset ==> exists l :: (k, l) in PlannedEdges(false)
    ensures forall k :: InTemplate(false, k) && k != Ad ==> exists j :: (j, k) in PlannedEdges(false)
  {
    forall k | InTemplate(false, k) && k != Dataset ensures exists l :: (k, l) in PlannedEdges(false) {
      var l := match k case Ad => Website case Website => Form case Form => Crm case Pixel => Dataset case Crm => Server case _ => Dataset;
      assert (k, l) in PlannedEdges(false);
    }
    forall k | InTemplate(false, k) && k != Ad ensures exists j :: (j, k) in PlannedEdges(false) {
      var j := match k case Website => Ad case Form => Website case Pixel => Website case Crm => Form case Server => Crm case _ => Pixel;
      assert (j, k) in PlannedEdges(false);
    }
  }

  // ----- What an accepted request leaves -----

  /** The receipt is kept beside those that survive. */
  ghost predicate Receipted(f: Flow, g: Flow, c: Command, receipt: Receipt)
    requires c.Mutate?
  {
    forall id ::
      && (id in g.state.receipts <==> id == c.req.id || (id in f.state.receipts && id in c.kept))
      && (id in g.state.receipts ==> g.state.receipts[id] == if id == c.req.id then receipt else f.state.receipts[id])
  }

  /** The flow now holds this; a flow that is not archived is being configured once any node is. */
  ghost predicate Holds(f: Flow, g: Flow, now: Contents, redrawn: bool) {
    && ContentsOf(g) == now && g.site == f.site && g.owner == f.owner && g.fingerprint == f.fingerprint
    && g.status == (if now.archived then Archived else if now.configs != map[] then Configuring else Draft)
    && (if redrawn then Redrawn(f, g) else g.nodes == f.nodes && g.tasks == f.tasks && g.edges == f.edges)
  }

  /** The request is accepted: its flow holds `now` under the next version, and one audit line is written. */
  ghost predicate Leaves(s: Store, c: Command, now: Contents, redrawn: bool)
    requires Unseen(s, c)
  {
    var receipt := Receipt(Sha256(c.req.data), c.actor, None);
    var (s', result) := Do(s, c);
    && result == Ok(c.key) && s'.audit == s.audit + [Audit(c.key, c.req.id, receipt)]
    && s'.flows.Keys == s.flows.Keys && (forall k :: k in s.flows && k != c.key ==> s'.flows[k] == s.flows[k])
    && s'.flows[c.key].state.version == s.flows[c.key].state.version + 1
    && Receipted(s.flows[c.key], s'.flows[c.key], c, receipt)
    && Holds(s.flows[c.key], s'.flows[c.key], now, redrawn)
  }

  lemma StampHolds(f: Flow, acted: Flow, c: Command, action: Action, receipt: Receipt)
    requires c.Mutate? && acted.site == f.site && acted.owner == f.owner && acted.fingerprint == f.fingerprint
    requires acted.nodes == f.nodes && acted.tasks == f.tasks && acted.edges == f.edges
    requires acted.state.version == f.state.version && acted.state.receipts == f.state.receipts
    ensures var g := Stamped(acted, c.req.id, action, receipt, c.kept);
            && Receipted(f, g, c, receipt) && Holds(f, g, ContentsOf(acted), false)
            && g.state.version == if action.Duplicate? then f.state.version else f.state.version + 1
  {
  }

  lemma RecordHolds(f: Flow, acted: Flow, c: Command, action: Action, receipt: Receipt)
    requires c.Mutate? && acted.site == f.site && acted.owner == f.owner && acted.fingerprint == f.fingerprint
    requires acted.nodes == f.nodes && acted.tasks == f.tasks && acted.edges == f.edges
    requires acted.state.version == f.state.version && acted.state.receipts == f.state.receipts
    ensures var g := Recorded(acted, c.req.id, action, receipt, c.kept);
            && Receipted(f, g, c, receipt) && Holds(f, g, ContentsOf(acted), TouchesGraph(action))
            && g.state.version == if action.Duplicate? then f.state.version else f.state.version + 1
  {
    StampHolds(f, acted, c, action, receipt);
    Redraws(f, Stamped(acted, c.req.id, action, receipt, c.kept));
    hide Redrawn, Stamped, NodesFor, TasksFor, PlannedEdges;
  }

  lemma Decided(s: Store, c: Command)
    requires Unseen(s, c) && !Duplicates(c.req.data)
    ensures var r := Checked(s, c.key, c.req, c.out);
            if r.Ok? then Leaves(s, c, ContentsOf(r.value), TouchesGraph(ActionOf(c.req.data, c.out))) else Refused(s, c)
  {
    var r := Checked(s, c.key, c.req, c.out);
    if r.Ok? {
      var action := ActionOf(c.req.data, c.out);
      ActedTouches(s.flows[c.key], action, c.out);
      RecordHolds(s.flows[c.key], r.value, c, action, ReceiptFor(c.actor, c.req));
      hide Holds, Receipted, Recorded, ContentsOf, Acted, ActionOf, TouchesGraph;
    }
  }

  /** An action that needs a flow in use is accepted where it has an effect, and leaves that. */
  lemma Judged(s: Store, c: Command, a: Action)
    requires Unseen(s, c) && ActionOf(c.req.data, c.out) == a
    requires !a.Duplicate? && !a.Archive? && !a.Restore? && !a.Guide?
    ensures var r := Acted(s.flows[c.key], a, c.out);
            if Editable(s, c) && r.Ok?
            then Leaves(s, c, ContentsOf(r.value), a.SaveConfig? || a.SaveDraft? || a.SavePixelDraft? || a.SavePixelStep? || a.SetFilter?)
            else Refused(s, c)
  {
    Decided(s, c);
    hide Leaves, Refused, Acted, ContentsOf, ActionOf;
  }

  // ----- Saving -----

  /** The task can be saved with these values: it is in the flow, and not left to the pixel step. */
  predicate MaySave(f: Contents, t: Task, cleaned: Option<Values>) {
    && (t == Filter ==> f.filterEnabled) && cleaned.Some?
    && (f.pixelManaged ==> t != Pixel && (t == Form ==> Form in f.configs && f.configs[Form] == cleaned.value))
  }

  /** A request names its action by the text of `action`, and its node by the text of `nodeKey`. */
  lemma Reads(c: Command, t: Task)
    requires c.Mutate?
    ensures AsksFor(c, "save_config", t) ==> ActionOf(c.req.data, c.out) == SaveConfig(t, c.out.cleaned)
    ensures AsksFor(c, "save_draft", t) ==> ActionOf(c.req.data, c.out) == SaveDraft(t, c.out.cleaned)
    ensures AsksFor(c, "evidence", t) ==> ActionOf(c.req.data, c.out) == Evidence(t, EvidenceOk(c.req.data))
  {
    hide TaskOf, TaskName, EvidenceOk, CleanName, Layout, PixelAction;
  }

  lemma ReadsWhole(c: Command)
    requires c.Mutate?
    ensures Asks(c, "archive") ==> ActionOf(c.req.data, c.out) == Archive
    ensures Asks(c, "restore") ==> ActionOf(c.req.data, c.out) == Restore && !Asks(c, "archive")
    ensures Asks(c, "close_guide") ==> ActionOf(c.req.data, c.out) == Guide(true)
    ensures Asks(c, "reopen_guide") ==> ActionOf(c.req.data, c.out) == Guide(false) && !Asks(c, "close_guide")
    ensures Asks(c, "preflight") ==> ActionOf(c.req.data, c.out) == Preflight
  {
    hide TaskOf, TaskName, EvidenceOk, CleanName, Layout, PixelAction;
  }

  function WithConfig(f: Contents, t: Task, v: Values): Contents {
    var same := t in f.configs && f.configs[t] == v;
    f.(configs := f.configs[t := v], drafts := f.drafts - {t}, revision := if same then f.revision else f.revision + 1)
  }

  function WithPixelStep(f: Contents, v: Values, w: Values, bindingChanged: bool): Contents {
    var same := Pixel in f.configs && f.configs[Pixel] == v && Form in f.configs && f.configs[Form] == w && !bindingChanged;
    f.(configs := f.configs[Pixel := v][Form := w], drafts := f.drafts - {Pixel, Form}, pixelManaged := true,
       revision := if same then f.revision else f.revision + 1)
  }

  function WithFilterOn(f: Contents): Contents {
    f.(filterEnabled := true, revision := f.revision + 1)
  }

  function WithFilterOff(f: Contents): Contents {
    f.(filterEnabled := false, revision := f.revision + 1, configs := f.configs - {Filter}, drafts := f.drafts - {Filter},
       positions := f.positions - {Filter})
  }

  lemma SaveConfigActs(f: Flow, t: Task, out: Outside)
    ensures var r := Acted(f, SaveConfig(t, out.cleaned), out);
            var now := ContentsOf(f);
            && (r.Ok? <==> MaySave(now, t, out.cleaned) && (t == Dataset ==> out.bindOk))
            && (r.Ok? ==>
                  ContentsOf(r.value) == WithConfig(now, t, out.cleaned.value))
  {
  }

  lemma SaveDraftActs(f: Flow, t: Task, out: Outside)
    ensures var r := Acted(f, SaveDraft(t, out.cleaned), out);
            var now := ContentsOf(f);
            && (r.Ok? <==> MaySave(now, t, out.cleaned))
            && (r.Ok? ==> ContentsOf(r.value) == now.(drafts := now.drafts[t := out.cleaned.value]))
  {
  }

  lemma PixelDraftActs(f: Flow, v: Values, out: Outside)
    ensures var r := Acted(f, SavePixelDraft(v), out);
            var now := ContentsOf(f);
            r.Ok? && ContentsOf(r.value) == now.(drafts := now.drafts[Pixel := v])
  {
  }

  lemma PixelStepActs(f: Flow, v: Values, w: Values, out: Outside)
    ensures var r := Acted(f, SavePixelStep(v, w), out);
            var now := ContentsOf(f);
            r.Ok? && ContentsOf(r.value) == WithPixelStep(now, v, w, out.pixelBindingChanged)
  {
  }

  lemma PixelRefusals(f: Flow, out: Outside)
    ensures Acted(f, PixelStale, out).Err? && Acted(f, Malformed, out) == Err(Invalid)
  {
  }

  lemma FilterActs(f: Flow, enabled: Option<bool>, out: Outside)
    ensures var r := Acted(f, SetFilter(enabled), out);
            var now := ContentsOf(f);
            && (r.Ok? <==> enabled.Some?)
            && (r.Ok? ==>
                  ContentsOf(r.value) ==
                  if enabled.value == now.filterEnabled then now else if enabled.value then WithFilterOn(now) else WithFilterOff(now))
  {
  }

  lemma PositionsAct(f: Flow, layout: Option<map<Task, Position>>, out: Outside)
    ensures var r := Acted(f, SetPositions(layout), out);
            var cleaned := CleanPositions(layout, f.state.filterEnabled);
            && (r.Ok? <==> cleaned.Some?) && (r.Ok? ==> ContentsOf(r.value) == ContentsOf(f).(positions := cleaned.value))
  {
    hide CleanPositions;
  }

  lemma HistoryActs(f: Flow, t: Task, wellFormed: bool, out: Outside)
    ensures var r := Acted(f, Evidence(t, wellFormed), out);
            var now := ContentsOf(f);
            && (r.Ok? <==> now.history < 1000 && wellFormed && (t == Filter ==> now.filterEnabled))
            && (r.Ok? ==> ContentsOf(r.value) == now.(history := now.history + 1))
    ensures var r := Acted(f, Preflight, out);
            var now := ContentsOf(f);
            && (r.Ok? <==> now.history < 1000) && (r.Ok? ==> ContentsOf(r.value) == now.(history := now.history + 1))
  {
  }

  /** Saving a configuration stores it, drops the draft, and raises the revision unless it was stored already. */
  lemma SaveConfigGives(s: Store, c: Command, t: Task)
    requires Unseen(s, c) && AsksFor(c, "save_config", t)
    ensures var f := ContentsOf(s.flows[c.key]);
            if Editable(s, c) && MaySave(f, t, c.out.cleaned) && (t == Dataset ==> c.out.bindOk) then
              var v := c.out.cleaned.value;
              var same := t in f.configs && f.configs[t] == v;
              Leaves(s, c, f.(configs := f.configs[t := v], drafts := f.drafts - {t},
                              revision := if same then f.revision else f.revision + 1), true)
            else Refused(s, c)
  {
    assert c.Mutate? && c.key in s.flows;
    hide Leaves, Refused, Unseen, Editable, Acted, ContentsOf, ActionOf, Get, TaskName, FindReceipt, Do, MaySave, Asks, AsksFor;
    Reads(c, t);
    Judged(s, c, SaveConfig(t, c.out.cleaned));
    SaveConfigActs(s.flows[c.key], t, c.out);
  }

  /** Saving a draft changes that draft and nothing else. */
  lemma SaveDraftGives(s: Store, c: Command, t: Task)
    requires Unseen(s, c) && AsksFor(c, "save_draft", t)
    ensures var f := ContentsOf(s.flows[c.key]);
            if Editable(s, c) && MaySave(f, t, c.out.cleaned)
            then Leaves(s, c, f.(drafts := f.drafts[t := c.out.cleaned.value]), true)
            else Refused(s, c)
  {
    assert c.Mutate? && c.key in s.flows;
    hide *;
    Reads(c, t);
    Judged(s, c, SaveDraft(t, c.out.cleaned));
    SaveDraftActs(s.flows[c.key], t, c.out);
  }

  lemma PixelReads(c: Command)
    requires Asks(c, "save_pixel_step")
    ensures var a := ActionOf(c.req.data, c.out);
            var legal := Get(c.req.data, "expectedRuntimeVersion") == Integer(c.out.runtimeVersion) && c.out.pixelValues.Some?;
            if legal && Get(c.req.data, "intent") == Str("draft") then a == SavePixelDraft(c.out.pixelValues.value)
            else if legal && Get(c.req.data, "intent") == Str("save") && c.out.formValues.Some?
            then a == SavePixelStep(c.out.pixelValues.value, c.out.formValues.value)
            else a == PixelStale || a == Malformed
  {
    assert ActionOf(c.req.data, c.out) == PixelAction(c.req.data, c.out);
    hide ActionOf, Get;
  }

  /**
   The pixel step keeps its values as a draft, or configures pixel and form together
   and manages both from then on.
   */
  lemma PixelStepGives(s: Store, c: Command)
    requires Unseen(s, c) && Asks(c, "save_pixel_step")
    ensures var f := ContentsOf(s.flows[c.key]);
            var legal := Editable(s, c) && Get(c.req.data, "expectedRuntimeVersion") == Integer(c.out.runtimeVersion)
                         && c.out.pixelValues.Some?;
            if legal && Get(c.req.data, "intent") == Str("draft") then
              Leaves(s, c, f.(drafts := f.drafts[Pixel := c.out.pixelValues.value]), true)
            else if legal && Get(c.req.data, "intent") == Str("save") && c.out.formValues.Some? then
              var v, w := c.out.pixelValues.value, c.out.formValues.value;
              var same := Pixel in f.configs && f.configs[Pixel] == v && Form in f.configs && f.configs[Form] == w
                          && !c.out.pixelBindingChanged;
              Leaves(s, c, f.(configs := f.configs[Pixel := v][Form := w], drafts := f.drafts - {Pixel, Form},
                              pixelManaged := true, revision := if same then f.revision else f.revision + 1), true)
            else Refused(s, c)
  {
    assert c.Mutate? && c.key in s.flows;
    var a := ActionOf(c.req.data, c.out);
    PixelReads(c);
    PixelRefusals(s.flows[c.key], c.out);
    hide Leaves, Refused, Unseen, Editable, Acted, ContentsOf, ActionOf, PixelAction, Get, FindReceipt, Do, Asks;
    Judged(s, c, a);
    if a.SavePixelStep? { PixelStepActs(s.flows[c.key], a.values, a.formValues, c.out); }
    if a.SavePixelDraft? { PixelDraftActs(s.flows[c.key], a.values, c.out); }
  }

  // ----- The flow as a whole -----

  lemma RenameGives(s: Store, c: Command)
    requires Unseen(s, c) && Asks(c, "rename")
    ensures var f := ContentsOf(s.flows[c.key]);
            var name := CleanName(Get(c.req.data, "name"));
            if Editable(s, c) && name.Some? then Leaves(s, c, f.(name := name.value), false) else Refused(s, c)
  {
    var name := CleanName(Get(c.req.data, "name"));
    assert ActionOf(c.req.data, c.out) == Rename(name);
    Judged(s, c, Rename(name));
    var f := s.flows[c.key];
    assert name.Some? ==> ContentsOf(Acted(f, Rename(name), c.out).value) == ContentsOf(f).(name := name.value);
    hide *;
  }

  lemma StatusActs(f: Flow, out: Outside, closed: bool)
    ensures var r := Acted(f, Archive, out); r.Ok? && ContentsOf(r.value) == ContentsOf(f).(archived := true)
    ensures var r := Acted(f, Restore, out); r.Ok? && ContentsOf(r.value) == ContentsOf(f).(archived := false)
    ensures var r := Acted(f, Guide(closed), out); r.Ok? && ContentsOf(r.value) == ContentsOf(f).(guideClosed := closed)
  {
  }

  /** Archiving and restoring are for administrators and change nothing but the status. */
  lemma ArchiveGives(s: Store, c: Command)
    requires Unseen(s, c) && (Asks(c, "archive") || Asks(c, "restore"))
    ensures var f := ContentsOf(s.flows[c.key]);
            if UpToDate(s, c) && c.out.isAdmin && (Asks(c, "restore") || !f.archived)
            then Leaves(s, c, f.(archived := Asks(c, "archive")), false)
            else Refused(s, c)
  {
    ReadsWhole(c);
    hide ActionOf, Get, FindReceipt, Asks;
    Decided(s, c);
    assert TouchesGraph(Archive) == TouchesGraph(Restore) == false && (ContentsOf(s.flows[c.key]).archived <==> s.flows[c.key].status == Archived);
    StatusActs(s.flows[c.key], c.out, false);
    hide Leaves, Refused, Unseen, Acted, ContentsOf, Do, TouchesGraph;
  }

  /** The guide can be closed and opened again on any flow. */
  lemma GuideGives(s: Store, c: Command)
    requires Unseen(s, c) && (Asks(c, "close_guide") || Asks(c, "reopen_guide"))
    ensures var f := ContentsOf(s.flows[c.key]);
            if UpToDate(s, c) then Leaves(s, c, f.(guideClosed := Asks(c, "close_guide")), false) else Refused(s, c)
  {
    ReadsWhole(c);
    hide ActionOf, Get, FindReceipt, Asks;
    Decided(s, c);
    var a := Guide(Asks(c, "close_guide"));
    assert !TouchesGraph(a);
    StatusActs(s.flows[c.key], c.out, a.closed);
    hide Leaves, Refused, Unseen, Acted, ContentsOf, Do, TouchesGraph;
  }

  /** Switching the filter node raises the revision when it changes, and switching it off forgets what it held. */
  lemma FilterGives(s: Store, c: Command)
    requires Unseen(s, c) && Asks(c, "filter")
    ensures var f := ContentsOf(s.flows[c.key]);
            var enabled := Get(c.req.data, "enabled");
            if Editable(s, c) && enabled.Boolean? then
              if enabled.b == f.filterEnabled then Leaves(s, c, f, true)
              else if enabled.b then Leaves(s, c, f.(filterEnabled := true, revision := f.revision + 1), true)
              else Leaves(s, c, f.(filterEnabled := false, revision := f.revision + 1, configs := f.configs - {Filter},
                                   drafts := f.drafts - {Filter}, positions := f.positions - {Filter}), true)
            else Refused(s, c)
  {
    assert c.Mutate? && c.key in s.flows;
    var enabled := Get(c.req.data, "enabled");
    var a := SetFilter(if enabled.Boolean? then Some(enabled.b) else None);
    assert ActionOf(c.req.data, c.out) == a;
    hide Leaves, Refused, Unseen, Editable, Acted, ContentsOf, ActionOf, Get, TaskName, FindReceipt, Do, MaySave, Asks, AsksFor;
    Judged(s, c, a);
    FilterActs(s.flows[c.key], a.enabled, c.out);
  }

  // ----- Positions -----

  /** A finite number: booleans, NaN and the infinities are none. */
  predicate Number(v: Json, r: real) {
    (v.Integer? && v.i as real == r) || v == Float(Some(r))
  }

  predicate Coordinates(v: Json, x: real, y: real) {
    v.Object? && v.fields.Keys == {"x", "y"} && Number(v.fields["x"], x) && Number(v.fields["y"], y)
  }

  ghost predicate Placeable(v: Json, filterEnabled: bool) {
    v.Object? && forall key :: key in v.fields ==> NamesTask(filterEnabled, key) && exists x, y :: Coordinates(v.fields[key], x, y)
  }

  /** The stored coordinate is the one sent, or the bound it lies beyond. */
  predicate Bounded(low: real, high: real, sent: real, stored: real) {
    && (sent < low ==> stored == low) && (sent > high ==> stored == high) && (low <= sent <= high ==> stored == sent)
  }

  /** One position for each task the object names, from that task's own coordinates. */
  ghost predicate Places(v: Json, positions: map<Task, Position>) {
    && v.Object?
    && forall k ::
         && (k in positions <==> TaskName(k) in v.fields)
         && (k in positions ==> forall x, y :: Coordinates(v.fields[TaskName(k)], x, y) ==>
               && Bounded(8.0, if k == Filter then 112.0 else 77.0, x, positions[k].x)
               && Bounded(65.0, if k == Filter then 545.0 else 572.0, y, positions[k].y))
  }

  lemma PositionHasCoordinates(v: Json)
    ensures IsPosition(v) <==> exists x, y :: Coordinates(v, x, y)
    ensures IsPosition(v) ==>
              forall x, y :: Coordinates(v, x, y) <==> x == Finite(v.fields["x"]).value && y == Finite(v.fields["y"]).value
  {
    if IsPosition(v) {
      assert Coordinates(v, Finite(v.fields["x"]).value, Finite(v.fields["y"]).value);
    }
  }

  lemma PlaceableIsAcceptable(v: Json, filterEnabled: bool)
    ensures Placeable(v, filterEnabled) <==> AcceptablePositions(v, filterEnabled)
  {
    if v.Object? {
      forall key | key in v.fields ensures IsPosition(v.fields[key]) <==> exists x, y :: Coordinates(v.fields[key], x, y) {
        PositionHasCoordinates(v.fields[key]);
      }
    }
    hide IsPosition, NamesTask, Coordinates;
  }

  lemma LayoutPlaces(v: Json, filterEnabled: bool)
    requires CleanPositions(Layout(v), filterEnabled).Some?
    ensures Places(v, CleanPositions(Layout(v), filterEnabled).value)
  {
    var sent, stored := Layout(v).value, CleanPositions(Layout(v), filterEnabled).value;
    forall k, x, y | k in stored && Coordinates(v.fields[TaskName(k)], x, y)
      ensures Bounded(8.0, if k == Filter then 112.0 else 77.0, x, stored[k].x)
      ensures Bounded(65.0, if k == Filter then 545.0 else 572.0, y, stored[k].y)
    {
      PositionHasCoordinates(v.fields[TaskName(k)]);
    }
  }

  /** A layout is accepted exactly when it places tasks of this flow, and replaces the one before. */
  lemma PositionsGives(s: Store, c: Command)
    requires Unseen(s, c) && Asks(c, "positions")
    ensures var f := ContentsOf(s.flows[c.key]);
            var v := Get(c.req.data, "positions");
            if Editable(s, c) && Placeable(v, f.filterEnabled)
            then exists positions :: Places(v, positions) && Leaves(s, c, f.(positions := positions), false)
            else Refused(s, c)
  {
    var f := s.flows[c.key];
    var v := Get(c.req.data, "positions");
    assert ActionOf(c.req.data, c.out) == SetPositions(Layout(v));
    Judged(s, c, SetPositions(Layout(v)));
    PositionsAreClean(v, f.state.filterEnabled);
    PlaceableIsAcceptable(v, f.state.filterEnabled);
    var cleaned := CleanPositions(Layout(v), f.state.filterEnabled);
    if cleaned.Some? { LayoutPlaces(v, f.state.filterEnabled); }
    PositionsAct(f, Layout(v), c.out);
    hide *;
  }

  // ----- History -----

  /** A manual record: an observed result with a note of 8 to 2000 characters and a short reference. */
  predicate Reported(data: Data) {
    && Get(data, "result") in {Str("observed"), Str("issue"), Str("pending")}
    && "note" in data && data["note"].Str? && 8 <= |Strip(data["note"].s)| <= 2000
    && ("reference" in data ==> data["reference"].Str? && |data["reference"].s| <= 500)
  }

  lemma EvidenceGives(s: Store, c: Command, t: Task)
    requires Unseen(s, c) && AsksFor(c, "evidence", t)
    ensures var f := ContentsOf(s.flows[c.key]);
            if Editable(s, c) && f.history < 1000 && Reported(c.req.data) && (t == Filter ==> f.filterEnabled)
            then Leaves(s, c, f.(history := f.history + 1), false) else Refused(s, c)
  {
    assert c.Mutate? && c.key in s.flows;
    assert EvidenceOk(c.req.data) == Reported(c.req.data);
    hide *;
    Reads(c, t);
    Judged(s, c, Evidence(t, EvidenceOk(c.req.data)));
    HistoryActs(s.flows[c.key], t, EvidenceOk(c.req.data), c.out);
  }

  lemma PreflightGives(s: Store, c: Command)
    requires Unseen(s, c) && Asks(c, "preflight")
    ensures var f := ContentsOf(s.flows[c.key]);
            if Editable(s, c) && f.history < 1000 then Leaves(s, c, f.(history := f.history + 1), false) else Refused(s, c)
  {
    assert c.Mutate? && c.key in s.flows;
    ReadsWhole(c);
    hide *;
    Judged(s, c, Preflight);
    HistoryActs(s.flows[c.key], Dataset, true, c.out);
  }

  // ----- Refusals -----

  predicate Known(c: Command) {
    || Asks(c, "rename") || Asks(c, "close_guide") || Asks(c, "reopen_guide") || Asks(c, "archive") || Asks(c, "restore")
    || Asks(c, "duplicate") || Asks(c, "save_pixel_step") || Asks(c, "positions") || Asks(c, "filter")
    || Asks(c, "preflight")
    || exists t :: AsksFor(c, "save_config", t) || AsksFor(c, "save_draft", t) || AsksFor(c, "evidence", t)
  }

  lemma UnknownIsMalformed(c: Command)
    requires c.Mutate? && !Known(c)
    ensures ActionOf(c.req.data, c.out) == Malformed
  {
    var node := TaskOf(Get(c.req.data, "nodeKey"));
    if node.Some? {
      assert Get(c.req.data, "nodeKey") == Str(TaskName(node.value));
      assert !AsksFor(c, "save_config", node.value) && !AsksFor(c, "save_draft", node.value) && !AsksFor(c, "evidence", node.value);
    }
    hide TaskOf, Layout, CleanName, EvidenceOk;
  }

  lemma ReadsExactly(c: Command)
    requires c.Mutate?
    ensures Asks(c, "archive") <==> ActionOf(c.req.data, c.out).Archive?
    ensures Asks(c, "restore") <==> ActionOf(c.req.data, c.out).Restore?
    ensures Asks(c, "duplicate") <==> ActionOf(c.req.data, c.out).Duplicate?
    ensures (Asks(c, "close_guide") || Asks(c, "reopen_guide")) <==> ActionOf(c.req.data, c.out).Guide?
  {
    hide TaskOf, TaskName, EvidenceOk, CleanName, Layout, PixelAction;
    PixelIsPixel(c.req.data, c.out);
  }

  lemma PixelIsPixel(data: Data, out: Outside)
    ensures var a := PixelAction(data, out); a.PixelStale? || a.Malformed? || a.SavePixelDraft? || a.SavePixelStep?
  {
  }

  /** Outdated requests conflict, forbidden ones are denied, archived flows and unknown actions are invalid. */
  lemma RefusedFor(s: Store, c: Command)
    requires Unseen(s, c)
    ensures !UpToDate(s, c) ==> Do(s, c) == (s, Err(Conflict))
    ensures UpToDate(s, c) && (Asks(c, "archive") || Asks(c, "restore")) && !c.out.isAdmin ==> Do(s, c) == (s, Err(Denied))
    ensures UpToDate(s, c) && s.flows[c.key].status == Archived && (Asks(c, "archive") ==> c.out.isAdmin)
            && !(Asks(c, "restore") || Asks(c, "duplicate") || Asks(c, "close_guide") || Asks(c, "reopen_guide"))
            ==> Do(s, c) == (s, Err(Invalid))
    ensures UpToDate(s, c) && !Known(c) ==> Do(s, c) == (s, Err(Invalid))
  {
    if !Known(c) { UnknownIsMalformed(c); }
    ReadsExactly(c);
    hide ActionOf, Known, FindReceipt, Asks, Acted;
    assert Acted(s.flows[c.key], Malformed, c.out) == Err(Invalid) by { PixelRefusals(s.flows[c.key], c.out); }
  }

  // ----- New flows -----

  /** A new flow: nothing configured, every node of the template pending, and nothing else drawn. */
  ghost predicate Blank(g: Flow, site: SiteId, owner: ActorId, fp: Fingerprint, filterEnabled: bool, positions: map<Task, Position>) {
    && g.site == site && g.owner == owner && g.fingerprint == fp && g.status == Draft
    && ContentsOf(g) == Contents(fp.name, false, 1, map[], map[], positions, filterEnabled, 0, false, false)
    && g.state.version == 1 && g.state.receipts == map[] && g.edges == PlannedEdges(filterEnabled)
    && forall k: Task :: if InTemplate(filterEnabled, k) then ShowsTask(g, k) else k !in g.nodes && k !in g.tasks
  }

  lemma BareIsBlank(f: Flow)
    requires f.status == Draft && f.nodes.Keys <= Template(false) && f.tasks.Keys <= Template(false)
    requires ContentsOf(f) == Contents(f.fingerprint.name, false, 1, map[], map[], f.state.positions, f.state.filterEnabled, 0, false, false)
    requires f.state.version == 1 && f.state.receipts == map[]
    ensures Blank(Materialized(f), f.site, f.owner, f.fingerprint, f.state.filterEnabled, f.state.positions)
  {
    var g := Materialized(f);
    Redraws(f, f);
    forall k: Task ensures if InTemplate(f.state.filterEnabled, k) then ShowsTask(g, k) else k !in g.nodes && k !in g.tasks {
      assert if InTemplate(f.state.filterEnabled, k) then ShowsTask(g, k) else SetsAside(f, g, k);
      TemplateHolds(false, k);
      hide ShowsTask, Materialized, Template;
    }
    hide ShowsTask, Redrawn, SetsAside, NodesFor, TasksFor, PlannedEdges, InTemplate, Template;
  }

  lemma NewIsBlank(site: SiteId, actor: ActorId, fp: Fingerprint)
    ensures Blank(NewFlow(site, actor, fp), site, actor, fp, false, map[])
  {
    BareIsBlank(Flow(site, actor, fp, fp.name, Draft, 1, FRESH, map[], map[], {}));
    hide Blank, Materialized;
  }

  lemma CopyIsBlank(f: Flow, actor: ActorId, copyName: Name)
    ensures Blank(Copied(f, actor, copyName), f.site, actor, Fingerprint(copyName, f.fingerprint.production, ""),
                  f.state.filterEnabled, f.state.positions)
  {
    var fp := Fingerprint(copyName, f.fingerprint.production, "");
    var g := NewFlow(f.site, actor, fp);
    BareIsBlank(g.(state := g.state.(filterEnabled := f.state.filterEnabled, positions := f.state.positions)));
    hide Blank, NodesFor, TasksFor, PlannedEdges;
  }

  /** A new id makes one blank flow; a known one is answered exactly for the same site, owner and fingerprint. */
  lemma CreateGives(s: Store, site: SiteId, actor: ActorId, id: RequestId, fp: Option<Fingerprint>, out: Outside)
    ensures var (s', result) := Do(s, Create(site, actor, id, fp, out));
            if fp.Some? && id !in s.flows && out.createOk then
              && result == Ok(id) && s'.audit == s.audit && s'.flows.Keys == s.flows.Keys + {id}
              && (forall k :: k in s.flows ==> s'.flows[k] == s.flows[k])
              && Blank(s'.flows[id], site, actor, fp.value, false, map[])
            else
              && s' == s
              && (result == Ok(id) <==> fp.Some? && id in s.flows && s.flows[id].site == site && s.flows[id].owner == actor
                                        && s.flows[id].fingerprint == fp.value)
              && (result == Err(Conflict) || result == Err(Invalid) || result == Ok(id))
  {
    if fp.Some? { NewIsBlank(site, actor, fp.value); }
    hide NewFlow, Blank;
  }

  lemma AppendedHolds(s: Store, g: Flow, copy: Flow, a: Audit)
    requires a.flow in s.flows
    ensures var s' := Appended(s, g, Some(copy), a);
            && s'.audit == s.audit + [a] && s'.flows.Keys == s.flows.Keys + {a.request}
            && (forall k :: k in s.flows && k != a.flow && k != a.request ==> s'.flows[k] == s.flows[k])
            && s'.flows[a.flow] == g && (a.request != a.flow ==> s'.flows[a.request] == copy)
  {
  }

  lemma DuplicateDoes(s: Store, c: Command)
    requires Unseen(s, c) && Asks(c, "duplicate")
    ensures var f := s.flows[c.key];
            var receipt := Receipt(Sha256(c.req.data), c.actor, Some(c.req.id));
            if UpToDate(s, c) && c.req.id !in s.flows && c.out.createOk then
              Do(s, c) == (Appended(s, Recorded(f, c.req.id, Duplicate, receipt, c.kept), Some(Copied(f, c.actor, c.out.copyName)),
                                    Audit(c.key, c.req.id, receipt)), Ok(c.req.id))
            else Refused(s, c)
  {
    assert ActionOf(c.req.data, c.out) == Duplicate;
    hide ActionOf, Recorded, Copied, FindReceipt, Get, Appended;
  }

  /** A copy is blank but for topology and layout; of the flow it was made from only the receipts change. */
  lemma DuplicateGives(s: Store, c: Command)
    requires Unseen(s, c) && Asks(c, "duplicate")
    ensures var (s', result) := Do(s, c);
            var f := s.flows[c.key];
            var receipt := Receipt(Sha256(c.req.data), c.actor, Some(c.req.id));
            if UpToDate(s, c) && c.req.id !in s.flows && c.out.createOk then
              && result == Ok(c.req.id) && s'.audit == s.audit + [Audit(c.key, c.req.id, receipt)]
              && s'.flows.Keys == s.flows.Keys + {c.req.id}
              && (forall k :: k in s.flows && k != c.key ==> s'.flows[k] == s.flows[k])
              && Receipted(f, s'.flows[c.key], c, receipt) && Holds(f, s'.flows[c.key], ContentsOf(f), false)
              && s'.flows[c.key].state.version == f.state.version
              && Blank(s'.flows[c.req.id], f.site, c.actor, Fingerprint(c.out.copyName, f.fingerprint.production, ""),
                       f.state.filterEnabled, f.state.positions)
            else Refused(s, c)
  {
    var f := s.flows[c.key];
    var receipt := Receipt(Sha256(c.req.data), c.actor, Some(c.req.id));
    DuplicateDoes(s, c);
    CopyIsBlank(f, c.actor, c.out.copyName);
    RecordHolds(f, f, c, Duplicate, receipt);
    assert !TouchesGraph(Duplicate);
    AppendedHolds(s, Recorded(f, c.req.id, Duplicate, receipt, c.kept), Copied(f, c.actor, c.out.copyName), Audit(c.key, c.req.id, receipt));
    hide Do, Unseen, UpToDate, Refused, Recorded, Copied, Appended, Blank, Holds, Receipted, ContentsOf, TouchesGraph;
  }

  // ----- Names -----

  /** Every run of white space as one blank. */
  function Squeezed(s: string): string {
    if s == "" then ""
    else
      var rest := Squeezed(s[1..]);
      if !White(s[0]) then [s[0]] + rest
      else if rest == "" || rest[0] == ' ' then rest else " " + rest
  }

  lemma {:induction false} SqueezedWord(w: string, rest: string)
    requires forall i :: 0 <= i < |w| ==> !White(w[i])
    ensures Squeezed(w + rest) == w + Squeezed(rest)
  {
    if w == "" {
      assert w + rest == rest;
    } else {
      SqueezedWord(w[1..], rest);
      assert (w + rest)[1..] == w[1..] + rest;
    }
  }

  lemma {:induction false} WordIsPrefix(s: string)
    ensures |Word(s)| <= |s| && s[..|Word(s)|] == Word(s)
    ensures forall i :: 0 <= i < |Word(s)| ==> !White(Word(s)[i])
    ensures |Word(s)| < |s| ==> White(s[|Word(s)|])
  {
    if s != "" && !White(s[0]) {
      WordIsPrefix(s[1..]);
    }
  }

  lemma WordsOfWord(s: string)
    requires s != "" && !White(s[0])
    ensures var w := Word(s);
            var rest := s[|w|..];
            && w != "" && Squeezed(s) == w + Squeezed(rest) && (rest != "" ==> White(rest[0]))
            && Words(s) == [w] + Words(rest)
            && Spaced(Words(s)) == if Words(rest) == [] then w else w + " " + Spaced(Words(rest))
  {
    var w := Word(s);
    var rest := s[|w|..];
    WordIsPrefix(s);
    assert s == w + rest;
    SqueezedWord(w, rest);
    assert ([w] + Words(rest))[1..] == Words(rest);
    hide Squeezed, White, Word;
  }

  lemma {:induction false} WordsAreSqueezed(s: string)
    ensures Words(s) == [] <==> Spaced(Words(s)) == ""
    ensures Spaced(Words(s)) != "" ==> !White(Spaced(Words(s))[0])
    ensures Squeezed(s) == if s != "" && White(s[0]) && Spaced(Words(s)) != "" then " " + Spaced(Words(s)) else Spaced(Words(s))
    decreases |s|
  {
    if s == "" {
    } else if White(s[0]) {
      WordsAreSqueezed(s[1..]);
      assert Words(s) == Words(s[1..]);
      assert White(' ');
      hide Spaced, Words, White, Word;
    } else {
      WordsOfWord(s);
      WordIsPrefix(s);
      WordsAreSqueezed(s[|Word(s)|..]);
      hide Squeezed, Spaced, Words, White, Word;
    }
  }

  /** A name is accepted when it has 2 to 200 characters once its ends are stripped and each run of white space is one blank. */
  lemma NamesAreSqueezed(v: Json)
    ensures CleanName(v).Some? <==> v.Str? && var q := Squeezed(v.s); 2 <= (if q != "" && q[0] == ' ' then |q| - 1 else |q|) <= 200
    ensures CleanName(v).Some? ==>
              var q := Squeezed(v.s);
              CleanName(v).value == if q != "" && q[0] == ' ' then q[1..] else q
  {
    if v.Str? { WordsAreSqueezed(v.s); }
    hide Squeezed, Words, Spaced;
  }
}
