/**
 Flow workspace mutations (flow_workspace_service): every request runs under the
 site lock, carries an idempotency key and an expected version, and is recorded
 both in a bounded receipt cache and in the append-only audit log. The planned
 topology is materialised into node, task and edge rows.
 */
module FlowWorkspace {
  import opened Wrappers
  import opened FlowRequests

  // A flow's key is the id of the request that created it.
  type FlowId = RequestId
  type SiteId = nat
  type ActorId = nat

  const RECEIPT_LIMIT: nat := 64
  const HISTORY_LIMIT: nat := 1000

  datatype Status = Draft | Configuring | Archived

  /** flow_workspace_schema.task_keys: the filter node sits between crm and server. */
  function TaskKeys(filterEnabled: bool): seq<Task> {
    if filterEnabled then [Dataset, Website, Pixel, Form, Crm, Filter, Server, Ad]
    else [Dataset, Website, Pixel, Form, Crm, Server, Ad]
  }

  /** The place of a task in TaskKeys, counted from one. */
  function Sequence(filterEnabled: bool, k: Task): nat {
    match k
    case Dataset => 1
    case Website => 2
    case Pixel => 3
    case Form => 4
    case Crm => 5
    case Filter => 6
    case Server => if filterEnabled then 7 else 6
    case Ad => if filterEnabled then 8 else 7
  }

  /** The list, the membership test and the numbering agree. */
  lemma TaskKeysAreTheTemplate(filterEnabled: bool, k: Task)
    ensures k in TaskKeys(filterEnabled) <==> InTemplate(filterEnabled, k)
    ensures InTemplate(filterEnabled, k) ==>
              var i := Sequence(filterEnabled, k) - 1;
              i < |TaskKeys(filterEnabled)| && TaskKeys(filterEnabled)[i] == k
    ensures forall i, j :: 0 <= i < j < |TaskKeys(filterEnabled)| ==> TaskKeys(filterEnabled)[i] != TaskKeys(filterEnabled)[j]
  {
    var keys := TaskKeys(filterEnabled);
    if InTemplate(filterEnabled, k) {
      assert keys[Sequence(filterEnabled, k) - 1] == k;
    }
  }

  function PlannedEdges(filterEnabled: bool): set<(Task, Task)> {
    {(Ad, Website), (Website, Form), (Website, Pixel), (Form, Crm), (Pixel, Dataset), (Server, Dataset)}
    + (if filterEnabled then {(Crm, Filter), (Filter, Server)} else {(Crm, Server)})
  }

  function Clamp(low: real, high: real, v: real): real {
    var capped := if high < v then high else v;
    if low < capped then capped else low
  }

  /** flow_workspace_schema.clean_positions for one node. */
  function CleanPosition(k: Task, p: Position): Position {
    Position(Clamp(8.0, if k == Filter then 112.0 else 77.0, p.x), Clamp(65.0, if k == Filter then 545.0 else 572.0, p.y))
  }

  function CleanPositions(values: Option<map<Task, Position>>, filterEnabled: bool): Option<map<Task, Position>> {
    if values.None? || !(forall k :: k in values.value ==> InTemplate(filterEnabled, k)) then None
    else Some(map k | k in values.value :: CleanPosition(k, values.value[k]))
  }

  /** The creation fingerprint: SHA-256 of what creation cleaned, taken as injective. */
  datatype Fingerprint = Fingerprint(name: Name, production: bool, note: string)

  datatype Receipt = Receipt(digest: Digest, actor: ActorId, createdId: Option<FlowId>)

  datatype NodeStatus = Configured | Pending | Paused
  datatype TaskStatus = Waiting | Todo | Skipped

  datatype Node = Node(status: NodeStatus, sequence: nat, desired: Option<Values>)
  datatype TaskRow = TaskRow(status: TaskStatus, sequence: nat, input: Option<Values>, recorded: bool)

  datatype Workspace = Workspace(
    version: nat,
    configs: map<Task, Values>,
    drafts: map<Task, Values>,
    positions: map<Task, Position>,
    filterEnabled: bool,
    history: nat,
    receipts: map<RequestId, Receipt>,
    pixelManaged: bool,
    guideClosed: bool)

  datatype Flow = Flow(
    site: SiteId,
    owner: ActorId,
    fingerprint: Fingerprint,
    name: Name,
    status: Status,
    revision: nat,
    state: Workspace,
    nodes: map<Task, Node>,
    tasks: map<Task, TaskRow>,
    edges: set<(Task, Task)>)

  datatype Audit = Audit(flow: FlowId, request: RequestId, receipt: Receipt)

  datatype Store = Store(flows: map<FlowId, Flow>, audit: seq<Audit>)

  datatype Error = NotFound | Conflict | Denied | Invalid

  // ----- The materialised graph -----

  function Lookup<V>(m: map<Task, V>, k: Task): Option<V> {
    if k in m then Some(m[k]) else None
  }

  function NodeFor(w: Workspace, k: Task): Node {
    Node(if k in w.configs then Configured else Pending, Sequence(w.filterEnabled, k), Lookup(w.configs, k))
  }

  function TaskFor(w: Workspace, k: Task): TaskRow {
    TaskRow(if k in w.configs then Waiting else Todo, Sequence(w.filterEnabled, k),
            Lookup(w.drafts, k), k in w.configs)
  }

  function Template(filterEnabled: bool): set<Task> {
    {Dataset, Website, Pixel, Form, Crm, Server, Ad} + (if filterEnabled then {Filter} else {})
  }

  function NodesFor(w: Workspace, nodes: map<Task, Node>): map<Task, Node> {
    map k: Task | k in nodes.Keys + Template(w.filterEnabled) ::
      if InTemplate(w.filterEnabled, k) then NodeFor(w, k) else nodes[k].(status := Paused)
  }

  function TasksFor(w: Workspace, tasks: map<Task, TaskRow>): map<Task, TaskRow> {
    map k: Task | k in tasks.Keys + Template(w.filterEnabled) ::
      if InTemplate(w.filterEnabled, k) then TaskFor(w, k) else tasks[k].(status := Skipped)
  }

  /** The rows _graph leaves behind, given the rows it finds. */
  function Materialized(f: Flow): Flow {
    f.(nodes := NodesFor(f.state, f.nodes), tasks := TasksFor(f.state, f.tasks),
       edges := PlannedEdges(f.state.filterEnabled))
  }

  // ----- One request -----

  const FRESH := Workspace(1, map[], map[], map[], false, 0, map[], false, false)

  function NewFlow(site: SiteId, actor: ActorId, fp: Fingerprint): Flow {
    Materialized(Flow(site, actor, fp, fp.name, Draft, 1, FRESH, map[], map[], {}))
  }

  /** The latest audit row of this flow and request. */
  function PriorReceipt(audit: seq<Audit>, key: FlowId, id: RequestId): Option<Receipt> {
    if audit == [] then None
    else
      var last := audit[|audit| - 1];
      if last.flow == key && last.request == id then Some(last.receipt)
      else PriorReceipt(audit[..|audit| - 1], key, id)
  }

  function FindReceipt(s: Store, key: FlowId, id: RequestId): Option<Receipt>
    requires key in s.flows
  {
    var cache := s.flows[key].state.receipts;
    if id in cache then Some(cache[id]) else PriorReceipt(s.audit, key, id)
  }

  function Settled(f: Flow): Flow {
    if f.status == Archived then f
    else f.(status := if f.state.configs != map[] then Configuring else Draft)
  }

  function SavedConfig(f: Flow, task: Task, values: Values): Flow {
    f.(revision := if Lookup(f.state.configs, task) != Some(values) then f.revision + 1 else f.revision,
       state := f.state.(configs := f.state.configs[task := values], drafts := f.state.drafts - {task}))
  }

  function SavedPixelStep(f: Flow, values: Values, formValues: Values, bindingChanged: bool): Flow {
    var w := f.state;
    f.(revision := if Lookup(w.configs, Pixel) != Some(values) || Lookup(w.configs, Form) != Some(formValues)
                      || bindingChanged
                   then f.revision + 1 else f.revision,
       state := w.(configs := w.configs[Pixel := values][Form := formValues],
                   drafts := w.drafts - {Pixel, Form}, pixelManaged := true))
  }

  function WithFilter(f: Flow, enabled: bool): Flow {
    if enabled == f.state.filterEnabled then f
    else
      var w := f.state.(filterEnabled := enabled);
      f.(revision := f.revision + 1,
         state := if enabled then w
                  else w.(configs := w.configs - {Filter}, drafts := w.drafts - {Filter},
                          positions := w.positions - {Filter}))
  }

  predicate PixelLocked(w: Workspace, task: Task, values: Values) {
    w.pixelManaged && (task == Pixel || (task == Form && Lookup(w.configs, Form) != Some(values)))
  }

  /** The action's effect on the flow it addresses, before the version and the receipt are written. */
  function Acted(f: Flow, a: Action, out: Outside): Result<Flow, Error> {
    var w := f.state;
    match a
    case Rename(name) => if name.None? then Err(Invalid) else Ok(f.(name := name.value))
    case Guide(closed) => Ok(f.(state := w.(guideClosed := closed)))
    case Archive => Ok(f.(status := Archived))
    case Restore => Ok(f.(status := if w.configs != map[] then Configuring else Draft))
    case Duplicate => if out.createOk then Ok(f) else Err(Invalid)
    case SavePixelDraft(values) => Ok(f.(state := w.(drafts := w.drafts[Pixel := values])))
    case SavePixelStep(values, formValues) => Ok(SavedPixelStep(f, values, formValues, out.pixelBindingChanged))
    case PixelStale => Err(Conflict)
    case SaveConfig(task, cleaned) =>
      if !InTemplate(w.filterEnabled, task) || cleaned.None? || PixelLocked(w, task, cleaned.value)
         || (task == Dataset && !out.bindOk)
      then Err(Invalid) else Ok(SavedConfig(f, task, cleaned.value))
    case SaveDraft(task, cleaned) =>
      if !InTemplate(w.filterEnabled, task) || cleaned.None? || PixelLocked(w, task, cleaned.value)
      then Err(Invalid) else Ok(f.(state := w.(drafts := w.drafts[task := cleaned.value])))
    case SetPositions(values) =>
      var cleaned := CleanPositions(values, w.filterEnabled);
      if cleaned.None? then Err(Invalid) else Ok(f.(state := w.(positions := cleaned.value)))
    case SetFilter(enabled) => if enabled.None? then Err(Invalid) else Ok(WithFilter(f, enabled.value))
    case Evidence(task, wellFormed) =>
      if w.history >= HISTORY_LIMIT || !wellFormed || !InTemplate(w.filterEnabled, task)
      then Err(Invalid) else Ok(f.(state := w.(history := w.history + 1)))
    case Preflight => if w.history >= HISTORY_LIMIT then Err(Invalid) else Ok(f.(state := w.(history := w.history + 1)))
    case Malformed => Err(Invalid)
  }

  predicate TouchesGraph(a: Action) {
    a.SaveConfig? || a.SaveDraft? || a.SavePixelDraft? || a.SavePixelStep? || a.SetFilter?
  }

  /** Which receipts survive is arbitrary: the stored JSON does not keep insertion order. */
  predicate Evicts(cache: map<RequestId, Receipt>, kept: set<RequestId>) {
    && kept <= cache.Keys && |kept| < RECEIPT_LIMIT
    && (|cache| < RECEIPT_LIMIT ==> kept == cache.Keys)
  }

  function Kept(cache: map<RequestId, Receipt>, kept: set<RequestId>): map<RequestId, Receipt> {
    map id | id in cache && id in kept :: cache[id]
  }

  /** A copy takes the topology and the layout, not the configuration. */
  function Copied(f: Flow, actor: ActorId, copyName: Name): Flow {
    var g := NewFlow(f.site, actor, Fingerprint(copyName, f.fingerprint.production, ""));
    Materialized(g.(state := g.state.(filterEnabled := f.state.filterEnabled, positions := f.state.positions)))
  }

  /** The new version, the receipt and the status, written over the action's effect. */
  function Stamped(acted: Flow, id: RequestId, action: Action, receipt: Receipt, kept: set<RequestId>): Flow {
    var w := acted.state;
    Settled(acted.(
              state := w.(version := if action.Duplicate? then w.version else w.version + 1,
                          receipts := Kept(w.receipts, kept)[id := receipt])))
  }

  function Recorded(acted: Flow, id: RequestId, action: Action, receipt: Receipt, kept: set<RequestId>): Flow {
    var f := Stamped(acted, id, action, receipt, kept);
    if TouchesGraph(action) then Materialized(f) else f
  }

  function Appended(s: Store, f: Flow, copy: Option<Flow>, a: Audit): Store {
    Store((if copy.Some? then s.flows[a.request := copy.value] else s.flows)[a.flow := f], s.audit + [a])
  }

  function ReceiptFor(actor: ActorId, req: Request): Receipt {
    Receipt(Sha256(req.data), actor, if Duplicates(req.data) then Some(req.id) else None)
  }

  function Accept(s: Store, actor: ActorId, key: FlowId, req: Request, out: Outside, acted: Flow, kept: set<RequestId>)
    : Store
    requires key in s.flows
  {
    var receipt := ReceiptFor(actor, req);
    var copy := if Duplicates(req.data) then Some(Copied(s.flows[key], actor, out.copyName)) else None;
    Appended(s, Recorded(acted, req.id, ActionOf(req.data, out), receipt, kept), copy, Audit(key, req.id, receipt))
  }

  /** The check order of mutate_flow, up to the acceptance of the request. */
  function Checked(s: Store, key: FlowId, req: Request, out: Outside): Result<Flow, Error>
    requires key in s.flows
  {
    var f := s.flows[key];
    var action := ActionOf(req.data, out);
    if Get(req.data, "expectedVersion") != Integer(f.state.version) then Err(Conflict)
    else if (action.Archive? || action.Restore?) && !out.isAdmin then Err(Denied)
    else if f.status == Archived && !(action.Restore? || action.Duplicate? || action.Guide?) then Err(Invalid)
    else if action.Duplicate? && req.id in s.flows then Err(Conflict)
    else Acted(f, action, out)
  }

  function Mutated(s: Store, site: SiteId, actor: ActorId, key: FlowId, req: Request, out: Outside, kept: set<RequestId>)
    : (Store, Result<FlowId, Error>)
  {
    if key !in s.flows || s.flows[key].site != site then (s, Err(NotFound))
    else
      match FindReceipt(s, key, req.id)
      case Some(r) =>
        if r.digest != Sha256(req.data) || r.actor != actor then (s, Err(Conflict))
        else if r.createdId.Some? then
          if r.createdId.value in s.flows && s.flows[r.createdId.value].site == site
          then (s, Ok(r.createdId.value)) else (s, Err(NotFound))
        else (s, Ok(key))
      case None =>
        match Checked(s, key, req, out)
        case Err(e) => (s, Err(e))
        case Ok(acted) =>
          (Accept(s, actor, key, req, out, acted, kept), Ok(if Duplicates(req.data) then req.id else key))
  }

  function Created(s: Store, site: SiteId, actor: ActorId, id: RequestId, fp: Option<Fingerprint>, out: Outside)
    : (Store, Result<FlowId, Error>)
  {
    if fp.None? then (s, Err(Invalid))
    else if id in s.flows then
      var f := s.flows[id];
      if f.site == site && f.owner == actor && f.fingerprint == fp.value then (s, Ok(id)) else (s, Err(Conflict))
    else if !out.createOk then (s, Err(Invalid))
    else (s.(flows := s.flows[id := NewFlow(site, actor, fp.value)]), Ok(id))
  }

  datatype Command =
    | Create(site: SiteId, actor: ActorId, id: RequestId, fp: Option<Fingerprint>, out: Outside)
    | Mutate(site: SiteId, actor: ActorId, key: FlowId, req: Request, out: Outside, kept: set<RequestId>)

  /** The receipts that survive must be a possible outcome of the cache's eviction. */
  ghost predicate Possible(s: Store, c: Command) {
    c.Mutate? && c.key in s.flows ==> Evicts(s.flows[c.key].state.receipts, c.kept)
  }

  function Do(s: Store, c: Command): (Store, Result<FlowId, Error>) {
    match c
    case Create(site, actor, id, fp, out) => Created(s, site, actor, id, fp, out)
    case Mutate(site, actor, key, req, out, kept) => Mutated(s, site, actor, key, req, out, kept)
  }
}
