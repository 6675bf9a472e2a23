/**
 The flow workspace service in the source's own form: locked rows whose columns
 are reassigned, dictionaries edited in place and graph rows upserted in loops.
 Each method is proved equal to its function in FlowWorkspace.
 */
module FlowDesk {
  import opened Wrappers
  import opened FlowRequests
  import opened FlowWorkspace

  function PlannedPairs(filterEnabled: bool): seq<(Task, Task)> {
    [(Ad, Website), (Website, Form), (Website, Pixel), (Form, Crm), (Pixel, Dataset), (Server, Dataset)]
    + (if filterEnabled then [(Crm, Filter), (Filter, Server)] else [(Crm, Server)])
  }

  /** The receipts that `list(receipts.items())[-64:]` keeps beside the new one, which is stored last. */
  function Survivors(order: seq<RequestId>): set<RequestId> {
    Elems(Newest(order))
  }

  function Elems(order: seq<RequestId>): set<RequestId> {
    set id | id in order
  }

  function Newest(order: seq<RequestId>): seq<RequestId> {
    if |order| < RECEIPT_LIMIT then order else order[|order| - (RECEIPT_LIMIT - 1)..]
  }

  ghost predicate Lists(order: seq<RequestId>, cache: map<RequestId, Receipt>) {
    && (forall i, j :: 0 <= i < j < |order| ==> order[i] != order[j])
    && (forall id :: id in order <==> id in cache)
  }

  lemma {:induction false} DistinctSize(order: seq<RequestId>)
    requires forall i, j :: 0 <= i < j < |order| ==> order[i] != order[j]
    ensures |Elems(order)| == |order|
  {
    if order != [] {
      var front, last := order[..|order| - 1], order[|order| - 1];
      DistinctSize(front);
      assert order == front + [last];
      assert last !in Elems(front);
      assert Elems(order) == Elems(front) + {last};
    }
  }

  /** Whatever order the cache is read back in, the slice is a possible eviction. */
  lemma SlicingEvicts(order: seq<RequestId>, cache: map<RequestId, Receipt>)
    requires Lists(order, cache)
    ensures Evicts(cache, Survivors(order))
  {
    DistinctSize(order);
    assert Elems(order) == cache.Keys;
    assert |cache| == |cache.Keys|;
    DistinctSize(Newest(order));
  }

  function Tasks(keys: seq<Task>): set<Task> {
    set k | k in keys
  }

  /** The rows with those of `keys` created or replaced. */
  function Upserted<V>(rows: map<Task, V>, keys: set<Task>, row: Task -> V): map<Task, V> {
    map k: Task | k in rows.Keys + keys :: if k in keys then row(k) else rows[k]
  }

  lemma UpsertNext<V>(rows: map<Task, V>, keys: seq<Task>, row: Task -> V, i: nat)
    requires i < |keys|
    ensures Upserted(rows, Tasks(keys[..i + 1]), row) == Upserted(rows, Tasks(keys[..i]), row)[keys[i] := row(keys[i])]
  {
    assert keys[..i + 1] == keys[..i] + [keys[i]];
    assert Tasks(keys[..i + 1]) == Tasks(keys[..i]) + {keys[i]};
  }

  lemma UpsertNone<V>(rows: map<Task, V>, keys: seq<Task>, row: Task -> V)
    ensures Upserted(rows, Tasks(keys[..0]), row) == rows && keys[..|keys|] == keys
  {
  }

  class FlowTables {
    var flows: map<FlowId, Flow>
    var audit: seq<Audit>

    constructor ()
      ensures View() == Store(map[], [])
    {
      flows, audit := map[], [];
    }

    ghost function View(): Store
      reads this
    {
      Store(flows, audit)
    }

    static method BuildRows(w: Workspace, keys: seq<Task>, nodes0: map<Task, Node>, tasks0: map<Task, TaskRow>)
      returns (nodes: map<Task, Node>, tasks: map<Task, TaskRow>)
      requires forall i :: 0 <= i < |keys| ==> Sequence(w.filterEnabled, keys[i]) == i + 1
      ensures nodes == Upserted(nodes0, Tasks(keys), k => NodeFor(w, k))
      ensures tasks == Upserted(tasks0, Tasks(keys), k => TaskFor(w, k))
    {
      hide Upserted, Tasks, Sequence;
      UpsertNone(nodes0, keys, k => NodeFor(w, k));
      UpsertNone(tasks0, keys, k => TaskFor(w, k));
      nodes, tasks := nodes0, tasks0;
      var index := 0;
      while index < |keys|
        invariant 0 <= index <= |keys|
        invariant nodes == Upserted(nodes0, Tasks(keys[..index]), k => NodeFor(w, k))
        invariant tasks == Upserted(tasks0, Tasks(keys[..index]), k => TaskFor(w, k))
      {
        var k := keys[index];
        UpsertNext(nodes0, keys, k => NodeFor(w, k), index);
        UpsertNext(tasks0, keys, k => TaskFor(w, k), index);
        var recorded := k in w.configs;
        var node := Node(if recorded then Configured else Pending, index + 1, Lookup(w.configs, k));
        var task := TaskRow(if recorded then Waiting else Todo, index + 1, Lookup(w.drafts, k), recorded);
        assert node == NodeFor(w, k) && task == TaskFor(w, k);
        hide *;
        nodes := nodes[k := node];
        tasks := tasks[k := task];
        index := index + 1;
      }
    }

    /** Upsert the rows of the template, and set the others aside. */
    static method RefreshRows(w: Workspace, nodes0: map<Task, Node>, tasks0: map<Task, TaskRow>)
      returns (nodes: map<Task, Node>, tasks: map<Task, TaskRow>)
      ensures nodes == NodesFor(w, nodes0) && tasks == TasksFor(w, tasks0)
    {
      var keys := TaskKeys(w.filterEnabled);
      SequenceCounts(w.filterEnabled);
      nodes, tasks := BuildRows(w, keys, nodes0, tasks0);
      KeysAreTemplate(w.filterEnabled);
      NodesAreMaterialized(w, nodes0, keys, nodes);
      TasksAreMaterialized(w, tasks0, keys, tasks);
      nodes := map k: Task | k in nodes :: if k in keys then nodes[k] else nodes[k].(status := Paused);
      tasks := map k: Task | k in tasks :: if k in keys then tasks[k] else tasks[k].(status := Skipped);
    }

    method Graph(key: FlowId)
      requires key in flows
      modifies this`flows
      ensures flows == old(flows)[key := Materialized(old(flows)[key])]
    {
      var f := flows[key];
      var nodes, tasks := RefreshRows(f.state, f.nodes, f.tasks);
      var edges := ReplaceEdges(f.edges, f.state.filterEnabled);
      flows := flows[key := f.(nodes := nodes, tasks := tasks, edges := edges)];
    }

    static method ReplaceEdges(edges: set<(Task, Task)>, filterEnabled: bool) returns (result: set<(Task, Task)>)
      ensures result == PlannedEdges(filterEnabled)
    {
      var pairs := PlannedPairs(filterEnabled);
      result := edges;
      var planned: set<(Task, Task)> := {};
      var i := 0;
      while i < |pairs|
        invariant 0 <= i <= |pairs|
        invariant planned == set p | p in pairs[..i]
        invariant result == edges + planned
      {
        assert pairs[..i + 1] == pairs[..i] + [pairs[i]];
        planned := planned + {pairs[i]};
        result := result + {pairs[i]};
        i := i + 1;
      }
      assert pairs[..i] == pairs;
      PairsAreEdges(filterEnabled);
      result := result * planned;
    }

    /** The branches of mutate_flow over one locked flow. */
    static method Act(loop: Flow, action: Action, out: Outside) returns (result: Result<Flow, Error>)
      ensures result == Acted(loop, action, out)
    {
      var f := loop;
      var state := loop.state;
      match action {
        case Rename(name) =>
          if name.None? { return Err(Invalid); }
          f := f.(name := name.value);
        case Guide(closed) => state := state.(guideClosed := closed);
        case Archive => f := f.(status := Archived);
        case Restore => f := f.(status := if state.configs != map[] then Configuring else Draft);
        case Duplicate => if !out.createOk { return Err(Invalid); }
        case SavePixelDraft(values) =>
          state := state.(drafts := state.drafts[Pixel := values]);
        case SavePixelStep(values, formValues) =>
          if Lookup(state.configs, Pixel) != Some(values) || Lookup(state.configs, Form) != Some(formValues)
             || out.pixelBindingChanged {
            f := f.(revision := f.revision + 1);
          }
          state := state.(configs := state.configs[Pixel := values][Form := formValues], pixelManaged := true);
          state := state.(drafts := state.drafts - {Pixel, Form});
        case SaveConfig(task, cleaned) =>
          if !InTemplate(state.filterEnabled, task) || cleaned.None? { return Err(Invalid); }
          if PixelLocked(state, task, cleaned.value) { return Err(Invalid); }
          if task == Dataset && !out.bindOk { return Err(Invalid); }
          if Lookup(state.configs, task) != Some(cleaned.value) { f := f.(revision := f.revision + 1); }
          state := state.(configs := state.configs[task := cleaned.value]);
          state := state.(drafts := state.drafts - {task});
        case SaveDraft(task, cleaned) =>
          if !InTemplate(state.filterEnabled, task) || cleaned.None? { return Err(Invalid); }
          if PixelLocked(state, task, cleaned.value) { return Err(Invalid); }
          state := state.(drafts := state.drafts[task := cleaned.value]);
        case SetPositions(layout) =>
          var cleaned := CleanPositions(layout, state.filterEnabled);
          if cleaned.None? { return Err(Invalid); }
          state := state.(positions := cleaned.value);
        case SetFilter(enabled) =>
          if enabled.None? { return Err(Invalid); }
          if enabled.value != state.filterEnabled {
            f := f.(revision := f.revision + 1);
            state := state.(filterEnabled := enabled.value);
            if !enabled.value {
              state := state.(configs := state.configs - {Filter}, drafts := state.drafts - {Filter},
                              positions := state.positions - {Filter});
            }
          }
        case Evidence(task, wellFormed) =>
          if state.history >= HISTORY_LIMIT { return Err(Invalid); }
          if !InTemplate(state.filterEnabled, task) || !wellFormed { return Err(Invalid); }
          state := state.(history := state.history + 1);
        case Preflight =>
          if state.history >= HISTORY_LIMIT { return Err(Invalid); }
          state := state.(history := state.history + 1);
        case PixelStale => return Err(Conflict);
        case Malformed => return Err(Invalid);
      }
      return Ok(f.(state := state));
    }

    /** The newest audit row of this flow and request. */
    method Prior(key: FlowId, id: RequestId) returns (receipt: Option<Receipt>)
      ensures receipt == PriorReceipt(audit, key, id)
    {
      var n := |audit|;
      assert audit[..n] == audit;
      while n > 0
        invariant 0 <= n <= |audit|
        invariant PriorReceipt(audit, key, id) == PriorReceipt(audit[..n], key, id)
      {
        var last := audit[n - 1];
        assert audit[..n][..n - 1] == audit[..n - 1];
        if last.flow == key && last.request == id { return Some(last.receipt); }
        n := n - 1;
      }
      return None;
    }

    method InsertFlow(id: FlowId, f: Flow)
      modifies this`flows
      ensures flows == old(flows)[id := Materialized(f)]
    {
      flows := flows[id := f];
      Graph(id);
    }

    method CreateFlow(site: SiteId, actor: ActorId, id: RequestId, fp: Option<Fingerprint>, out: Outside)
      returns (result: Result<FlowId, Error>)
      modifies this`flows
      ensures (View(), result) == Created(old(View()), site, actor, id, fp, out)
    {
      if fp.None? { return Err(Invalid); }
      if id in flows {
        var existing := flows[id];
        if existing.site != site || existing.owner != actor || existing.fingerprint != fp.value { return Err(Conflict); }
        return Ok(id);
      }
      if !out.createOk { return Err(Invalid); }
      InsertFlow(id, Flow(site, actor, fp.value, fp.value.name, Draft, 1, FRESH, map[], map[], {}));
      return Ok(id);
    }

    /** create_flow for the copy, then the source's topology and layout over it. */
    method CopyFlow(key: FlowId, actor: ActorId, id: RequestId, copyName: Name)
      requires key in flows && id !in flows
      modifies this`flows
      ensures flows == old(flows)[id := Copied(old(flows)[key], actor, copyName)]
    {
      var loop := flows[key];
      var fp := Fingerprint(copyName, loop.fingerprint.production, "");
      InsertFlow(id, Flow(loop.site, actor, fp, fp.name, Draft, 1, FRESH, map[], map[], {}));
      var target := flows[id];
      InsertFlow(id, target.(state := target.state.(filterEnabled := loop.state.filterEnabled,
                                                    positions := loop.state.positions)));
    }

    method MutateFlow(site: SiteId, actor: ActorId, key: FlowId, req: Request, out: Outside, order: seq<RequestId>)
      returns (result: Result<FlowId, Error>)
      requires key in flows ==> Lists(order, flows[key].state.receipts)
      modifies this
      ensures (View(), result) == Mutated(old(View()), site, actor, key, req, out, Survivors(order))
    {
      if key !in flows || flows[key].site != site { return Err(NotFound); }
      var loop := flows[key];
      var receipt;
      if req.id in loop.state.receipts {
        receipt := Some(loop.state.receipts[req.id]);
      } else {
        receipt := Prior(key, req.id);
      }
      if receipt.Some? {
        var r := receipt.value;
        if r.digest != Sha256(req.data) || r.actor != actor { return Err(Conflict); }
        if r.createdId.None? { return Ok(key); }
        if r.createdId.value !in flows || flows[r.createdId.value].site != site { return Err(NotFound); }
        return Ok(r.createdId.value);
      }
      if Get(req.data, "expectedVersion") != Integer(loop.state.version) { return Err(Conflict); }
      var action := ActionOf(req.data, out);
      if (action.Archive? || action.Restore?) && !out.isAdmin { return Err(Denied); }
      if loop.status == Archived && !(action.Restore? || action.Duplicate? || action.Guide?) {
        return Err(Invalid);
      }
      if action.Duplicate? && req.id in flows { return Err(Conflict); }
      var acted := Act(loop, action, out);
      if acted.Err? { return Err(acted.error); }
      result := Record(actor, key, req, out, acted.value, order);
    }

    /** Version, receipt, row, graph and audit line of an accepted request. */
    method Record(actor: ActorId, key: FlowId, req: Request, out: Outside, acted: Flow, order: seq<RequestId>)
      returns (result: Result<FlowId, Error>)
      requires key in flows && (Duplicates(req.data) ==> req.id !in flows)
      modifies this
      ensures View() == Accept(old(View()), actor, key, req, out, acted, Survivors(order))
      ensures result == Ok(if Duplicates(req.data) then req.id else key)
    {
      var action := ActionOf(req.data, out);
      var receipt := Receipt(Sha256(req.data), actor, if action.Duplicate? then Some(req.id) else None);
      if action.Duplicate? { CopyFlow(key, actor, req.id, out.copyName); }
      var f := Stamp(acted, req.id, action, receipt, order);
      if TouchesGraph(action) { InsertFlow(key, f); } else { flows := flows[key := f]; }
      audit := audit + [Audit(key, req.id, receipt)];
      return Ok(if action.Duplicate? then req.id else key);
    }

    static method Stamp(acted: Flow, id: RequestId, action: Action, receipt: Receipt, order: seq<RequestId>)
      returns (f: Flow)
      ensures f == Stamped(acted, id, action, receipt, Survivors(order))
    {
      f := acted;
      if !action.Duplicate? {
        f := f.(state := f.state.(version := f.state.version + 1));
      }
      f := f.(state := f.state.(receipts := Kept(f.state.receipts, Survivors(order))[id := receipt]));
      if f.status != Archived {
        f := f.(status := if f.state.configs != map[] then Configuring else Draft);
      }
    }
  }

  lemma NodesAreMaterialized(w: Workspace, rows: map<Task, Node>, keys: seq<Task>, nodes: map<Task, Node>)
    requires nodes == Upserted(rows, Tasks(keys), k => NodeFor(w, k)) && Tasks(keys) == Template(w.filterEnabled)
    requires forall k :: k in keys <==> InTemplate(w.filterEnabled, k)
    ensures (map k: Task | k in nodes :: if k in keys then nodes[k] else nodes[k].(status := Paused)) == NodesFor(w, rows)
  {
  }

  lemma TasksAreMaterialized(w: Workspace, rows: map<Task, TaskRow>, keys: seq<Task>, tasks: map<Task, TaskRow>)
    requires tasks == Upserted(rows, Tasks(keys), k => TaskFor(w, k)) && Tasks(keys) == Template(w.filterEnabled)
    requires forall k :: k in keys <==> InTemplate(w.filterEnabled, k)
    ensures (map k: Task | k in tasks :: if k in keys then tasks[k] else tasks[k].(status := Skipped)) == TasksFor(w, rows)
  {
  }

  lemma SequenceCounts(filterEnabled: bool)
    ensures var keys := TaskKeys(filterEnabled);
            forall i :: 0 <= i < |keys| ==> Sequence(filterEnabled, keys[i]) == i + 1
  {
    var keys := TaskKeys(filterEnabled);
    forall i | 0 <= i < |keys| ensures Sequence(filterEnabled, keys[i]) == i + 1 {
      TaskKeysAreTheTemplate(filterEnabled, keys[i]);
    }
  }

  lemma KeysAreTemplate(filterEnabled: bool)
    ensures forall k: Task ::
              && (k in TaskKeys(filterEnabled) <==> InTemplate(filterEnabled, k))
              && (k in TaskKeys(filterEnabled) <==> k in Template(filterEnabled))
    ensures Tasks(TaskKeys(filterEnabled)) == Template(filterEnabled)
  {
    forall k: Task ensures k in TaskKeys(filterEnabled) <==> InTemplate(filterEnabled, k)
                   ensures k in TaskKeys(filterEnabled) <==> k in Template(filterEnabled)
    {
      TaskKeysAreTheTemplate(filterEnabled, k);
      match k case Filter => case _ =>
    }
  }

  lemma PairsAreEdges(filterEnabled: bool)
    ensures (set p | p in PlannedPairs(filterEnabled)) == PlannedEdges(filterEnabled)
  {
    var pairs := PlannedPairs(filterEnabled);
    var s := set p | p in pairs;
    assert forall i :: 0 <= i < |pairs| ==> pairs[i] in s;
    assert pairs[0] in s && pairs[1] in s && pairs[2] in s && pairs[3] in s && pairs[4] in s && pairs[5] in s && pairs[6] in s;
    if filterEnabled { assert pairs[7] in s; }
  }
}
