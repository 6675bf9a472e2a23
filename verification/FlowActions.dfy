/** What one action does to the flow it addresses, and what it leaves alone. */
module FlowActions {
  import opened Wrappers
  import opened FlowRequests
  import opened FlowWorkspace

  /** The configuration of k may be changed by saving it, by the pixel step, or by switching its node off. */
  predicate MayConfigure(a: Action, k: Task) {
    || (a.SaveConfig? && a.task == k)
    || (a.SavePixelStep? && k in {Pixel, Form})
    || (a == SetFilter(Some(false)) && k == Filter)
  }

  predicate MayDraft(a: Action, k: Task) {
    MayConfigure(a, k) || (a.SaveDraft? && a.task == k) || (a.SavePixelDraft? && k == Pixel)
  }

  lemma ConfigsTouched(f: Flow, a: Action, out: Outside, k: Task)
    requires Acted(f, a, out).Ok?
    ensures var w := Acted(f, a, out).value.state;
            Lookup(w.configs, k) != Lookup(f.state.configs, k) ==> MayConfigure(a, k) && k !in w.drafts
  {
    hide CleanPositions, PixelLocked, InTemplate;
  }

  lemma DraftsTouched(f: Flow, a: Action, out: Outside, k: Task)
    requires Acted(f, a, out).Ok?
    ensures Lookup(Acted(f, a, out).value.state.drafts, k) != Lookup(f.state.drafts, k) ==> MayDraft(a, k)
  {
    hide CleanPositions, PixelLocked, InTemplate;
  }

  lemma FieldsTouched(f: Flow, a: Action, out: Outside)
    requires Acted(f, a, out).Ok?
    ensures var g := Acted(f, a, out).value;
            var v, w := f.state, g.state;
            && g.site == f.site && g.owner == f.owner && g.fingerprint == f.fingerprint
            && g.nodes == f.nodes && g.tasks == f.tasks && g.edges == f.edges
            && w.version == v.version && w.receipts == v.receipts
            && (g.name != f.name ==> a.Rename?)
            && (g.status != f.status ==> a.Archive? || a.Restore?)
            && (w.filterEnabled != v.filterEnabled ==> a.SetFilter?)
            && (w.positions != v.positions ==> a.SetPositions? || a == SetFilter(Some(false)))
            && (w.pixelManaged != v.pixelManaged ==> a.SavePixelStep? && w.pixelManaged)
            && (w.guideClosed != v.guideClosed ==> a.Guide?)
            && (w.history == if a.Evidence? || a.Preflight? then v.history + 1 else v.history)
            && (w.history > v.history ==> w.history <= HISTORY_LIMIT)
  {
    hide CleanPositions, PixelLocked, InTemplate, Lookup;
  }

  /** Every part of the flow, and the only actions that may change it; history grows by one, up to its limit. */
  lemma ActedTouches(f: Flow, a: Action, out: Outside)
    requires Acted(f, a, out).Ok?
    ensures var g := Acted(f, a, out).value;
            var v, w := f.state, g.state;
            && g.site == f.site && g.owner == f.owner && g.fingerprint == f.fingerprint
            && g.nodes == f.nodes && g.tasks == f.tasks && g.edges == f.edges
            && w.version == v.version && w.receipts == v.receipts
            && (g.name != f.name ==> a.Rename?)
            && (g.status != f.status ==> a.Archive? || a.Restore?)
            && (w.filterEnabled != v.filterEnabled ==> a.SetFilter?)
            && (w.positions != v.positions ==> a.SetPositions? || a == SetFilter(Some(false)))
            && (w.pixelManaged != v.pixelManaged ==> a.SavePixelStep? && w.pixelManaged)
            && (w.guideClosed != v.guideClosed ==> a.Guide?)
            && (w.history == if a.Evidence? || a.Preflight? then v.history + 1 else v.history)
            && (w.history > v.history ==> w.history <= HISTORY_LIMIT)
            && forall k ::
                 && (Lookup(w.configs, k) != Lookup(v.configs, k) ==> MayConfigure(a, k) && k !in w.drafts)
                 && (Lookup(w.drafts, k) != Lookup(v.drafts, k) ==> MayDraft(a, k))
  {
    forall k
      ensures Lookup(Acted(f, a, out).value.state.configs, k) != Lookup(f.state.configs, k) ==>
                MayConfigure(a, k) && k !in Acted(f, a, out).value.state.drafts
      ensures Lookup(Acted(f, a, out).value.state.drafts, k) != Lookup(f.state.drafts, k) ==> MayDraft(a, k)
    {
      ConfigsTouched(f, a, out, k);
      DraftsTouched(f, a, out, k);
      hide Acted, MayConfigure, MayDraft;
    }
    FieldsTouched(f, a, out);
    hide Acted, MayConfigure, MayDraft, Lookup;
  }

  /** The desired revision rises by one exactly when the configuration, the filter or the runtime binding changes. */
  lemma RevisionRisesExactly(f: Flow, a: Action, out: Outside)
    requires Acted(f, a, out).Ok?
    ensures var g := Acted(f, a, out).value;
            var changed := g.state.configs != f.state.configs || g.state.filterEnabled != f.state.filterEnabled
                           || (a.SavePixelStep? && out.pixelBindingChanged);
            g.revision == if changed then f.revision + 1 else f.revision
  {
    var g := Acted(f, a, out).value;
    match a
    case SaveConfig(task, cleaned) =>
      if Lookup(f.state.configs, task) == Some(cleaned.value) {
        assert g.state.configs == f.state.configs;
      } else {
        assert Lookup(g.state.configs, task) == Some(cleaned.value);
      }
    case SavePixelStep(values, formValues) =>
      if Lookup(f.state.configs, Pixel) == Some(values) && Lookup(f.state.configs, Form) == Some(formValues) {
        assert g.state.configs == f.state.configs;
      } else {
        assert Lookup(g.state.configs, Pixel) == Some(values) && Lookup(g.state.configs, Form) == Some(formValues);
      }
    case _ =>
  }

  /** Once the pixel step manages them, pixel and form are configured by that step alone. */
  lemma ManagedScopeIsKept(f: Flow, a: Action, out: Outside, k: Task)
    requires Acted(f, a, out).Ok? && f.state.pixelManaged && k in {Pixel, Form} && !a.SavePixelStep?
    ensures var w := Acted(f, a, out).value.state;
            w.pixelManaged && Lookup(w.configs, k) == Lookup(f.state.configs, k)
  {
    if a.SaveConfig? && a.task == k {
      assert !PixelLocked(f.state, k, a.cleaned.value);
    }
  }

  /** Switching the filter node off forgets all it held; no other task loses anything. */
  lemma FilterOffForgets(f: Flow, out: Outside)
    requires f.state.filterEnabled
    ensures Acted(f, SetFilter(Some(false)), out).Ok?
    ensures var w := Acted(f, SetFilter(Some(false)), out).value.state;
            && Filter !in w.configs && Filter !in w.drafts && Filter !in w.positions
            && forall k :: k != Filter ==>
                 && Lookup(w.configs, k) == Lookup(f.state.configs, k)
                 && Lookup(w.drafts, k) == Lookup(f.state.drafts, k)
                 && Lookup(w.positions, k) == Lookup(f.state.positions, k)
  {
  }

  // ----- Positions -----

  /** Where the workspace may draw the node of a task. */
  predicate OnCanvas(k: Task, p: Position) {
    if k == Filter then 8.0 <= p.x <= 112.0 && 65.0 <= p.y <= 545.0 else 8.0 <= p.x <= 77.0 && 65.0 <= p.y <= 572.0
  }

  /** The key is the name of a task of this workspace. */
  predicate NamesTask(filterEnabled: bool, key: string) {
    exists k: Task :: InTemplate(filterEnabled, k) && key == TaskName(k)
  }

  predicate AcceptablePositions(v: Json, filterEnabled: bool) {
    v.Object? && forall key :: key in v.fields ==> NamesTask(filterEnabled, key) && IsPosition(v.fields[key])
  }

  lemma TaskIsNamed(filterEnabled: bool, key: string)
    ensures NamesTask(filterEnabled, key) <==> TaskOf(Str(key)).Some? && InTemplate(filterEnabled, TaskOf(Str(key)).value)
  {
    var r := TaskOf(Str(key));
    if r.Some? { assert key == TaskName(r.value); }
  }

  lemma CleanPositionIsOnCanvas(k: Task, p: Position)
    ensures OnCanvas(k, CleanPosition(k, p)) && (OnCanvas(k, p) ==> CleanPosition(k, p) == p)
  {
  }

  lemma LayoutInTemplate(v: Json, filterEnabled: bool)
    requires Layout(v).Some?
    ensures (forall k :: k in Layout(v).value ==> InTemplate(filterEnabled, k)) <==> forall key :: key in v.fields ==> NamesTask(filterEnabled, key)
  {
    var l := Layout(v).value;
    hide Layout, IsPosition, NamesTask;
    forall key | key in v.fields
      ensures TaskOf(Str(key)).Some? && TaskOf(Str(key)).value in l
      ensures NamesTask(filterEnabled, key) <==> InTemplate(filterEnabled, TaskOf(Str(key)).value)
    {
      TaskIsNamed(filterEnabled, key);
      var k := TaskOf(Str(key)).value;
      assert Str(key) == Str(TaskName(k));
    }
    forall k | k in l ensures TaskName(k) in v.fields && TaskOf(Str(TaskName(k))) == Some(k) {}
  }

  /**
   Positions are accepted exactly from an object whose keys are all tasks of this
   workspace and whose values are pairs of finite numbers; what is stored has one
   position for each of them, on the canvas, and the one sent wherever that was.
   */
  lemma PositionsAreClean(v: Json, filterEnabled: bool)
    ensures CleanPositions(Layout(v), filterEnabled).Some? <==> AcceptablePositions(v, filterEnabled)
    ensures CleanPositions(Layout(v), filterEnabled).Some? ==>
              var sent, stored := Layout(v).value, CleanPositions(Layout(v), filterEnabled).value;
              forall k ::
                && (k in stored <==> TaskName(k) in v.fields)
                && (k in stored ==> k in sent && OnCanvas(k, stored[k]) && (OnCanvas(k, sent[k]) ==> stored[k] == sent[k]))
  {
    if Layout(v).Some? {
      LayoutInTemplate(v, filterEnabled);
      forall k, p ensures OnCanvas(k, CleanPosition(k, p)) && (OnCanvas(k, p) ==> CleanPosition(k, p) == p) {
        CleanPositionIsOnCanvas(k, p);
      }
    } else if AcceptablePositions(v, filterEnabled) {
      forall key | key in v.fields ensures TaskOf(Str(key)).Some? { TaskIsNamed(filterEnabled, key); }
    }
    hide Layout, IsPosition, NamesTask, OnCanvas, CleanPosition, TaskOf, TaskName;
  }
}
