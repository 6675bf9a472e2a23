/**
 The stored workspace is what the accepted requests made of it: replaying their
 actions, in the order of the log, over the flow as it was gives the flow as it is.
 Refused requests, replays, other flows' requests, receipts, versions and graph
 rows play no part.
 */
module FlowStory {
  import opened Wrappers
  import opened FlowRequests
  import opened FlowWorkspace
  import opened FlowSafety

  /** An accepted request, with what the surrounding tables said at that moment. */
  datatype Chapter = Chapter(data: Data, out: Outside)

  ghost function Told(s: Store, c: Command, key: FlowId): seq<Chapter> {
    if Accepted(s, c) && c.key == key then [Chapter(c.req.data, c.out)] else []
  }

  /** The requests of a run that one flow accepted, oldest first. */
  ghost function Story(s: Store, cs: seq<Command>, key: FlowId): seq<Chapter>
    decreases |cs|
  {
    if cs == [] then [] else Told(s, cs[0], key) + Story(Do(s, cs[0]).0, cs[1..], key)
  }

  function Datas(story: seq<Chapter>): seq<Data> {
    if story == [] then []
    else (if Duplicates(story[0].data) then [] else [story[0].data]) + Datas(story[1..])
  }

  /** What a flow holds, apart from its version, its receipts and its graph rows. */
  function Content(f: Flow): Flow {
    f.(state := f.state.(version := 0, receipts := map[]), nodes := map[], tasks := map[], edges := {})
  }

  /** One action after another, refused ones doing nothing. */
  function Replayed(f: Flow, story: seq<Chapter>): Flow
    decreases |story|
  {
    if story == [] then f
    else
      var r := Acted(f, ActionOf(story[0].data, story[0].out), story[0].out);
      Replayed(if r.Ok? then Settled(r.value) else f, story[1..])
  }

  lemma SettlesContent(f: Flow)
    ensures Content(Settled(f)) == Settled(Content(f)) && Content(Content(f)) == Content(f)
  {
  }

  /** What an action does depends on the content alone. */
  lemma ActsOnContent(f: Flow, a: Action, out: Outside)
    ensures Acted(Content(f), a, out).Ok? == Acted(f, a, out).Ok?
    ensures Acted(f, a, out).Ok? ==> Acted(Content(f), a, out).value == Content(Acted(f, a, out).value)
  {
    match a
    case SaveConfig(_, _) =>
    case SavePixelStep(_, _) =>
    case SetFilter(_) =>
    case _ =>
  }

  lemma StampedContent(acted: Flow, id: RequestId, action: Action, receipt: Receipt, kept: set<RequestId>)
    ensures Content(Stamped(acted, id, action, receipt, kept)) == Content(Settled(acted))
  {
    hide Kept;
  }

  lemma MaterializedContent(f: Flow)
    ensures Content(Materialized(f)) == Content(f)
  {
    hide NodesFor, TasksFor, PlannedEdges;
  }

  lemma RecordedContent(acted: Flow, id: RequestId, action: Action, receipt: Receipt, kept: set<RequestId>)
    ensures Content(Recorded(acted, id, action, receipt, kept)) == Content(Settled(acted))
  {
    hide Stamped, Content, Materialized, Settled;
    StampedContent(acted, id, action, receipt, kept);
    MaterializedContent(Stamped(acted, id, action, receipt, kept));
  }

  /** An accepted request is one chapter; anything else leaves the content as it is. */
  lemma StepTells(s: Store, c: Command, key: FlowId)
    requires BookOk(s) && key in s.flows
    ensures key in Do(s, c).0.flows
    ensures Content(Do(s, c).0.flows[key]) ==
            Replayed(Content(s.flows[key]), Told(s, c, key))
  {
    if Accepted(s, c) {
      var f, copy, a := AcceptedAppends(s, c);
      if c.key == key {
        var action := ActionOf(c.req.data, c.out);
        var acted := Acted(s.flows[key], action, c.out).value;
        RecordedContent(acted, c.req.id, action, ReceiptFor(c.actor, c.req), c.kept);
        ActsOnContent(s.flows[key], action, c.out);
        SettlesContent(acted);
        hide Acted, Content, Settled, Recorded;
        assert Replayed(Content(s.flows[key]), [Chapter(c.req.data, c.out)]) ==
               Settled(Acted(Content(s.flows[key]), action, c.out).value);
      }
    } else if c.Mutate? {
      OtherwiseNothing(s, c);
    }
  }

  lemma {:induction false} ReplayedOn(f: Flow, a: seq<Chapter>, b: seq<Chapter>)
    ensures Replayed(f, a + b) == Replayed(Replayed(f, a), b)
    decreases |a|
  {
    if a == [] {
      assert a + b == b;
    } else {
      assert (a + b)[1..] == a[1..] + b;
      var r := Acted(f, ActionOf(a[0].data, a[0].out), a[0].out);
      ReplayedOn(if r.Ok? then Settled(r.value) else f, a[1..], b);
    }
  }

  lemma {:induction false} DatasOn(a: seq<Chapter>, b: seq<Chapter>)
    ensures Datas(a + b) == Datas(a) + Datas(b)
    decreases |a|
  {
    if a == [] {
      assert a + b == b;
    } else {
      assert (a + b)[1..] == a[1..] + b;
      DatasOn(a[1..], b);
    }
  }

  /** The flow after any run is the flow before it with the story replayed ... */
  lemma {:induction false} WorkspaceIsItsStory(s: Store, cs: seq<Command>, key: FlowId)
    requires BookOk(s) && key in s.flows
    ensures key in After(s, cs).flows
    ensures Content(After(s, cs).flows[key]) == Replayed(Content(s.flows[key]), Story(s, cs, key))
    decreases |cs|
  {
    if cs != [] {
      hide Content, Told, Acted, Settled, Do, Accepted, BookOk;
      var s' := Do(s, cs[0]).0;
      StepTells(s, cs[0], key);
      StepKeepsBook(s, cs[0]);
      WorkspaceIsItsStory(s', cs[1..], key);
      ReplayedOn(Content(s.flows[key]), Told(s, cs[0], key), Story(s', cs[1..], key));
    }
  }

  lemma CreationLogsNothing(s: Store, c: Command)
    requires c.Create?
    ensures Do(s, c).0.audit == s.audit
  {
  }

  lemma StepLogs(s: Store, c: Command, key: FlowId)
    requires BookOk(s)
    ensures Log(Do(s, c).0.audit, key) == Log(s.audit, key) + Datas(Told(s, c, key))
  {
    hide Do, Checked, BookOk, FindReceipt;
    if Accepted(s, c) {
      var f, copy, a := AcceptedAppends(s, c);
      LogStep(s.audit, a, key);
    } else if c.Mutate? {
      OtherwiseNothing(s, c);
    } else {
      CreationLogsNothing(s, c);
    }
  }

  /** ... and the story is the part of the audit log that the run added. */
  lemma {:induction false} StoryIsLogged(s: Store, cs: seq<Command>, key: FlowId)
    requires BookOk(s)
    ensures Log(After(s, cs).audit, key) == Log(s.audit, key) + Datas(Story(s, cs, key))
    decreases |cs|
  {
    if cs != [] {
      hide Told, Do, BookOk, Log, Datas;
      var s' := Do(s, cs[0]).0;
      StepLogs(s, cs[0], key);
      StepKeepsBook(s, cs[0]);
      StoryIsLogged(s', cs[1..], key);
      DatasOn(Told(s, cs[0], key), Story(s', cs[1..], key));
    } else {
      hide Told, Do, BookOk, Log;
      assert After(s, cs) == s && Story(s, cs, key) == [];
    }
  }
}
