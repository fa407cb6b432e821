/** What a listener gets of a turn beside the answer's text: tool activity,
    narration, usage, prompts and how the turn ended. */
module Asides {
  import opened LinkModel
  import opened Streaming
  import opened EventMapper
  import opened Turns
  import opened Replies

  // --- one delta says one thing ---------------------------------------------------------

  /** A delta carries text, a tool's activity, narration or usage and nothing else, or
      it ends the turn. */
  predicate Pure(d: Delta) {
    || (d == ZERO.(content := d.content) && d.content != [])
    || (d == ZERO.(kind := ToolDelta, tool := d.tool) && d.tool.Some?)
    || (d == ZERO.(kind := NarrationDelta, content := d.content) && d.content != [])
    || (d == ZERO.(usage := d.usage) && d.usage.Some?)
    || d == ZERO.(done := true)
    || (d == ZERO.(err := d.err) && d.err.Some?)
    || (d == ZERO.(kind := PromptDelta, content := d.content, task := d.task, prompt := d.prompt))
  }

  predicate AllPure(ds: seq<Delta>) { forall i :: 0 <= i < |ds| ==> Pure(ds[i]) }

  lemma {:induction false} ToolsArePure(parts: seq<Part>)
    ensures AllPure(ToolDeltas(parts))
  {
    if parts != [] { ToolsArePure(parts[1..]); }
  }

  lemma {:induction false} UsageIsPure(m: Mapper, arts: seq<Content>)
    ensures AllPure(TaskUsage(m, arts).1)
    decreases |arts|
  {
    if arts != [] {
      UsageIsPure(if arts[0].id in m.counted then m else UsageOf(m, arts[0]).0, arts[1..]);
    }
  }

  lemma {:induction false} TextIsPure(m: Mapper, arts: seq<Content>)
    ensures AllPure(Rerender(m, arts).1)
    decreases |arts|
  {
    if arts != [] {
      TextIsPure(m.(artifacts := DeltaOf(m.artifacts, Event(arts[0].id, false, PartsText(arts[0].parts))).0), arts[1..]);
    }
  }

  lemma PureJoin(a: seq<Delta>, b: seq<Delta>)
    requires AllPure(a) && AllPure(b)
    ensures AllPure(a + b)
  {
  }

  lemma CompletedIsPure(m: Mapper, t: Task)
    ensures AllPure(TaskResult(m, t).1 + TaskUsage(TaskResult(m, t).0, t.artifacts).1 + [ZERO.(done := true)])
  {
    TextIsPure(m, t.artifacts);
    UsageIsPure(TaskResult(m, t).0, t.artifacts);
    PureJoin(TaskResult(m, t).1, TaskUsage(TaskResult(m, t).0, t.artifacts).1);
    PureJoin(TaskResult(m, t).1 + TaskUsage(TaskResult(m, t).0, t.artifacts).1, [ZERO.(done := true)]);
  }

  lemma UpdateIsPure(m: Mapper, ev: Incoming)
    requires ev.ArtifactUpdate?
    ensures AllPure(MapEvent(m, ev).1)
  {
    if ev.artifact.Some? {
      var c := ev.artifact.value;
      var (tr, text) := DeltaOf(m.artifacts, Event(c.id, ev.append, PartsText(c.parts)));
      ToolsArePure(c.parts);
      PureJoin(TextOf(text), ToolDeltas(c.parts));
      PureJoin(TextOf(text) + ToolDeltas(c.parts), UsageOf(m.(artifacts := tr), c).1);
    }
  }

  lemma StatusIsPure(task: TaskID, status: Status, parts: seq<Part>)
    ensures AllPure(StatusDeltas(task, status, NarrationDeltas(parts) + ToolDeltas(parts)))
    ensures AllPure(StatusDeltas(task, status, []))
  {
    ToolsArePure(parts);
    PureJoin(NarrationDeltas(parts), ToolDeltas(parts));
  }

  lemma EventIsPure(m: Mapper, ev: Incoming)
    ensures AllPure(MapEvent(m, ev).1)
  {
    match ev {
      case ArtifactUpdate(_, _, _) => UpdateIsPure(m, ev);
      case StatusUpdate(task, status) =>
        StatusIsPure(task, status, if status.message.Some? then status.message.value.parts else []);
      case WholeTask(_, t) =>
        StatusIsPure(t.id, t.status, []);
        CompletedIsPure(m, t);
      case Reply(_, message) => PureJoin(TextOf(PartsText(message.parts)), [ZERO.(done := true)]);
    }
  }

  /** All but usage and a turn's end puts something in front of the person: a delta
      the mapper makes shows nothing exactly when it is one of these. */
  lemma ShownOrNot(m: Mapper, ev: Incoming, i: nat)
    requires i < |MapEvent(m, ev).1|
    ensures var d := MapEvent(m, ev).1[i];
      Shows(d) <==> d.usage.None? && !d.done && d.err.None?
  {
    EventIsPure(m, ev);
    assert Pure(MapEvent(m, ev).1[i]);
  }

  // --- tools and narration --------------------------------------------------------------

  /** The tools whose activity the deltas report, in order. */
  function Tools(ds: seq<Delta>): seq<Tool>
    decreases |ds|
  {
    if ds == [] then [] else (if ds[0].tool.Some? then [ds[0].tool.value] else []) + Tools(ds[1..])
  }

  function ToolsOf(parts: seq<Part>): seq<Tool>
    decreases |parts|
  {
    if parts == [] then [] else (if parts[0].tool.Some? then [parts[0].tool.value] else []) + ToolsOf(parts[1..])
  }

  predicate Toolless(ds: seq<Delta>) { forall i :: 0 <= i < |ds| ==> ds[i].tool.None? }

  lemma {:induction false} ToolsJoin(a: seq<Delta>, b: seq<Delta>)
    ensures Tools(a + b) == Tools(a) + Tools(b)
    decreases |a|
  {
    if |a| == 0 {
      assert a + b == b;
    } else {
      ToolsJoin(a[1..], b);
      assert (a + b)[1..] == a[1..] + b;
    }
  }

  lemma {:induction false} NoTools(ds: seq<Delta>)
    requires Toolless(ds)
    ensures Tools(ds) == []
    decreases |ds|
  {
    if |ds| > 0 { NoTools(ds[1..]); }
  }

  lemma {:induction false} ToolsReported(parts: seq<Part>)
    ensures Tools(ToolDeltas(parts)) == ToolsOf(parts)
    decreases |parts|
  {
    if |parts| > 0 {
      ToolsReported(parts[1..]);
      var first: seq<Delta> := if parts[0].tool.Some? then [ZERO.(kind := ToolDelta, tool := parts[0].tool)] else [];
      ToolsJoin(first, ToolDeltas(parts[1..]));
      ToolAlone(first);
    }
  }

  lemma ToolAlone(ds: seq<Delta>)
    requires |ds| <= 1
    ensures Tools(ds) == if |ds| == 1 && ds[0].tool.Some? then [ds[0].tool.value] else []
  {
    if |ds| == 1 { assert ds[1..] == []; }
  }

  lemma ToolsBetween(a: seq<Delta>, ds: seq<Delta>, b: seq<Delta>)
    requires Toolless(a) && Toolless(b)
    ensures Tools(a + ds + b) == Tools(ds)
  {
    ToolsJoin(a + ds, b);
    ToolsJoin(a, ds);
    NoTools(a);
    NoTools(b);
  }

  /** The status is one of a task at work: neither ended nor paused. */
  predicate Interim(s: TaskState) { s.Submitted? || s.Working? || s.Unspecified? }

  /** The parts of an event whose tool activity the channel shows. */
  function Activity(ev: Incoming): seq<Part> {
    match ev
    case ArtifactUpdate(_, artifact, _) => if artifact.Some? then artifact.value.parts else []
    case StatusUpdate(_, status) =>
      if Interim(status.state) && status.message.Some? then status.message.value.parts else []
    case _ => []
  }

  lemma {:induction false} UsageIsToolless(m: Mapper, arts: seq<Content>)
    ensures Toolless(TaskUsage(m, arts).1)
    decreases |arts|
  {
    if arts != [] {
      UsageIsToolless(if arts[0].id in m.counted then m else UsageOf(m, arts[0]).0, arts[1..]);
    }
  }

  lemma {:induction false} TextIsToolless(m: Mapper, arts: seq<Content>)
    ensures Toolless(Rerender(m, arts).1)
    decreases |arts|
  {
    if arts != [] {
      TextIsToolless(m.(artifacts := DeltaOf(m.artifacts, Event(arts[0].id, false, PartsText(arts[0].parts))).0), arts[1..]);
    }
  }

  lemma UpdateTools(m: Mapper, ev: Incoming)
    requires ev.ArtifactUpdate? && ev.artifact.Some?
    ensures Tools(MapEvent(m, ev).1) == ToolsOf(ev.artifact.value.parts)
  {
    var c := ev.artifact.value;
    var (tr, text) := DeltaOf(m.artifacts, Event(c.id, ev.append, PartsText(c.parts)));
    ToolsBetween(TextOf(text), ToolDeltas(c.parts), UsageOf(m.(artifacts := tr), c).1);
    ToolsReported(c.parts);
  }

  lemma InterimTools(parts: seq<Part>)
    ensures Tools(NarrationDeltas(parts) + ToolDeltas(parts)) == ToolsOf(parts)
  {
    ToolsJoin(NarrationDeltas(parts), ToolDeltas(parts));
    ToolAlone(NarrationDeltas(parts));
    ToolsReported(parts);
  }

  lemma StatusTools(task: TaskID, status: Status, interim: seq<Delta>)
    ensures Tools(StatusDeltas(task, status, interim)) == if Interim(status.state) then Tools(interim) else []
  {
    var ds := StatusDeltas(task, status, interim);
    if !Interim(status.state) { ToolAlone(ds); }
  }

  lemma WholeIsToolless(m: Mapper, t: Task, last: seq<Delta>)
    requires Toolless(last)
    ensures Toolless(TaskResult(m, t).1 + TaskUsage(TaskResult(m, t).0, t.artifacts).1 + last)
  {
    TextIsToolless(m, t.artifacts);
    UsageIsToolless(TaskResult(m, t).0, t.artifacts);
  }

  /** An event's deltas report just the tool calls and results its parts carry, an
      artifact's or an interim message's, each once and in order. */
  lemma EventTools(m: Mapper, ev: Incoming)
    ensures Tools(MapEvent(m, ev).1) == ToolsOf(Activity(ev))
  {
    match ev {
      case ArtifactUpdate(_, artifact, _) => if artifact.Some? { UpdateTools(m, ev); }
      case StatusUpdate(task, status) =>
        var parts := if status.message.Some? then status.message.value.parts else [];
        StatusTools(task, status, NarrationDeltas(parts) + ToolDeltas(parts));
        InterimTools(parts);
      case WholeTask(_, t) =>
        WholeIsToolless(m, t, StatusDeltas(t.id, t.status, []));
        NoTools(MapEvent(m, ev).1);
      case Reply(_, _) => NoTools(MapEvent(m, ev).1);
    }
  }

  predicate NoneNarrates(ds: seq<Delta>) { forall i :: 0 <= i < |ds| ==> !ds[i].kind.NarrationDelta? }

  predicate CallsTool(parts: seq<Part>) {
    exists k :: 0 <= k < |parts| && parts[k].tool.Some? && parts[k].tool.value.call
  }

  lemma UpdateDoesNotNarrate(m: Mapper, ev: Incoming)
    requires ev.ArtifactUpdate?
    ensures NoneNarrates(MapEvent(m, ev).1)
  {
    if ev.artifact.Some? { ToolsAreTools(ev.artifact.value.parts); }
  }

  lemma WholeDoesNotNarrate(m: Mapper, t: Task, last: seq<Delta>)
    requires NoneNarrates(last)
    ensures NoneNarrates(TaskResult(m, t).1 + TaskUsage(TaskResult(m, t).0, t.artifacts).1 + last)
  {
    TextIsText(m, t.artifacts);
    UsageIsText(TaskResult(m, t).0, t.artifacts);
  }

  lemma CallsAreCalls(parts: seq<Part>)
    ensures HasCall(parts) <==> CallsTool(parts)
  {
  }

  lemma PartsNarrate(parts: seq<Part>)
    ensures var ds := NarrationDeltas(parts) + ToolDeltas(parts);
      if CallsTool(parts) && PartsText(parts) != [] then
        ds != [] && ds[0] == ZERO.(kind := NarrationDelta, content := PartsText(parts)) && NoneNarrates(ds[1..])
      else NoneNarrates(ds)
  {
    ToolsAreTools(parts);
    CallsAreCalls(parts);
    var first := ZERO.(kind := NarrationDelta, content := PartsText(parts));
    assert ([first] + ToolDeltas(parts))[1..] == ToolDeltas(parts);
  }

  /** An interim message that calls a tool has its text shown as narration, ahead of
      the tools; nothing else is. */
  lemma EventNarrates(m: Mapper, ev: Incoming)
    ensures var ds, parts := MapEvent(m, ev).1, Activity(ev);
      if ev.StatusUpdate? && CallsTool(parts) && PartsText(parts) != [] then
        ds != [] && ds[0] == ZERO.(kind := NarrationDelta, content := PartsText(parts)) && NoneNarrates(ds[1..])
      else NoneNarrates(ds)
  {
    if ev.StatusUpdate? {
      if Interim(ev.status.state) { PartsNarrate(Activity(ev)); }
    } else {
      if ev.ArtifactUpdate? { UpdateDoesNotNarrate(m, ev); }
      if ev.WholeTask? { WholeDoesNotNarrate(m, ev.whole, StatusDeltas(ev.whole.id, ev.whole.status, [])); }
    }
  }

  lemma {:induction false} ToolsAreTools(parts: seq<Part>)
    ensures forall i :: 0 <= i < |ToolDeltas(parts)| ==> ToolDeltas(parts)[i].kind.ToolDelta?
  {
    if parts != [] { ToolsAreTools(parts[1..]); }
  }

  lemma {:induction false} TextIsText(m: Mapper, arts: seq<Content>)
    ensures forall i :: 0 <= i < |Rerender(m, arts).1| ==> Rerender(m, arts).1[i].kind.TextDelta?
    decreases |arts|
  {
    if arts != [] {
      TextIsText(m.(artifacts := DeltaOf(m.artifacts, Event(arts[0].id, false, PartsText(arts[0].parts))).0), arts[1..]);
    }
  }

  lemma {:induction false} UsageIsText(m: Mapper, arts: seq<Content>)
    ensures forall i :: 0 <= i < |TaskUsage(m, arts).1| ==> TaskUsage(m, arts).1[i].kind.TextDelta?
    decreases |arts|
  {
    if arts != [] {
      UsageIsText(if arts[0].id in m.counted then m else UsageOf(m, arts[0]).0, arts[1..]);
    }
  }

  // --- usage --------------------------------------------------------------------------------

  /** Artifact i is the first in line to report usage under its id, none of which was
      counted before. */
  predicate ReportsFirst(arts: seq<Content>, counted: set<ArtifactID>, i: nat)
    requires i < |arts|
  {
    && arts[i].usage.Some? && arts[i].id !in counted
    && forall j :: 0 <= j < i && arts[j].id == arts[i].id ==> arts[j].usage.None?
  }

  /** The usage of those among the first n artifacts, in their order. */
  function Uncounted(arts: seq<Content>, counted: set<ArtifactID>, n: nat): seq<Delta>
    requires n <= |arts|
  {
    if n == 0 then []
    else Uncounted(arts, counted, n - 1)
         + if ReportsFirst(arts, counted, n - 1) then [ZERO.(usage := arts[n - 1].usage)] else []
  }

  function Reporting(arts: seq<Content>, n: nat): set<ArtifactID>
    requires n <= |arts|
  {
    set i | 0 <= i < n && arts[i].usage.Some? :: arts[i].id
  }

  lemma {:induction false} UsageSnoc(m: Mapper, arts: seq<Content>, c: Content)
    ensures TaskUsage(m, arts + [c]) ==
      var (m1, ds) := TaskUsage(m, arts);
      if c.id in m1.counted || c.usage.None? then (m1, ds)
      else (m1.(counted := m1.counted + {c.id}), ds + [ZERO.(usage := c.usage)])
    decreases |arts|
  {
    if |arts| == 0 {
      assert arts + [c] == [c] && |[c][1..]| == 0;
      var (m1, first) := if c.id in m.counted then (m, []) else UsageOf(m, c);
      Nothing(first, TaskUsage(m1, [c][1..]).1);
      assert TaskUsage(m, arts).1 + first == first;
    } else {
      var (m1, first) := if arts[0].id in m.counted then (m, []) else UsageOf(m, arts[0]);
      var rest := TaskUsage(m1, arts[1..]);
      UsageSnoc(m1, arts[1..], c);
      assert (arts + [c])[1..] == arts[1..] + [c];
      Regroup(first, rest.1, if c.id in rest.0.counted || c.usage.None? then [] else [ZERO.(usage := c.usage)]);
    }
  }

  lemma {:induction false} UsageSoFar(m: Mapper, arts: seq<Content>, n: nat)
    requires n <= |arts|
    ensures TaskUsage(m, arts[..n]).1 == Uncounted(arts, m.counted, n)
    ensures TaskUsage(m, arts[..n]).0 == m.(counted := m.counted + Reporting(arts, n))
  {
    if n > 0 {
      UsageSoFar(m, arts, n - 1);
      UsageSnoc(m, arts[..n - 1], arts[n - 1]);
      assert arts[..n] == arts[..n - 1] + [arts[n - 1]];
      ReportingNext(arts, n - 1);
    }
  }

  lemma ReportingNext(arts: seq<Content>, n: nat)
    requires n < |arts|
    ensures Reporting(arts, n + 1) == Reporting(arts, n) + if arts[n].usage.Some? then {arts[n].id} else {}
  {
  }

  /** A whole task has the usage counted of each of its artifacts once, but for those
      the stream counted already. */
  lemma TaskUsageIs(m: Mapper, arts: seq<Content>)
    ensures TaskUsage(m, arts).1 == Uncounted(arts, m.counted, |arts|)
    ensures TaskUsage(m, arts).0.counted == m.counted + Reporting(arts, |arts|)
  {
    UsageSoFar(m, arts, |arts|);
    assert arts[..|arts|] == arts;
  }

  /** The event is an artifact's update that reports usage. */
  predicate Reported(ev: Incoming, id: ArtifactID) {
    ev.ArtifactUpdate? && ev.artifact.Some? && ev.artifact.value.usage.Some? && ev.artifact.value.id == id
  }

  lemma {:induction false} CountedAreReported(evs: seq<Incoming>, n: nat, id: ArtifactID)
    requires n <= |evs| && forall k :: 0 <= k < n ==> !EndsTurn(evs[k])
    ensures id in MapperAt(evs, n).counted <==> exists k :: 0 <= k < n && Reported(evs[k], id)
  {
    if n > 0 { CountedAreReported(evs, n - 1, id); }
  }

  /** An artifact's update has its usage passed on as often as it comes. */
  lemma UpdateUsage(m: Mapper, ev: Incoming)
    requires ev.ArtifactUpdate? && ev.artifact.Some?
    ensures var ds, usage := MapEvent(m, ev).1, ev.artifact.value.usage;
      && (usage.Some? ==> ds != [] && ds[|ds| - 1] == ZERO.(usage := usage))
      && (forall i :: 0 <= i < |ds| && ds[i].usage.Some? ==> i == |ds| - 1 && usage.Some?)
  {
    ToolsArePure(ev.artifact.value.parts);
    ToolsAreTools(ev.artifact.value.parts);
  }

  /** Over a turn no usage is counted twice and none left out: a completed task that
      comes whole reports that of each artifact no update of the stream has
      reported, once, in the task's order, right ahead of the turn's end. */
  lemma UsageCountedOnce(evs: seq<Incoming>, n: nat, i: nat)
    requires n < |evs| && evs[n].WholeTask? && evs[n].whole.status.state.Completed?
    requires forall k :: 0 <= k < n ==> !EndsTurn(evs[k])
    requires i < |evs[n].whole.artifacts|
    ensures var m, arts := MapperAt(evs, n), evs[n].whole.artifacts;
      && MappedAt(evs, n) == TaskResult(m, evs[n].whole).1 + Uncounted(arts, m.counted, |arts|) + [ZERO.(done := true)]
      && (ReportsFirst(arts, m.counted, i) <==>
            && arts[i].usage.Some? && !(exists k :: 0 <= k < n && Reported(evs[k], arts[i].id))
            && forall j :: 0 <= j < i && arts[j].id == arts[i].id ==> arts[j].usage.None?)
  {
    var m, t := MapperAt(evs, n), evs[n].whole;
    TaskUsageIs(TaskResult(m, t).0, t.artifacts);
    ResultCountsNothing(m, t);
    CountedAreReported(evs, n, t.artifacts[i].id);
  }

  lemma ResultCountsNothing(m: Mapper, t: Task)
    ensures TaskResult(m, t).0.counted == m.counted
  {
    RerenderCountsNothing(m, t.artifacts);
  }

  lemma {:induction false} RerenderCountsNothing(m: Mapper, arts: seq<Content>)
    ensures Rerender(m, arts).0.counted == m.counted
    decreases |arts|
  {
    if arts != [] {
      RerenderCountsNothing(m.(artifacts := DeltaOf(m.artifacts, Event(arts[0].id, false, PartsText(arts[0].parts))).0), arts[1..]);
    }
  }

  // --- how a turn ends -----------------------------------------------------------------------

  /** The status an event ends the turn with, a bare reply being a completed one. */
  function LastStatus(ev: Incoming): Status {
    match ev
    case StatusUpdate(_, status) => status
    case WholeTask(_, t) => t.status
    case _ => Status(Completed, None)
  }

  function StatusText(status: Status): Bytes { if status.message.Some? then PartsText(status.message.value.parts) else [] }

  /** The last delta of an event that ends the turn says how: done when the task
      completed, a prompt with the agent's hint or else the request's summary when
      it waits for the person, and the state it ended in with the account of it
      otherwise. */
  lemma EndSays(m: Mapper, ev: Incoming)
    requires EndsTurn(ev)
    ensures MapEvent(m, ev).1 != []
    ensures var ds, status := MapEvent(m, ev).1, LastStatus(ev); var last := ds[|ds| - 1];
      && (last == ZERO.(done := true) <==> status.state.Completed?)
      && (last.kind.PromptDelta? <==> status.state.InputRequired? || status.state.AuthRequired?)
      && (last.err.Some? <==> status.state.Failed? || status.state.Canceled? || status.state.Rejected?)
      && (IsTaskFailure(last) <==> status.state.Failed?)
      && (last.err.Some? ==> last.err.value.TaskEnded? && last.err.value.state == status.state
                             && last.err.value.reason == StatusText(status)
                             && last.err.value.cause == (if status.message.Some? then status.message.value.failureReason else ""))
      && (last.kind.PromptDelta? ==> Asks(last, if ev.WholeTask? then ev.whole.id else ev.task, status))
  {
  }

  /** The prompt delta puts the paused task's request to the person. */
  predicate Asks(d: Delta, task: TaskID, status: Status) {
    var asked := if status.message.Some? then status.message.value.prompt else None;
    && d.task == task && d.prompt.Some? == asked.Some?
    && (asked.Some? ==> d.prompt.value.summary == asked.value.summary && d.prompt.value.statusText == StatusText(status))
    && d.content == if StatusText(status) != [] then StatusText(status) else if asked.Some? then asked.value.summary else []
  }

  /** A task that is still at work or comes whole without its answer shows nothing else. */
  lemma WholeUncompleted(m: Mapper, ev: Incoming)
    requires ev.WholeTask? && !ev.whole.status.state.Completed?
    ensures |MapEvent(m, ev).1| == if EndsTurn(ev) then 1 else 0
  {
  }

  // --- the whole turn --------------------------------------------------------------------------

  /** The deltas of all the events, one after another. */
  function Said(m: Mapper, evs: seq<Incoming>): seq<Delta>
    decreases |evs|
  {
    if evs == [] then [] else MapEvent(m, evs[0]).1 + Said(MapEvent(m, evs[0]).0, evs[1..])
  }

  /** The events up to the first that ends the turn, it included. */
  function UpToEnd(evs: seq<Incoming>): (r: seq<Incoming>)
    ensures r <= evs && forall k :: 0 <= k < |r| - 1 ==> !EndsTurn(r[k])
    ensures r == evs || (r != [] && EndsTurn(r[|r| - 1]))
    decreases |evs|
  {
    if evs == [] then [] else if EndsTurn(evs[0]) then [evs[0]] else [evs[0]] + UpToEnd(evs[1..])
  }

  /** How a stream ends whose events did not end the turn: on its own error, if it broke. */
  function LastOfStream(evs: seq<Incoming>, failure: Option<string>): seq<Delta> {
    if evs != [] && EndsTurn(evs[|evs| - 1]) then []
    else if failure.Some? then [ZERO.(err := Some(Failure.Broken(failure.value)))]
    else [ZERO.(err := Some(NoTerminal))]
  }

  lemma {:induction false} PassedAll(m: Mapper, whole: bool, resumed: bool, answer: Option<Task>, ds: seq<Delta>)
    requires AllPure(ds) && EndsOnTerminal(ds) && (resumed ==> whole)
    ensures Passed(m, resumed, whole, answer, ds) == ds
    decreases |ds|
  {
    if |ds| > 0 {
      PassedAll(m, whole, resumed, answer, ds[1..]);
      PassedHead(m, resumed, whole, answer, ds);
      assert ds == [ds[0]] + ds[1..];
      var none: seq<Delta> := [];
      Nothing([ds[0]], none);
    }
  }

  lemma StopsAtEnd(m: Mapper, resumed: bool, ev: Incoming)
    ensures Stops(resumed, ev.WholeTask?, MapEvent(m, ev).1) <==> EndsTurn(ev)
  {
    var ds := MapEvent(m, ev).1;
    EventIsPure(m, ev);
    OneTerminalAndLast(m, ev);
    if EndsTurn(ev) {
      var i :| 0 <= i < |ds| && IsTerminal(ds[i]);
      assert Pure(ds[i]) && ds[i] in ds;
    }
  }

  /** A consumer that keeps listening to a turn from its start gets every delta of
      every event up to the one that ends the turn, and nothing else; of a stream
      that ends before, a last one that says so. */
  lemma {:induction false} FreshHears(m: Mapper, answer: Option<Task>, evs: seq<Incoming>, failure: Option<string>)
    ensures Heard(m, false, answer, evs, failure) == Said(m, UpToEnd(evs)) + LastOfStream(UpToEnd(evs), failure)
    decreases |evs|
  {
    if |evs| > 0 {
      var (m1, ds) := MapEvent(m, evs[0]);
      HeardHead(m, false, answer, evs, failure);
      EventIsPure(m, evs[0]);
      OneTerminalAndLast(m, evs[0]);
      PassedAll(m1, evs[0].WholeTask?, false, answer, ds);
      StopsAtEnd(m, false, evs[0]);
      if EndsTurn(evs[0]) {
        SaidOne(m, evs[0]);
        Nothing(ds, LastOfStream(UpToEnd(evs), failure));
        var none: seq<Delta> := [];
        Nothing(ds, none);
      } else {
        FreshHears(m1, answer, evs[1..], failure);
        SaidNext(m, evs, failure);
        Regroup(ds, Said(m1, UpToEnd(evs[1..])), LastOfStream(UpToEnd(evs[1..]), failure));
      }
    }
  }

  lemma SaidOne(m: Mapper, ev: Incoming)
    ensures Said(m, [ev]) == MapEvent(m, ev).1
  {
    assert |[ev][1..]| == 0;
    Nothing(MapEvent(m, ev).1, Said(MapEvent(m, ev).0, [ev][1..]));
  }

  lemma SaidNext(m: Mapper, evs: seq<Incoming>, failure: Option<string>)
    requires evs != [] && !EndsTurn(evs[0])
    ensures Said(m, UpToEnd(evs)) == MapEvent(m, evs[0]).1 + Said(MapEvent(m, evs[0]).0, UpToEnd(evs[1..]))
    ensures LastOfStream(UpToEnd(evs), failure) == LastOfStream(UpToEnd(evs[1..]), failure)
  {
    var rest := UpToEnd(evs[1..]);
    assert ([evs[0]] + rest)[1..] == rest;
    LastJoins(evs[0], rest, failure);
  }

  lemma LastJoins(first: Incoming, rest: seq<Incoming>, failure: Option<string>)
    requires !EndsTurn(first)
    ensures LastOfStream([first] + rest, failure) == LastOfStream(rest, failure)
  {
    assert rest != [] ==> ([first] + rest)[|rest|] == rest[|rest| - 1];
  }

  // --- a turn taken up again ---------------------------------------------------------------------

  /** The delta is a piece of the answer's text. */
  predicate IsText(d: Delta) { d.kind.TextDelta? && d.content != [] }

  /** The deltas but for the answer's text. */
  function Beside(ds: seq<Delta>): seq<Delta>
    decreases |ds|
  {
    if ds == [] then [] else (if IsText(ds[0]) then [] else [ds[0]]) + Beside(ds[1..])
  }

  lemma {:induction false} BesideJoins(a: seq<Delta>, b: seq<Delta>)
    ensures Beside(a + b) == Beside(a) + Beside(b)
    decreases |a|
  {
    if |a| == 0 {
      assert a + b == b;
    } else {
      BesideJoins(a[1..], b);
      assert (a + b)[1..] == a[1..] + b;
    }
  }

  lemma BesideOne(d: Delta)
    ensures Beside([d]) == if IsText(d) then [] else [d]
  {
    assert |[d][1..]| == 0;
    Nothing(if IsText(d) then [] else [d], Beside([d][1..]));
  }

  lemma {:induction false} BesideText(text: Bytes, ds: seq<Delta>)
    ensures Beside(TextOf(text) + ds) == Beside(ds)
  {
    if text == [] {
      assert TextOf(text) + ds == ds;
    } else {
      BesideJoins(TextOf(text), ds);
      BesideOne(TextOf(text)[0]);
    }
  }

  /** The usage the read back task adds. */
  function FinalUsage(m: Mapper, answer: Option<Task>): seq<Delta> {
    if answer.None? then [] else Uncounted(answer.value.artifacts, m.counted, |answer.value.artifacts|)
  }

  lemma {:induction false} UsageStays(ds: seq<Delta>)
    requires forall i :: 0 <= i < |ds| ==> !IsText(ds[i])
    ensures Beside(ds) == ds
    decreases |ds|
  {
    if |ds| > 0 { UsageStays(ds[1..]); }
  }

  lemma {:induction false} UncountedIsNotText(arts: seq<Content>, counted: set<ArtifactID>, n: nat)
    requires n <= |arts|
    ensures forall i :: 0 <= i < |Uncounted(arts, counted, n)| ==> !IsText(Uncounted(arts, counted, n)[i])
  {
    if n > 0 { UncountedIsNotText(arts, counted, n - 1); }
  }

  lemma BesideFinal(m: Mapper, answer: Option<Task>)
    ensures Beside(Final(m, answer)) == FinalUsage(m, answer)
  {
    if answer.Some? {
      var arts := answer.value.artifacts;
      TaskUsageIs(m, arts);
      BesideText(AnswerOf(answer.value), TaskUsage(m, arts).1);
      UncountedIsNotText(arts, m.counted, |arts|);
      UsageStays(Uncounted(arts, m.counted, |arts|));
    }
  }

  /** A piece of text that streams is held back, and anything else goes through. */
  lemma {:induction false} PassedBeside(m: Mapper, answer: Option<Task>, ds: seq<Delta>)
    requires AllPure(ds) && EndsOnTerminal(ds) && forall i :: 0 <= i < |ds| ==> !ds[i].done
    ensures Beside(Passed(m, true, false, answer, ds)) == Beside(ds)
    decreases |ds|
  {
    if |ds| > 0 {
      var d, rest := ds[0], ds[1..];
      PassedBeside(m, answer, rest);
      PassedHead(m, true, false, answer, ds);
      assert Pure(d);
      if Kept(true, false, d) {
        var passed := if IsTerminal(d) then [] else Passed(m, true, false, answer, rest);
        assert IsTerminal(d) ==> rest == [];
        assert Kept1(m, false, answer, d) == [d];
        BesideJoins([d], passed);
        BesideOne(d);
      }
    }
  }

  /** The event completes the turn and the answer is yet to be read back. */
  lemma FinishBeside(m: Mapper, answer: Option<Task>, ev: Incoming)
    requires Finishes(ev)
    ensures var (m1, ds) := MapEvent(m, ev);
      Beside(Passed(m1, true, false, answer, ds)) == FinalUsage(m1, answer) + [ZERO.(done := true)]
  {
    var (m1, ds) := MapEvent(m, ev);
    var done := ZERO.(done := true);
    var text := TextOf(if ev.Reply? then PartsText(ev.message.parts) else []);
    assert ds == text + [done];
    PassedFinish(m1, answer, text, done);
    BesideJoins(Final(m1, answer), [done]);
    BesideFinal(m1, answer);
    BesideOne(done);
  }

  lemma PassedFinish(m: Mapper, answer: Option<Task>, text: seq<Delta>, done: Delta)
    requires |text| <= 1 && (text != [] ==> IsText(text[0])) && done == ZERO.(done := true)
    ensures Passed(m, true, false, answer, text + [done]) == Final(m, answer) + [done]
  {
    var none: seq<Delta> := [];
    PassedHead(m, true, false, answer, [done]);
    Nothing(Final(m, answer) + [done], none);
    if text != [] {
      PassedHead(m, true, false, answer, text + [done]);
      assert (text + [done])[1..] == [done];
    } else {
      assert text + [done] == [done];
    }
  }

  /** What is passed on of one event of a resubscribed turn, text apart. */
  lemma ResumedEvent(m: Mapper, answer: Option<Task>, ev: Incoming)
    ensures var (m1, ds) := MapEvent(m, ev);
      Beside(Passed(m1, true, ev.WholeTask?, answer, ds))
        == if Finishes(ev) then FinalUsage(m1, answer) + [ZERO.(done := true)] else Beside(ds)
  {
    var (m1, ds) := MapEvent(m, ev);
    EventIsPure(m, ev);
    OneTerminalAndLast(m, ev);
    if ev.WholeTask? {
      PassedAll(m1, true, true, answer, ds);
    } else if Finishes(ev) {
      FinishBeside(m, answer, ev);
    } else {
      NotDone(m, ev);
      PassedBeside(m1, answer, ds);
    }
  }

  lemma NotDone(m: Mapper, ev: Incoming)
    requires !ev.WholeTask? && !Finishes(ev)
    ensures forall i :: 0 <= i < |MapEvent(m, ev).1| ==> !MapEvent(m, ev).1[i].done
  {
    if EndsTurn(ev) {
      EndSays(m, ev);
    } else {
      OneTerminalAndLast(m, ev);
    }
  }

  /** All of a resubscribed turn but for the answer's text: that of every event up to
      the one that ends the turn, and ahead of the end of a task that completed the
      usage the stream did not report. */
  function ResumedBeside(m: Mapper, answer: Option<Task>, evs: seq<Incoming>): seq<Delta>
    decreases |evs|
  {
    if evs == [] then []
    else
      var (m1, ds) := MapEvent(m, evs[0]);
      (if Finishes(evs[0]) then FinalUsage(m1, answer) + [ZERO.(done := true)] else Beside(ds))
      + ResumedBeside(m1, answer, evs[1..])
  }

  lemma {:induction false} ResumedHearsBeside(m: Mapper, answer: Option<Task>, evs: seq<Incoming>, failure: Option<string>)
    ensures Beside(Heard(m, true, answer, evs, failure))
         == ResumedBeside(m, answer, UpToEnd(evs)) + LastOfStream(UpToEnd(evs), failure)
    decreases |evs|
  {
    if |evs| == 0 {
      BesideOne(StreamEnd(failure));
    } else {
      var (m1, ds) := MapEvent(m, evs[0]);
      var passed := Passed(m1, true, evs[0].WholeTask?, answer, ds);
      HeardHead(m, true, answer, evs, failure);
      ResumedEvent(m, answer, evs[0]);
      StopsAtEnd(m, true, evs[0]);
      ResumedHearsBeside(m1, answer, evs[1..], failure);
      ResumedNext(m, answer, evs, failure);
      BesideJoins(passed, if EndsTurn(evs[0]) then [] else Heard(m1, true, answer, evs[1..], failure));
      if !EndsTurn(evs[0]) {
        Regroup(Beside(passed), ResumedBeside(m1, answer, UpToEnd(evs[1..])), LastOfStream(UpToEnd(evs[1..]), failure));
      }
    }
  }

  lemma ResumedNext(m: Mapper, answer: Option<Task>, evs: seq<Incoming>, failure: Option<string>)
    requires evs != []
    ensures var (m1, ds) := MapEvent(m, evs[0]);
      var first := if Finishes(evs[0]) then FinalUsage(m1, answer) + [ZERO.(done := true)] else Beside(ds);
      && ResumedBeside(m, answer, UpToEnd(evs)) ==
           first + (if EndsTurn(evs[0]) then [] else ResumedBeside(m1, answer, UpToEnd(evs[1..])))
      && LastOfStream(UpToEnd(evs), failure) == if EndsTurn(evs[0]) then [] else LastOfStream(UpToEnd(evs[1..]), failure)
  {
    if EndsTurn(evs[0]) {
      assert |[evs[0]][1..]| == 0;
    } else {
      SaidNext(m, evs, failure);
      assert ([evs[0]] + UpToEnd(evs[1..]))[1..] == UpToEnd(evs[1..]);
    }
  }
}
