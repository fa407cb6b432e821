/** A task's A2A events turned into the deltas a channel receives. */
module EventMapper {
  import opened LinkModel
  import opened Streaming

  type TaskID = string

  datatype TaskState =
    | Submitted | Working | Completed | InputRequired | AuthRequired | Failed | Canceled | Rejected | Unspecified

  predicate EndState(s: TaskState) { s.Completed? || s.Failed? || s.Canceled? || s.Rejected? }

  datatype Tool = Tool(call: bool, name: string)
  datatype Part = Part(text: Bytes, tool: Option<Tool>)
  datatype Prompt = Prompt(summary: Bytes, statusText: Bytes)
  datatype Message = Message(agent: bool, parts: seq<Part>, prompt: Option<Prompt>, failureReason: string)
  datatype Status = Status(state: TaskState, message: Option<Message>)
  datatype Content = Content(id: ArtifactID, parts: seq<Part>, usage: Option<nat>)
  datatype Task = Task(id: TaskID, status: Status, artifacts: seq<Content>, history: seq<Message>)

  datatype Incoming =
    | ArtifactUpdate(task: TaskID, artifact: Option<Content>, append: bool)
    | StatusUpdate(task: TaskID, status: Status)
    | WholeTask(task: TaskID, whole: Task)
    | Reply(task: TaskID, message: Message)

  datatype Kind = TextDelta | NarrationDelta | ToolDelta | PromptDelta

  datatype Failure = TaskEnded(state: TaskState, reason: Bytes, cause: string) | Broken(error: string) | NoTerminal

  datatype Delta = Delta(
    kind: Kind, content: Bytes, done: bool, err: Option<Failure>,
    task: TaskID, prompt: Option<Prompt>, usage: Option<nat>, tool: Option<Tool>)

  const ZERO := Delta(TextDelta, [], false, None, "", None, None, None)

  predicate IsTerminal(d: Delta) { d.err.Some? || d.done || d.kind.PromptDelta? }

  /** The delta puts something in front of the person. */
  predicate Shows(d: Delta) { d.content != [] || d.tool.Some? || d.prompt.Some? || d.kind.PromptDelta? }

  // --- the parts of a message -------------------------------------------------------

  function PartsText(parts: seq<Part>): Bytes {
    if parts == [] then [] else parts[0].text + PartsText(parts[1..])
  }

  function TextOf(text: Bytes): seq<Delta> { if text == [] then [] else [ZERO.(content := text)] }

  function ToolDeltas(parts: seq<Part>): seq<Delta> {
    if parts == [] then []
    else (if parts[0].tool.Some? then [ZERO.(kind := ToolDelta, tool := parts[0].tool)] else []) + ToolDeltas(parts[1..])
  }

  predicate HasCall(parts: seq<Part>) { exists p :: p in parts && p.tool.Some? && p.tool.value.call }

  function NarrationDeltas(parts: seq<Part>): seq<Delta> {
    if !HasCall(parts) || PartsText(parts) == [] then []
    else [ZERO.(kind := NarrationDelta, content := PartsText(parts))]
  }

  // --- the mapper -----------------------------------------------------------------------

  datatype Mapper = Mapper(artifacts: Tracker, counted: set<ArtifactID>)

  const NEW_MAPPER := Mapper(NOTHING, {})

  function StatusDeltas(task: TaskID, status: Status, interim: seq<Delta>): seq<Delta> {
    match status.state
    case Completed => [ZERO.(done := true)]
    case InputRequired => [PromptOf(task, status)]
    case AuthRequired => [PromptOf(task, status)]
    case _ => if EndState(status.state) then [ZERO.(err := Some(EndedWith(status)))] else interim
  }

  function PromptOf(task: TaskID, status: Status): Delta {
    var text := if status.message.Some? then PartsText(status.message.value.parts) else [];
    var asked := if status.message.Some? then status.message.value.prompt else None;
    ZERO.(kind := PromptDelta, task := task,
          prompt := if asked.Some? then Some(asked.value.(statusText := text)) else None,
          content := if text == [] && asked.Some? then asked.value.summary else text)
  }

  function EndedWith(status: Status): Failure {
    var text := if status.message.Some? then PartsText(status.message.value.parts) else [];
    TaskEnded(status.state, text, if status.message.Some? then status.message.value.failureReason else "")
  }

  function UsageOf(m: Mapper, c: Content): (Mapper, seq<Delta>) {
    if c.usage.Some? then (m.(counted := m.counted + {c.id}), [ZERO.(usage := c.usage)]) else (m, [])
  }

  /** The usage of the artifacts the stream delivered none of. */
  function TaskUsage(m: Mapper, arts: seq<Content>): (Mapper, seq<Delta>)
    decreases |arts|
  {
    if arts == [] then (m, [])
    else
      var (m1, ds) := if arts[0].id in m.counted then (m, []) else UsageOf(m, arts[0]);
      var (m2, more) := TaskUsage(m1, arts[1..]);
      (m2, ds + more)
  }

  function Rerender(m: Mapper, arts: seq<Content>): (Mapper, seq<Delta>)
    decreases |arts|
  {
    if arts == [] then (m, [])
    else
      var (tr, text) := DeltaOf(m.artifacts, Event(arts[0].id, false, PartsText(arts[0].parts)));
      var (m2, more) := Rerender(m.(artifacts := tr), arts[1..]);
      (m2, TextOf(text) + more)
  }

  function LastAgentText(history: seq<Message>): Bytes {
    if history == [] then []
    else if history[|history| - 1].agent then PartsText(history[|history| - 1].parts)
    else LastAgentText(history[..|history| - 1])
  }

  function TaskResult(m: Mapper, t: Task): (Mapper, seq<Delta>) {
    if t.artifacts == [] then (m, TextOf(LastAgentText(t.history))) else Rerender(m, t.artifacts)
  }

  function MapEvent(m: Mapper, ev: Incoming): (Mapper, seq<Delta>) {
    match ev
    case ArtifactUpdate(_, artifact, append) =>
      if artifact.None? then (m, [])
      else
        var c := artifact.value;
        var (tr, text) := DeltaOf(m.artifacts, Event(c.id, append, PartsText(c.parts)));
        var (m1, usage) := UsageOf(m.(artifacts := tr), c);
        (m1, TextOf(text) + ToolDeltas(c.parts) + usage)
    case StatusUpdate(task, status) =>
      var parts := if status.message.Some? then status.message.value.parts else [];
      (m, StatusDeltas(task, status, NarrationDeltas(parts) + ToolDeltas(parts)))
    case WholeTask(_, t) =>
      if t.status.state.Submitted? || t.status.state.Working? then (m, [])
      else if t.status.state.Completed? then
        var (m1, result) := TaskResult(m, t);
        var (m2, usage) := TaskUsage(m1, t.artifacts);
        (m2, result + usage + StatusDeltas(t.id, t.status, []))
      else (m, StatusDeltas(t.id, t.status, []))
    case Reply(_, message) => (m, TextOf(PartsText(message.parts)) + [ZERO.(done := true)])
  }

  predicate NoneTerminal(ds: seq<Delta>) { forall i :: 0 <= i < |ds| ==> !IsTerminal(ds[i]) }

  /** Nothing follows a terminal delta. */
  predicate EndsOnTerminal(ds: seq<Delta>) { forall i :: 0 <= i < |ds| - 1 ==> !IsTerminal(ds[i]) }

  lemma {:induction false} ToolsAreNotTerminal(parts: seq<Part>)
    ensures NoneTerminal(ToolDeltas(parts))
  {
    if parts != [] { ToolsAreNotTerminal(parts[1..]); }
  }

  lemma {:induction false} UsageIsNotTerminal(m: Mapper, arts: seq<Content>)
    ensures NoneTerminal(TaskUsage(m, arts).1)
    decreases |arts|
  {
    if arts != [] {
      UsageIsNotTerminal(if arts[0].id in m.counted then m else UsageOf(m, arts[0]).0, arts[1..]);
    }
  }

  lemma {:induction false} TextIsNotTerminal(m: Mapper, arts: seq<Content>)
    ensures NoneTerminal(Rerender(m, arts).1)
    decreases |arts|
  {
    if arts != [] {
      TextIsNotTerminal(m.(artifacts := DeltaOf(m.artifacts, Event(arts[0].id, false, PartsText(arts[0].parts))).0), arts[1..]);
    }
  }

  lemma EndsWith(ds: seq<Delta>, last: Delta)
    requires NoneTerminal(ds) && IsTerminal(last)
    ensures EndsOnTerminal(ds + [last]) && !NoneTerminal(ds + [last])
  {
    assert (ds + [last])[|ds|] == last;
  }

  /** Only a status update or a task that completed, paused or ended, and a bare
      reply, end a turn. */
  predicate EndsTurn(ev: Incoming) {
    match ev
    case ArtifactUpdate(_, _, _) => false
    case StatusUpdate(_, status) => EndState(status.state) || status.state.InputRequired? || status.state.AuthRequired?
    case WholeTask(_, t) => EndState(t.status.state) || t.status.state.InputRequired? || t.status.state.AuthRequired?
    case Reply(_, _) => true
  }

  lemma StatusEnds(task: TaskID, status: Status, interim: seq<Delta>)
    requires NoneTerminal(interim)
    ensures var ds := StatusDeltas(task, status, interim);
      EndsOnTerminal(ds) && (!NoneTerminal(ds) <==> EndState(status.state) || status.state.InputRequired? || status.state.AuthRequired?)
  {
    var ds := StatusDeltas(task, status, interim);
    if EndState(status.state) || status.state.InputRequired? || status.state.AuthRequired? { assert IsTerminal(ds[0]); }
  }

  lemma CompletedEnds(m: Mapper, ev: Incoming)
    requires ev.WholeTask? && ev.whole.status.state.Completed?
    ensures EndsOnTerminal(MapEvent(m, ev).1) && !NoneTerminal(MapEvent(m, ev).1)
  {
    var (m1, result) := TaskResult(m, ev.whole);
    var (m2, usage) := TaskUsage(m1, ev.whole.artifacts);
    TextIsNotTerminal(m, ev.whole.artifacts);
    UsageIsNotTerminal(m1, ev.whole.artifacts);
    EndsWith(result + usage, ZERO.(done := true));
  }

  /** One event gives at most one terminal delta, and it comes last. */
  lemma OneTerminalAndLast(m: Mapper, ev: Incoming)
    ensures EndsOnTerminal(MapEvent(m, ev).1)
    ensures !NoneTerminal(MapEvent(m, ev).1) <==> EndsTurn(ev)
  {
    match ev {
      case ArtifactUpdate(_, artifact, _) => if artifact.Some? { ToolsAreNotTerminal(artifact.value.parts); }
      case StatusUpdate(task, status) =>
        var parts := if status.message.Some? then status.message.value.parts else [];
        ToolsAreNotTerminal(parts);
        StatusEnds(task, status, NarrationDeltas(parts) + ToolDeltas(parts));
      case WholeTask(_, t) =>
        if t.status.state.Completed? { CompletedEnds(m, ev); } else { StatusEnds(t.id, t.status, []); }
      case Reply(_, message) => EndsWith(TextOf(PartsText(message.parts)), ZERO.(done := true));
    }
  }

  // --- what the deltas show ------------------------------------------------------------

  function ContentOf(ds: seq<Delta>): Bytes { if ds == [] then [] else ds[0].content + ContentOf(ds[1..]) }

  function WholeEvents(arts: seq<Content>): seq<Event> {
    seq(|arts|, i requires 0 <= i < |arts| => Event(arts[i].id, false, PartsText(arts[i].parts)))
  }

  /** taskResultText: the finished task's text, rendered as the stream renders it. */
  lemma {:induction false} RerenderIsStream(m: Mapper, arts: seq<Content>)
    ensures ContentOf(Rerender(m, arts).1) == Stream(m.artifacts, WholeEvents(arts)).1
    ensures Rerender(m, arts).0.artifacts == Stream(m.artifacts, WholeEvents(arts)).0
    decreases |arts|
  {
    if |arts| > 0 {
      var first := DeltaOf(m.artifacts, Event(arts[0].id, false, PartsText(arts[0].parts)));
      var m1 := m.(artifacts := first.0);
      RerenderIsStream(m1, arts[1..]);
      FirstWhole(m.artifacts, arts);
      TextThenRest(first.1, Rerender(m1, arts[1..]).1);
    }
  }

  lemma FirstWhole(tr: Tracker, arts: seq<Content>)
    requires arts != []
    ensures var first := DeltaOf(tr, Event(arts[0].id, false, PartsText(arts[0].parts)));
      && Stream(tr, WholeEvents(arts)).0 == Stream(first.0, WholeEvents(arts[1..])).0
      && Stream(tr, WholeEvents(arts)).1 == first.1 + Stream(first.0, WholeEvents(arts[1..])).1
  {
    var ev, rest := Event(arts[0].id, false, PartsText(arts[0].parts)), WholeEvents(arts[1..]);
    WholesSplit(arts);
    FoldJoins(DeltaOf, tr, [ev], rest);
    FoldOne(DeltaOf, tr, ev);
  }

  lemma WholesSplit(arts: seq<Content>)
    requires arts != []
    ensures WholeEvents(arts) == [Event(arts[0].id, false, PartsText(arts[0].parts))] + WholeEvents(arts[1..])
  {
  }

  lemma TextThenRest(text: Bytes, ds: seq<Delta>)
    ensures ContentOf(TextOf(text) + ds) == text + ContentOf(ds)
  {
    if text == [] {
      assert TextOf(text) + ds == ds;
    } else {
      assert (TextOf(text) + ds)[1..] == ds;
    }
  }

  /** A completed task whose artifacts carry what was streamed of them renders
      no text again. */
  lemma StreamedTaskAddsNoText(m: Mapper, t: Task)
    requires t.artifacts != []
    requires forall i :: 0 <= i < |t.artifacts| ==>
      t.artifacts[i].id != "" && Before(m.artifacts, t.artifacts[i].id) == PartsText(t.artifacts[i].parts)
    ensures ContentOf(TaskResult(m, t).1) == []
  {
    RerenderIsStream(m, t.artifacts);
    RepeatsRenderNothing(m.artifacts, WholeEvents(t.artifacts));
  }

  /** A completed task without artifacts is answered with the text of the last message
      its history has from the agent, and with nothing when there is none. */
  lemma {:induction false} LastAgentAnswers(history: seq<Message>, k: int)
    requires -1 <= k < |history| && (k >= 0 ==> history[k].agent)
    requires forall j :: k < j < |history| ==> !history[j].agent
    ensures LastAgentText(history) == if k >= 0 then PartsText(history[k].parts) else []
    decreases |history|
  {
    if k < |history| - 1 { LastAgentAnswers(history[..|history| - 1], k); }
  }

  // --- in place -----------------------------------------------------------------------

  class Events {
    const artifacts: ArtifactText
    var counted: set<ArtifactID>

    function View(): Mapper
      reads this, artifacts
    {
      Mapper(artifacts.View(), counted)
    }

    constructor ()
      ensures fresh(artifacts) && View() == NEW_MAPPER
    {
      artifacts := new ArtifactText();
      counted := {};
    }

    /** deltas: what one event puts out. */
    method Deltas(ev: Incoming) returns (ds: seq<Delta>)
      modifies this, artifacts
      ensures (View(), ds) == MapEvent(old(View()), ev)
    {
      match ev {
        case ArtifactUpdate(_, artifact, append) =>
          if artifact.None? {
            return [];
          }
          var c := artifact.value;
          var text := artifacts.Delta(Event(c.id, append, PartsText(c.parts)));
          ds := TextOf(text) + ToolDeltas(c.parts);
          if c.usage.Some? {
            counted := counted + {c.id};
            ds := ds + [ZERO.(usage := c.usage)];
          } else {
            ds := ds + [];
          }
        case StatusUpdate(task, status) =>
          var parts := if status.message.Some? then status.message.value.parts else [];
          ds := StatusDeltas(task, status, NarrationDeltas(parts) + ToolDeltas(parts));
        case WholeTask(_, t) =>
          if t.status.state.Submitted? || t.status.state.Working? {
            return [];
          }
          ds := StatusDeltas(t.id, t.status, []);
          if t.status.state.Completed? {
            var result := ResultDeltas(t);
            var usage := UsageDeltas(t.artifacts);
            ds := result + usage + ds;
          }
        case Reply(_, message) =>
          ds := TextOf(PartsText(message.parts)) + [ZERO.(done := true)];
      }
    }

    /** taskResultDeltas: each artifact goes through the tracker as a full replace. */
    method ResultDeltas(t: Task) returns (ds: seq<Delta>)
      modifies artifacts
      ensures (View(), ds) == TaskResult(old(View()), t)
    {
      ds := [];
      ghost var start := View();
      var i := 0;
      while i < |t.artifacts|
        invariant i <= |t.artifacts|
        invariant Rerender(start, t.artifacts).0 == Rerender(View(), t.artifacts[i..]).0
        invariant Rerender(start, t.artifacts).1 == ds + Rerender(View(), t.artifacts[i..]).1
        invariant counted == start.counted
      {
        var c := t.artifacts[i];
        ghost var rest, ds0 := Rerender(View(), t.artifacts[i..]).1, ds;
        var text := artifacts.Delta(Event(c.id, false, PartsText(c.parts)));
        ds := ds + TextOf(text);
        i := i + 1;
        assert rest == TextOf(text) + Rerender(View(), t.artifacts[i..]).1;
        Regroup(ds0, TextOf(text), Rerender(View(), t.artifacts[i..]).1);
      }
      Nothing(ds, Rerender(View(), t.artifacts[i..]).1);
      if |t.artifacts| > 0 {
        return;
      }
      ds := TextOf(LastAgentText(t.history));
    }

    /** taskUsageDeltas. */
    method UsageDeltas(arts: seq<Content>) returns (ds: seq<Delta>)
      modifies this`counted
      ensures (View(), ds) == TaskUsage(old(View()), arts)
    {
      ds := [];
      ghost var start := View();
      var i := 0;
      while i < |arts|
        invariant i <= |arts|
        invariant TaskUsage(start, arts).0 == TaskUsage(View(), arts[i..]).0
        invariant TaskUsage(start, arts).1 == ds + TaskUsage(View(), arts[i..]).1
        invariant artifacts.View() == start.artifacts
      {
        ghost var m, ds0 := View(), ds;
        ghost var rest := TaskUsage(m, arts[i..]).1;
        if arts[i].id !in counted && arts[i].usage.Some? {
          counted := counted + {arts[i].id};
          ds := ds + [ZERO.(usage := arts[i].usage)];
          assert rest == [ZERO.(usage := arts[i].usage)] + TaskUsage(View(), arts[i + 1..]).1;
        } else {
          assert rest == [] + TaskUsage(View(), arts[i + 1..]).1;
        }
        i := i + 1;
        assert ds0 + rest == ds + TaskUsage(View(), arts[i..]).1;
      }
      assert arts[i..] == [] && ds + [] == ds;
    }
  }

  /** taskResultText: the answer of a completed task, rendered by a new mapper. */
  method TaskResultText(t: Task) returns (text: Bytes)
    ensures text == AnswerOf(t)
  {
    var mapper := new Events();
    var ds := mapper.ResultDeltas(t);
    text := [];
    var i := 0;
    while i < |ds|
      invariant i <= |ds| && text + ContentOf(ds[i..]) == ContentOf(ds)
    {
      text := text + ds[i].content;
      i := i + 1;
    }
    assert text + [] == text;
  }

  function AnswerOf(t: Task): Bytes { ContentOf(TaskResult(NEW_MAPPER, t).1) }

  lemma {:induction false} WholesAreFinished(arts: seq<Artifact>, contents: seq<Content>)
    requires |contents| == |arts|
    requires forall i :: 0 <= i < |arts| ==> contents[i].id == arts[i].id && PartsText(contents[i].parts) == Text(arts[i].us)
    ensures WholeEvents(contents) == Finished(arts)
    decreases |arts|
  {
    if |arts| > 0 {
      WholesAreFinished(arts[1..], contents[1..]);
      var first := Event(contents[0].id, false, PartsText(contents[0].parts));
      assert WholeEvents(contents) == [first] + WholeEvents(contents[1..]);
    }
  }

  /** What a listener was sent of a task's artifacts is the answer read back from
      the finished task, under the exact condition of StreamEqualsWhole. */
  lemma {:induction false} StreamEqualsAnswer(arts: seq<Artifact>, t: Task)
    requires Orderly(arts) && arts != [] && |t.artifacts| == |arts|
    requires forall i :: 0 <= i < |arts| ==> t.artifacts[i].id == arts[i].id && PartsText(t.artifacts[i].parts) == Text(arts[i].us)
    ensures Stream(NOTHING, Streamed(arts)).1 == AnswerOf(t) <==> AllAtRunes(arts) && Settles(arts, Level)
  {
    WholesAreFinished(arts, t.artifacts);
    RerenderIsStream(NEW_MAPPER, t.artifacts);
    StreamEqualsWhole(arts);
  }
}
