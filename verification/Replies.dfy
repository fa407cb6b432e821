/** What a listener reads of a turn: the text of the deltas it hears, against the
    answer of the finished task, in one process and over restarts. */
module Replies {
  import opened LinkModel
  import opened Streaming
  import opened EventMapper
  import opened Turns
  import opened LateJoin
  import C = Continuation

  /** The answer text in the deltas, tool activity, narration and prompts left out. */
  function TextContent(ds: seq<Delta>): Bytes
    decreases |ds|
  {
    if ds == [] then [] else TextIn(ds[0]) + TextContent(ds[1..])
  }

  function TextIn(d: Delta): Bytes { if d.kind.TextDelta? then d.content else [] }

  predicate Textless(ds: seq<Delta>) { forall i :: 0 <= i < |ds| ==> TextIn(ds[i]) == [] }

  lemma {:induction false} TextJoins(a: seq<Delta>, b: seq<Delta>)
    ensures TextContent(a + b) == TextContent(a) + TextContent(b)
    decreases |a|
  {
    if |a| == 0 {
      assert a + b == b;
      Nothing(TextContent(b), TextContent(a));
    } else {
      TextJoins(a[1..], b);
      assert (a + b)[1..] == a[1..] + b;
      Regroup(TextIn(a[0]), TextContent(a[1..]), TextContent(b));
    }
  }

  lemma {:induction false} TextlessIsEmpty(ds: seq<Delta>)
    requires Textless(ds)
    ensures TextContent(ds) == []
    decreases |ds|
  {
    if |ds| > 0 {
      TextlessIsEmpty(ds[1..]);
    }
  }

  lemma TextAlone(text: Bytes)
    ensures TextContent(TextOf(text)) == text
  {
    if text != [] {
      var ds := TextOf(text);
      assert |ds[1..]| == 0;
      Nothing(text, TextContent(ds[1..]));
    }
  }

  // --- one event --------------------------------------------------------------------------

  /** The artifact updates an event has for the tracker. */
  function TextEvents(ev: Incoming): seq<Event> {
    match ev
    case ArtifactUpdate(_, artifact, append) =>
      if artifact.None? then [] else [Event(artifact.value.id, append, PartsText(artifact.value.parts))]
    case WholeTask(_, t) => if t.status.state.Completed? then WholeEvents(t.artifacts) else []
    case _ => []
  }

  /** The text an event has beside artifacts. */
  function Loose(ev: Incoming): Bytes {
    match ev
    case WholeTask(_, t) => if t.status.state.Completed? && t.artifacts == [] then LastAgentText(t.history) else []
    case Reply(_, message) => PartsText(message.parts)
    case _ => []
  }

  lemma {:induction false} ToolsAreTextless(parts: seq<Part>)
    ensures Textless(ToolDeltas(parts))
  {
    if parts != [] { ToolsAreTextless(parts[1..]); }
  }

  lemma {:induction false} UsageIsTextless(m: Mapper, arts: seq<Content>)
    ensures Textless(TaskUsage(m, arts).1) && TaskUsage(m, arts).0.artifacts == m.artifacts
    decreases |arts|
  {
    if arts != [] {
      UsageIsTextless(if arts[0].id in m.counted then m else UsageOf(m, arts[0]).0, arts[1..]);
    }
  }

  lemma StatusIsTextless(task: TaskID, status: Status, parts: seq<Part>)
    ensures Textless(StatusDeltas(task, status, NarrationDeltas(parts) + ToolDeltas(parts)))
  {
    ToolsAreTextless(parts);
  }

  lemma {:induction false} RerenderIsText(m: Mapper, arts: seq<Content>)
    ensures TextContent(Rerender(m, arts).1) == ContentOf(Rerender(m, arts).1)
    decreases |arts|
  {
    if arts != [] {
      var (tr, text) := DeltaOf(m.artifacts, Event(arts[0].id, false, PartsText(arts[0].parts)));
      var rest := Rerender(m.(artifacts := tr), arts[1..]).1;
      RerenderIsText(m.(artifacts := tr), arts[1..]);
      TextJoins(TextOf(text), rest);
      TextAlone(text);
      TextThenRest(text, rest);
    }
  }

  lemma ResultText(m: Mapper, t: Task)
    ensures t.artifacts != [] ==> TextContent(TaskResult(m, t).1) == Stream(m.artifacts, WholeEvents(t.artifacts)).1
    ensures t.artifacts != [] ==> TaskResult(m, t).0.artifacts == Stream(m.artifacts, WholeEvents(t.artifacts)).0
    ensures t.artifacts == [] ==> TextContent(TaskResult(m, t).1) == LastAgentText(t.history) && TaskResult(m, t).0 == m
  {
    RerenderIsText(m, t.artifacts);
    RerenderIsStream(m, t.artifacts);
    TextAlone(LastAgentText(t.history));
  }

  lemma TextThenTextless(text: seq<Delta>, more: seq<Delta>)
    requires Textless(more)
    ensures TextContent(text + more) == TextContent(text)
  {
    TextJoins(text, more);
    TextlessIsEmpty(more);
    Nothing(TextContent(text), TextContent(more));
  }

  lemma NoEvents(tr: Tracker, evs: seq<Event>)
    requires |evs| == 0
    ensures Stream(tr, evs).0 == tr && Stream(tr, evs).1 == []
  {
  }

  lemma UpdateText(m: Mapper, ev: Incoming)
    requires ev.ArtifactUpdate?
    ensures TextContent(MapEvent(m, ev).1) == Stream(m.artifacts, TextEvents(ev)).1
    ensures MapEvent(m, ev).0.artifacts == Stream(m.artifacts, TextEvents(ev)).0
  {
    if ev.artifact.None? {
      NoEvents(m.artifacts, TextEvents(ev));
    } else {
      var c := ev.artifact.value;
      var update := Event(c.id, ev.append, PartsText(c.parts));
      var (tr, text) := DeltaOf(m.artifacts, update);
      var usage := UsageOf(m.(artifacts := tr), c).1;
      FoldOne(DeltaOf, m.artifacts, update);
      ToolsAreTextless(c.parts);
      TextThenTextless(TextOf(text), ToolDeltas(c.parts) + usage);
      TextAlone(text);
      Regroup(TextOf(text), ToolDeltas(c.parts), usage);
    }
  }

  lemma WholeText(m: Mapper, ev: Incoming)
    requires ev.WholeTask?
    ensures TextContent(MapEvent(m, ev).1) == Stream(m.artifacts, TextEvents(ev)).1 + Loose(ev)
    ensures MapEvent(m, ev).0.artifacts == Stream(m.artifacts, TextEvents(ev)).0
  {
    var t := ev.whole;
    if t.status.state.Completed? {
      var (m1, result) := TaskResult(m, t);
      var (m2, usage) := TaskUsage(m1, t.artifacts);
      var last := StatusDeltas(t.id, t.status, []);
      ResultText(m, t);
      UsageIsTextless(m1, t.artifacts);
      TextThenTextless(result, usage + last);
      Regroup(result, usage, last);
      if t.artifacts == [] { NoEvents(m.artifacts, TextEvents(ev)); }
    } else {
      TextlessIsEmpty(MapEvent(m, ev).1);
      NoEvents(m.artifacts, TextEvents(ev));
    }
    Nothing(Stream(m.artifacts, TextEvents(ev)).1, Loose(ev));
    Nothing(Loose(ev), Stream(m.artifacts, TextEvents(ev)).1);
  }

  /** One event's text deltas are what its artifact updates stream, and its loose text. */
  lemma MappedText(m: Mapper, ev: Incoming)
    ensures TextContent(MapEvent(m, ev).1) == Stream(m.artifacts, TextEvents(ev)).1 + Loose(ev)
    ensures MapEvent(m, ev).0.artifacts == Stream(m.artifacts, TextEvents(ev)).0
  {
    match ev {
      case ArtifactUpdate(_, _, _) =>
        UpdateText(m, ev);
        Nothing(Stream(m.artifacts, TextEvents(ev)).1, Loose(ev));
      case WholeTask(_, _) => WholeText(m, ev);
      case StatusUpdate(task, status) =>
        StatusIsTextless(task, status, if status.message.Some? then status.message.value.parts else []);
        TextlessIsEmpty(MapEvent(m, ev).1);
        NoEvents(m.artifacts, TextEvents(ev));
      case Reply(_, message) =>
        var text := TextOf(PartsText(message.parts));
        TextThenTextless(text, [ZERO.(done := true)]);
        TextAlone(PartsText(message.parts));
        NoEvents(m.artifacts, TextEvents(ev));
        Nothing(Loose(ev), Stream(m.artifacts, TextEvents(ev)).1);
    }
  }

  // --- a turn of this process ---------------------------------------------------------------

  /** Where no text is held back, every delta but the empty one is passed, up to
      the terminal one. */
  lemma {:induction false} PassedText(m: Mapper, resumed: bool, whole: bool, answer: Option<Task>, ds: seq<Delta>)
    requires EndsOnTerminal(ds) && !(resumed && !whole)
    ensures TextContent(Passed(m, resumed, whole, answer, ds)) == TextContent(ds)
    ensures Stops(resumed, whole, ds) <==> !NoneTerminal(ds)
    decreases |ds|
  {
    if |ds| > 0 {
      var rest := Passed(m, resumed, whole, answer, ds[1..]);
      PassedText(m, resumed, whole, answer, ds[1..]);
      PassedHead(m, resumed, whole, answer, ds);
      if IsTerminal(ds[0]) {
        assert |ds| == 1;
        assert Passed(m, resumed, whole, answer, ds) == ds;
      } else if Kept(resumed, whole, ds[0]) {
        TextJoins([ds[0]], rest);
        TextOne(ds[0]);
      } else {
        Nothing(TextContent(ds[1..]), TextIn(ds[0]));
      }
      assert NoneTerminal(ds) <==> !IsTerminal(ds[0]) && NoneTerminal(ds[1..]) by { assert ds == [ds[0]] + ds[1..]; }
    }
  }

  lemma TextOne(d: Delta)
    ensures TextContent([d]) == TextIn(d)
  {
    var ds := [d];
    assert |ds[1..]| == 0;
    Nothing(TextIn(d), TextContent(ds[1..]));
  }

  /** The artifact updates a listener hears of: up to the event that ends the turn. */
  function HeardEvents(evs: seq<Incoming>): seq<Event>
    decreases |evs|
  {
    if evs == [] then []
    else TextEvents(evs[0]) + if EndsTurn(evs[0]) then [] else HeardEvents(evs[1..])
  }

  /** The event that ends the turn. */
  function EndEvent(evs: seq<Incoming>): Option<Incoming>
    decreases |evs|
  {
    if evs == [] then None else if EndsTurn(evs[0]) then Some(evs[0]) else EndEvent(evs[1..])
  }

  /** The text beside artifacts that the event ending the turn brings. */
  function EndText(evs: seq<Incoming>): Bytes { if EndEvent(evs).Some? then Loose(EndEvent(evs).value) else [] }

  /** Through any interleaving with status updates, tool calls and usage, the text
      a listener hears is what the artifact updates stream, and at the end what the
      last event has beside them. */
  lemma {:induction false} HeardIsStream(m: Mapper, answer: Option<Task>, evs: seq<Incoming>, failure: Option<string>)
    ensures TextContent(Heard(m, false, answer, evs, failure)) == Stream(m.artifacts, HeardEvents(evs)).1 + EndText(evs)
    decreases |evs|
  {
    if |evs| == 0 {
      TextOne(StreamEnd(failure));
      NoEvents(m.artifacts, HeardEvents(evs));
    } else {
      var (m1, ds) := MapEvent(m, evs[0]);
      OneTerminalAndLast(m, evs[0]);
      MappedText(m, evs[0]);
      PassedText(m1, false, evs[0].WholeTask?, answer, ds);
      HeardHead(m, false, answer, evs, failure);
      if EndsTurn(evs[0]) {
        Nothing(TextEvents(evs[0]), HeardEvents(evs[..0]));
      } else {
        HeardIsStream(m1, answer, evs[1..], failure);
        StreamNext(m.artifacts, m1.artifacts, evs);
      }
    }
  }

  lemma StreamNext(tr: Tracker, tr1: Tracker, evs: seq<Incoming>)
    requires evs != [] && !EndsTurn(evs[0]) && tr1 == Stream(tr, TextEvents(evs[0])).0
    ensures Stream(tr, HeardEvents(evs)).1 + EndText(evs)
         == Stream(tr, TextEvents(evs[0])).1 + Loose(evs[0]) + (Stream(tr1, HeardEvents(evs[1..])).1 + EndText(evs[1..]))
  {
    FoldJoins(DeltaOf, tr, TextEvents(evs[0]), HeardEvents(evs[1..]));
    Nothing(Stream(tr, TextEvents(evs[0])).1, Loose(evs[0]));
    Regroup(Stream(tr, TextEvents(evs[0])).1, Stream(tr1, HeardEvents(evs[1..])).1, EndText(evs));
  }

  /** The text heard is the first event's, and then the rest's unless it ended the turn. */
  lemma HeardHead(m: Mapper, resumed: bool, answer: Option<Task>, evs: seq<Incoming>, failure: Option<string>)
    requires evs != []
    ensures var (m1, ds) := MapEvent(m, evs[0]);
      var passed := Passed(m1, resumed, evs[0].WholeTask?, answer, ds);
      TextContent(Heard(m, resumed, answer, evs, failure)) ==
        if Stops(resumed, evs[0].WholeTask?, ds) then TextContent(passed)
        else if TextContent(passed) == [] then TextContent(Heard(m1, resumed, answer, evs[1..], failure))
        else TextContent(passed) + TextContent(Heard(m1, resumed, answer, evs[1..], failure))
  {
    var (m1, ds) := MapEvent(m, evs[0]);
    var passed := Passed(m1, resumed, evs[0].WholeTask?, answer, ds);
    if Stops(resumed, evs[0].WholeTask?, ds) {
      Nothing(passed, passed[..0]);
    } else {
      TextJoins(passed, Heard(m1, resumed, answer, evs[1..], failure));
      Nothing(TextContent(Heard(m1, resumed, answer, evs[1..], failure)), TextContent(passed));
    }
  }

  /** t is the finished task whose artifacts streamed as arts. */
  ghost predicate FinishedAs(arts: seq<Artifact>, t: Task) {
    && Orderly(arts) && arts != [] && |t.artifacts| == |arts|
    && forall i :: 0 <= i < |arts| ==> t.artifacts[i].id == arts[i].id && PartsText(t.artifacts[i].parts) == Text(arts[i].us)
  }

  /** The turn's events, whatever is interleaved, bring the artifacts' updates, and
      then the task completes: by a status update, or by arriving whole. */
  predicate Brings(evs: seq<Incoming>, arts: seq<Artifact>, t: Task) {
    EndText(evs) == []
    && (HeardEvents(evs) == Streamed(arts) || HeardEvents(evs) == Streamed(arts) + WholeEvents(t.artifacts))
  }

  lemma UpdatesJoin(a: seq<Event>, b: seq<Event>, id: ArtifactID)
    ensures UpdatesOf(a + b, id) == UpdatesOf(a, id) + UpdatesOf(b, id)
    decreases |b|
  {
    if |b| == 0 {
      assert a + b == a;
      Nothing(UpdatesOf(a, id), UpdatesOf(b, id));
    } else {
      var n := |b| - 1;
      UpdatesJoin(a, b[..n], id);
      assert (a + b)[..|a + b| - 1] == a + b[..n];
      Regroup(UpdatesOf(a, id), UpdatesOf(b[..n], id), if b[n].id == id then [Update(b[n].append, b[n].text)] else []);
    }
  }

  lemma {:induction false} OwnUpdates(us: seq<Update>, id: ArtifactID, other: ArtifactID)
    ensures UpdatesOf(Streaming.Events(id, us), other) == if other == id then us else []
    decreases |us|
  {
    if |us| > 0 {
      var n := |us| - 1;
      var evs := Streaming.Events(id, us);
      OwnUpdates(us[..n], id, other);
      assert evs[..|evs| - 1] == Streaming.Events(id, us[..n]);
      assert us[..n] + [us[n]] == us;
    }
  }

  /** The updates of each artifact among all that streamed are its own. */
  lemma {:induction false} StreamedUpdates(arts: seq<Artifact>, id: ArtifactID, i: nat)
    requires Orderly(arts)
    ensures i < |arts| && arts[i].id == id ==> UpdatesOf(Streamed(arts), id) == arts[i].us
    ensures (forall j :: 0 <= j < |arts| ==> arts[j].id != id) ==> UpdatesOf(Streamed(arts), id) == []
    decreases |arts|
  {
    if |arts| > 0 {
      var rest := arts[1..];
      RestOrderly(arts);
      StreamedUpdates(rest, id, if i > 0 then i - 1 else 0);
      OwnUpdates(arts[0].us, arts[0].id, id);
      UpdatesJoin(Streaming.Events(arts[0].id, arts[0].us), Streamed(rest), id);
      if i < |arts| && arts[i].id == id && i == 0 {
        forall j | 0 <= j < |rest| ensures rest[j].id != id { assert arts[0].id != arts[j + 1].id; }
        Nothing(arts[0].us, UpdatesOf(Streamed(rest), id));
      } else if i < |arts| && arts[i].id == id {
        assert arts[0].id != arts[i].id;
        Nothing(UpdatesOf(Streamed(rest), id), UpdatesOf(Streaming.Events(arts[0].id, arts[0].us), id));
      }
    }
  }

  lemma RestOrderly(arts: seq<Artifact>)
    requires arts != [] && Orderly(arts)
    ensures Orderly(arts[1..])
  {
    var rest := arts[1..];
    forall i | 0 <= i < |rest| ensures rest[i].id != "" && Extending(rest[i].us) { assert rest[i] == arts[i + 1]; }
    forall i, j | 0 <= i < j < |rest| ensures rest[i].id != rest[j].id { assert arts[i + 1].id != arts[j + 1].id; }
  }

  /** The finished task arriving whole behind its stream renders no more. */
  lemma WholeAddsNothing(arts: seq<Artifact>, t: Task)
    requires FinishedAs(arts, t)
    ensures Stream(NOTHING, Streamed(arts) + WholeEvents(t.artifacts)).1 == Stream(NOTHING, Streamed(arts)).1
  {
    var whole := WholeEvents(t.artifacts);
    forall i | 0 <= i < |whole|
      ensures whole[i].id != "" && !whole[i].append && whole[i].text == Text(UpdatesOf(Streamed(arts), whole[i].id))
    {
      assert whole[i].id == arts[i].id;
      StreamedUpdates(arts, arts[i].id, i);
    }
    WholeAfterStreamAddsNothing(Streamed(arts), whole);
  }

  /** A listener of a whole turn reads exactly the answer of its finished task,
      under the condition of StreamEqualsWhole and under no other. */
  lemma ListenerGetsAnswer(arts: seq<Artifact>, t: Task, answer: Option<Task>, evs: seq<Incoming>, failure: Option<string>)
    requires FinishedAs(arts, t) && Brings(evs, arts, t)
    ensures TextContent(Heard(NEW_MAPPER, false, answer, evs, failure)) == AnswerOf(t) <==>
      AllAtRunes(arts) && Settles(arts, Level)
  {
    HeardIsStream(NEW_MAPPER, answer, evs, failure);
    Nothing(Stream(NOTHING, HeardEvents(evs)).1, EndText(evs));
    WholeAddsNothing(arts, t);
    StreamEqualsAnswer(arts, t);
  }

  // --- a turn resubscribed to ------------------------------------------------------------------

  /** The event says that the task completed, and is not the task. */
  predicate Finishes(ev: Incoming) { ev.Reply? || (ev.StatusUpdate? && ev.status.state.Completed?) }

  function AnswerText(answer: Option<Task>): Bytes { if answer.Some? then AnswerOf(answer.value) else [] }

  predicate HasDone(ds: seq<Delta>) { exists d :: d in ds && d.done }

  lemma FinalText(m: Mapper, final: bool, answer: Option<Task>, d: Delta)
    requires TextIn(d) == []
    ensures TextContent(Kept1(m, final, answer, d)) == if final then AnswerText(answer) else []
  {
    TextOne(d);
    if final && answer.Some? {
      var text, usage := TextOf(AnswerOf(answer.value)), TaskUsage(m, answer.value.artifacts).1;
      UsageIsTextless(m, answer.value.artifacts);
      TextThenTextless(text, usage + [d]);
      TextAlone(AnswerOf(answer.value));
      Regroup(text, usage, [d]);
    } else {
      Nothing([d], Final(m, None));
    }
  }

  /** The text that streams is held back, and the answer read back stands for it. */
  lemma {:induction false} HeldBack(m: Mapper, answer: Option<Task>, ds: seq<Delta>)
    requires EndsOnTerminal(ds) && forall i :: 0 <= i < |ds| && IsTerminal(ds[i]) ==> TextIn(ds[i]) == []
    ensures TextContent(Passed(m, true, false, answer, ds)) == if HasDone(ds) then AnswerText(answer) else []
    ensures Stops(true, false, ds) <==> !NoneTerminal(ds)
    decreases |ds|
  {
    if |ds| > 0 {
      var d, rest := ds[0], Passed(m, true, false, answer, ds[1..]);
      var first := Kept1(m, d.done, answer, d);
      assert ds == [d] + ds[1..];
      HeldBack(m, answer, ds[1..]);
      PassedHead(m, true, false, answer, ds);
      if IsTerminal(d) {
        assert |ds| == 1;
        FinalText(m, d.done, answer, d);
        Nothing(first, rest[..0]);
      } else if Kept(true, false, d) {
        FinalText(m, d.done, answer, d);
        TextJoins(first, rest);
        Nothing(TextContent(rest), TextContent(first));
      }
    }
  }

  lemma Interim(m: Mapper, ev: Incoming)
    requires !ev.WholeTask?
    ensures HasDone(MapEvent(m, ev).1) <==> Finishes(ev)
    ensures var ds := MapEvent(m, ev).1; forall i :: 0 <= i < |ds| && IsTerminal(ds[i]) ==> TextIn(ds[i]) == []
  {
    OneTerminalAndLast(m, ev);
    var ds := MapEvent(m, ev).1;
    if ev.Reply? {
      assert ds[|ds| - 1] == ZERO.(done := true);
    } else if EndsTurn(ev) {
      assert |ds| == 1 && ds[0] in ds;
    }
  }

  /** The artifact updates heard before the event that ends the turn. */
  function EarlierEvents(evs: seq<Incoming>): seq<Event>
    decreases |evs|
  {
    if evs == [] || EndsTurn(evs[0]) then [] else TextEvents(evs[0]) + EarlierEvents(evs[1..])
  }

  /** What a resubscribed listener reads: the answer read back when the task's
      status completes it, whatever streamed before; and of a task that arrives
      whole, what the updates seen since resubscribing leave of it. */
  function ResumedText(tr: Tracker, answer: Option<Task>, evs: seq<Incoming>): Bytes {
    var end := EndEvent(evs);
    if end.None? then []
    else if Finishes(end.value) then AnswerText(answer)
    else if end.value.WholeTask? then Stream(Stream(tr, EarlierEvents(evs)).0, TextEvents(end.value)).1 + Loose(end.value)
    else []
  }

  lemma ResumedEnd(m: Mapper, answer: Option<Task>, ev: Incoming, evs: seq<Incoming>)
    requires evs != [] && evs[0] == ev && EndsTurn(ev)
    ensures TextContent(Passed(MapEvent(m, ev).0, true, ev.WholeTask?, answer, MapEvent(m, ev).1)) == ResumedText(m.artifacts, answer, evs)
    ensures Stops(true, ev.WholeTask?, MapEvent(m, ev).1)
  {
    var (m1, ds) := MapEvent(m, ev);
    OneTerminalAndLast(m, ev);
    if ev.WholeTask? {
      MappedText(m, ev);
      PassedText(m1, true, true, answer, ds);
      NoEvents(m.artifacts, EarlierEvents(evs));
    } else {
      Interim(m, ev);
      HeldBack(m1, answer, ds);
    }
  }

  lemma ResumedGoesOn(m: Mapper, answer: Option<Task>, ev: Incoming)
    requires !EndsTurn(ev)
    ensures TextContent(Passed(MapEvent(m, ev).0, true, ev.WholeTask?, answer, MapEvent(m, ev).1)) == []
    ensures !Stops(true, ev.WholeTask?, MapEvent(m, ev).1)
  {
    var (m1, ds) := MapEvent(m, ev);
    OneTerminalAndLast(m, ev);
    if ev.WholeTask? {
      assert |ds| == 0;
    } else {
      Interim(m, ev);
      HeldBack(m1, answer, ds);
    }
  }

  lemma ResumedTextNext(tr: Tracker, tr1: Tracker, answer: Option<Task>, evs: seq<Incoming>)
    requires evs != [] && !EndsTurn(evs[0]) && tr1 == Stream(tr, TextEvents(evs[0])).0
    ensures ResumedText(tr, answer, evs) == ResumedText(tr1, answer, evs[1..])
  {
    FoldJoins(DeltaOf, tr, TextEvents(evs[0]), EarlierEvents(evs[1..]));
  }

  lemma {:induction false} ResumedHears(m: Mapper, answer: Option<Task>, evs: seq<Incoming>, failure: Option<string>)
    ensures TextContent(Heard(m, true, answer, evs, failure)) == ResumedText(m.artifacts, answer, evs)
    decreases |evs|
  {
    if |evs| == 0 {
      TextOne(StreamEnd(failure));
    } else {
      var m1 := MapEvent(m, evs[0]).0;
      HeardHead(m, true, answer, evs, failure);
      if EndsTurn(evs[0]) {
        ResumedEnd(m, answer, evs[0], evs);
      } else {
        ResumedGoesOn(m, answer, evs[0]);
        MappedText(m, evs[0]);
        ResumedHears(m1, answer, evs[1..], failure);
        ResumedTextNext(m.artifacts, m1.artifacts, answer, evs);
      }
    }
  }

  /** The turn ends with the finished task arriving whole. */
  predicate EndsWhole(evs: seq<Incoming>, t: Task) {
    && t.status.state.Completed?
    && EndEvent(evs).Some? && EndEvent(evs).value.WholeTask? && EndEvent(evs).value.whole == t
  }

  /** What the tracker has seen of the turn when its last event arrives. */
  function Joined(evs: seq<Incoming>): Tracker { Stream(NOTHING, EarlierEvents(evs)).0 }

  lemma ResumedWholeText(t: Task, answer: Option<Task>, evs: seq<Incoming>, failure: Option<string>)
    requires EndsWhole(evs, t)
    ensures var heard, whole := TextContent(Heard(NEW_MAPPER, true, answer, evs, failure)), WholeEvents(t.artifacts);
      && (t.artifacts == [] ==> heard == AnswerOf(t))
      && (t.artifacts != [] ==> heard == Left(Joined(evs), whole) && AnswerOf(t) == Left(NOTHING, whole))
  {
    var text := Stream(Joined(evs), WholeEvents(t.artifacts)).1;
    ResumedHears(NEW_MAPPER, answer, evs, failure);
    RerenderIsStream(NEW_MAPPER, t.artifacts);
    if |t.artifacts| == 0 {
      NoEvents(Joined(evs), WholeEvents(t.artifacts));
      NothingFirst(text, Loose(EndEvent(evs).value));
      ResultText(NEW_MAPPER, t);
      AnswerAlone(t);
    } else {
      Nothing(text, Loose(EndEvent(evs).value));
      LeftIsStreamed(Joined(evs), WholeEvents(t.artifacts));
      LeftIsStreamed(NOTHING, WholeEvents(t.artifacts));
    }
  }

  lemma {:induction false} ArtifactsAreWhole(arts: seq<Content>)
    ensures Wholes(WholeEvents(arts))
    decreases |arts|
  {
    if |arts| > 0 {
      WholesSplit(arts);
      ArtifactsAreWhole(arts[1..]);
      var first := [Event(arts[0].id, false, PartsText(arts[0].parts))];
      assert (first + WholeEvents(arts[1..]))[1..] == WholeEvents(arts[1..]);
    }
  }

  lemma AnswerAlone(t: Task)
    requires |t.artifacts| == 0
    ensures AnswerOf(t) == LastAgentText(t.history)
  {
    var text, none := LastAgentText(t.history), TextOf([]);
    TextThenRest(text, none);
    Nothing(TextOf(text), none);
    Nothing(text, ContentOf(none));
  }

  /** Wherever a resubscription joined, what it reads of a task that arrives whole
      is the task's answer exactly when the two come out even: what streamed since
      was held back, and the tracker cuts it off the task again. */
  lemma ResumedWholeIsAnswer(t: Task, answer: Option<Task>, evs: seq<Incoming>, failure: Option<string>)
    requires EndsWhole(evs, t)
    ensures TextContent(Heard(NEW_MAPPER, true, answer, evs, failure)) == AnswerOf(t) <==>
      ComesOutEven(Joined(evs), NOTHING, 0, WholeEvents(t.artifacts))
  {
    ResumedWholeText(t, answer, evs, failure);
    ArtifactsAreWhole(t.artifacts);
    WholeTextIsLeft(Joined(evs), WholeEvents(t.artifacts));
  }

  /** What it misses of the answer is the letters cut off as if it had read them. */
  lemma ResumedMisses(t: Task, answer: Option<Task>, evs: seq<Incoming>, failure: Option<string>)
    requires EndsWhole(evs, t) && t.artifacts != []
    ensures var heard, whole := TextContent(Heard(NEW_MAPPER, true, answer, evs, failure)), WholeEvents(t.artifacts);
      Letters(heard) + LettersCut(Joined(evs), whole) == Letters(AnswerOf(t)) + LettersCut(NOTHING, whole) == LettersOf(whole)
  {
    ResumedWholeText(t, answer, evs, failure);
    ArtifactsAreWhole(t.artifacts);
    LettersAreKeptOrCut(Joined(evs), WholeEvents(t.artifacts));
    LettersAreKeptOrCut(NOTHING, WholeEvents(t.artifacts));
  }

  /** Where each artifact says something: when no artifact has lost anything, but
      for newlines the first one with text got back as its paragraph break. */
  lemma ResumedWordedTask(t: Task, answer: Option<Task>, evs: seq<Incoming>, failure: Option<string>)
    requires EndsWhole(evs, t) && Worded(WholeEvents(t.artifacts))
    ensures TextContent(Heard(NEW_MAPPER, true, answer, evs, failure)) == AnswerOf(t) <==>
      OnlyFrontCut(Joined(evs), WholeEvents(t.artifacts))
  {
    ResumedWholeText(t, answer, evs, failure);
    WordedTextIsLeft(Joined(evs), WholeEvents(t.artifacts));
  }

  /** A task of one artifact, whatever streamed before it. */
  lemma ResumedOneArtifact(t: Task, c: Content, answer: Option<Task>, evs: seq<Incoming>, failure: Option<string>)
    requires EndsWhole(evs, t) && t.artifacts == [c]
    ensures var text, ev := PartsText(c.parts), Event(c.id, false, PartsText(c.parts));
      var cut, front := CutOff(Joined(evs), ev), Front(Joined(evs), ev);
      var heard := TextContent(Heard(NEW_MAPPER, true, answer, evs, failure));
      && AnswerOf(t) == text && heard == (if cut == |text| then [] else front + text[cut..])
      && (heard == text <==> text == [] || (cut < |text| && front == text[..cut]))
  {
    var ev := Event(c.id, false, PartsText(c.parts));
    ResumedWholeText(t, answer, evs, failure);
    OneIsLeft(Joined(evs), ev, WholeEvents(t.artifacts));
    OneIsWhole(ev, WholeEvents(t.artifacts));
  }

  /** Joined behind some of its own updates: the task's text from where it parts
      with what they come to. */
  lemma ResumedOwnUpdates(t: Task, c: Content, answer: Option<Task>, evs: seq<Incoming>, failure: Option<string>)
    requires EndsWhole(evs, t) && t.artifacts == [c] && c.id != ""
    requires forall i :: 0 <= i < |EarlierEvents(evs)| ==> EarlierEvents(evs)[i].id == c.id
    ensures var text, seen := PartsText(c.parts), Text(UpdatesOf(EarlierEvents(evs), c.id));
      var heard := TextContent(Heard(NEW_MAPPER, true, answer, evs, failure));
      heard == text[Cut(seen, text)..] && AnswerOf(t) == text && (heard == text <==> Cut(seen, text) == 0)
  {
    var text, seen := PartsText(c.parts), Text(UpdatesOf(EarlierEvents(evs), c.id));
    ResumedOneArtifact(t, c, answer, evs, failure);
    DeliveredIsText(EarlierEvents(evs), c.id);
    OwnHasNoFront(EarlierEvents(evs), c.id);
    NothingFirst(Front(Joined(evs), Event(c.id, false, text)), text[Cut(seen, text)..]);
  }

  /** Behind all its updates a task that arrives whole says nothing, and ahead of
      them it says everything. */
  lemma ResumedBehindStream(arts: seq<Artifact>, t: Task, answer: Option<Task>, evs: seq<Incoming>, failure: Option<string>)
    requires EndsWhole(evs, t)
    ensures FinishedAs(arts, t) && EarlierEvents(evs) == Streamed(arts) ==>
      TextContent(Heard(NEW_MAPPER, true, answer, evs, failure)) == []
    ensures EarlierEvents(evs) == [] ==> TextContent(Heard(NEW_MAPPER, true, answer, evs, failure)) == AnswerOf(t)
  {
    var before, whole := EarlierEvents(evs), WholeEvents(t.artifacts);
    ResumedWholeText(t, answer, evs, failure);
    LeftIsStreamed(Joined(evs), whole);
    if |before| == 0 { NoEvents(NOTHING, before); }
    if FinishedAs(arts, t) && before == Streamed(arts) {
      WholeAddsNothing(arts, t);
      FoldJoins(DeltaOf, NOTHING, before, whole);
      assert |Stream(Joined(evs), whole).1| == 0;
    }
  }

  function OnePart(id: ArtifactID, text: Bytes): Content { Content(id, [Part(text, None)], None) }

  lemma OnePartText(id: ArtifactID, text: Bytes)
    ensures PartsText(OnePart(id, text).parts) == text
  {
    var parts := OnePart(id, text).parts;
    assert |parts[1..]| == 0;
    Nothing(text, PartsText(parts[1..]));
  }

  lemma OneUpdate(id: ArtifactID, seen: Bytes, evs: seq<Incoming>)
    requires |evs| == 2 && evs[0] == ArtifactUpdate("t", Some(OnePart(id, seen)), true) && EndsTurn(evs[1])
    ensures EarlierEvents(evs) == [Event(id, true, seen)] && UpdatesOf(EarlierEvents(evs), id) == [Update(true, seen)]
    ensures Text(UpdatesOf(EarlierEvents(evs), id)) == seen
  {
    var later, own := EarlierEvents(evs[1..]), [Event(id, true, seen)];
    var us := [Update(true, seen)];
    OnePartText(id, seen);
    Nothing(own, later);
    assert |own[..|own| - 1]| == 0 && |us[..|us| - 1]| == 0;
    NothingFirst(UpdatesOf(own[..|own| - 1], id), us);
    NothingFirst(Text(us[..|us| - 1]), seen);
  }

  /** One append of seen, and then the task with all its text: the listener reads
      what stands behind the prefix the two share. */
  lemma ResumedTail(id: ArtifactID, seen: Bytes, text: Bytes, t: Task, answer: Option<Task>, evs: seq<Incoming>, failure: Option<string>)
    requires id != "" && t == Task("t", Status(Completed, None), [OnePart(id, text)], [])
    requires |evs| == 2 && evs[0] == ArtifactUpdate("t", Some(OnePart(id, seen)), true) && evs[1] == WholeTask("t", t)
    ensures AnswerOf(t) == text && TextContent(Heard(NEW_MAPPER, true, answer, evs, failure)) == text[Cut(seen, text)..]
  {
    OneUpdate(id, seen, evs);
    OnePartText(id, text);
    assert EndEvent(evs) == EndEvent(evs[1..]) == Some(evs[1]);
    ResumedOwnUpdates(t, OnePart(id, text), answer, evs, failure);
  }

  /** The input: the listener joined behind "a", "ab" streams, and then "aab"
      arrives whole. It reads "ab", neither the answer nor nothing. */
  lemma ResumedTailIsMutilated(t: Task, answer: Option<Task>, evs: seq<Incoming>, failure: Option<string>)
    requires t == Task("t", Status(Completed, None), [OnePart("a1", [97, 97, 98])], [])
    requires evs == [ArtifactUpdate("t", Some(OnePart("a1", [97, 98])), true), WholeTask("t", t)]
    ensures AnswerOf(t) == [97, 97, 98] && TextContent(Heard(NEW_MAPPER, true, answer, evs, failure)) == [97, 98]
  {
    var seen, text := CutOfTail();
    ResumedTail("a1", seen, text, t, answer, evs, failure);
  }

  lemma CutOfTail() returns (seen: Bytes, text: Bytes)
    ensures seen == [97, 98] && text == [97, 97, 98] && text[Cut(seen, text)..] == seen
  {
    seen, text := [97, 98], [97, 97, 98];
    assert seen[..1] == text[..1];
    CommonPrefixIs(seen, text, 1);
  }

  // --- over restarts -----------------------------------------------------------------------------

  /** The first process posted from the text it heard streamed, and each later one
      from the answer read back, as far as they lived. */
  ghost predicate Restarted(streamed: Bytes, answer: Bytes, ps: seq<C.Process>) {
    && ps != [] && C.Lived(streamed, 0, ps[0])
    && forall i :: 1 <= i < |ps| ==> C.Lived(answer, C.Position(ps[..i]), ps[i])
  }

  /** The thread shows the answer up to the place the record says. */
  ghost predicate Continues(answer: Bytes, ps: seq<C.Process>) {
    C.Position(ps) <= |answer| && C.Restored(ps) == answer[..C.Position(ps)]
  }

  lemma FirstPlace(p: C.Process)
    requires p.landed <= |C.Handed(0, p)|
    ensures C.Recorded(0, p) == |C.Posted(0, p)| && C.Gap(0, p) == []
  {
    C.ProcessStands(0, p.chunks);
    C.FirstTrimsNothing(p);
  }

  /** Alone, the first process posts what it landed of the stream. */
  lemma FirstProcess(streamed: Bytes, ps: seq<C.Process>)
    requires |ps| == 1 && C.Lived(streamed, 0, ps[0])
    ensures C.Restored(ps) == C.Posted(0, ps[0]) && C.Position(ps) == |C.Posted(0, ps[0])|
  {
    var before := ps[..|ps| - 1];
    assert |before| == 0 && C.Position(before) == 0;
    FirstPlace(ps[0]);
    Nothing(C.Posted(0, ps[0]), C.Gap(0, ps[0]));
    Nothing(C.Gap(0, ps[0]), C.Restored(before));
  }

  lemma {:induction false} FirstStays(ps: seq<C.Process>)
    requires ps != []
    ensures C.Restored(ps[..1]) <= C.Restored(ps)
    decreases |ps|
  {
    if |ps| == 1 {
      assert ps[..1] == ps;
    } else {
      var ps0, p := ps[..|ps| - 1], ps[|ps| - 1];
      FirstStays(ps0);
      assert ps0[..1] == ps[..1];
      Within(C.Restored(ps[..1]), C.Restored(ps0), C.Restored(ps));
    }
  }

  lemma FewerRestarts(streamed: Bytes, answer: Bytes, ps: seq<C.Process>)
    requires Restarted(streamed, answer, ps) && |ps| > 1
    ensures Restarted(streamed, answer, ps[..|ps| - 1]) && C.Lived(answer, C.Position(ps[..|ps| - 1]), ps[|ps| - 1])
  {
    var ps0 := ps[..|ps| - 1];
    forall i | 1 <= i < |ps0| ensures C.Lived(answer, C.Position(ps0[..i]), ps0[i]) {
      assert ps0[..i] == ps[..i] && C.Lived(answer, C.Position(ps[..i]), ps[i]);
    }
  }

  lemma {:induction false} LaterProcesses(streamed: Bytes, answer: Bytes, ps: seq<C.Process>)
    requires Restarted(streamed, answer, ps) && C.Posted(0, ps[0]) <= answer
    ensures Continues(answer, ps)
    decreases |ps|
  {
    if |ps| == 1 {
      FirstProcess(streamed, ps);
    } else {
      var ps0, p := ps[..|ps| - 1], ps[|ps| - 1];
      var carried := C.Position(ps0);
      FewerRestarts(streamed, answer, ps);
      LaterProcesses(streamed, answer, ps0);
      C.ProcessContinues(answer, carried, p);
      C.AnswerGrows(answer, carried, C.Recorded(carried, p), C.Gap(carried, p), C.Posted(carried, p));
    }
  }

  /** Over any number of restarts the thread shows the answer of the finished task,
      nothing repeated and nothing missing but the whitespace dropped at the cuts,
      exactly when what the first process posted of its stream begins that answer. */
  lemma RestartedReply(streamed: Bytes, answer: Bytes, ps: seq<C.Process>)
    requires Restarted(streamed, answer, ps)
    ensures Continues(answer, ps) <==> C.Posted(0, ps[0]) <= answer
  {
    if Continues(answer, ps) {
      FirstStays(ps);
      FirstProcess(streamed, ps[..1]);
      Within(C.Posted(0, ps[0]), C.Restored(ps), answer);
    } else if C.Posted(0, ps[0]) <= answer {
      LaterProcesses(streamed, answer, ps);
    }
  }

  /** So it does whenever the stream is the answer. */
  lemma RestartsKeepAnswer(arts: seq<Artifact>, t: Task, answer: Option<Task>, evs: seq<Incoming>, failure: Option<string>,
                           ps: seq<C.Process>)
    requires FinishedAs(arts, t) && Brings(evs, arts, t) && AllAtRunes(arts) && Settles(arts, Level)
    requires Restarted(TextContent(Heard(NEW_MAPPER, false, answer, evs, failure)), AnswerOf(t), ps)
    ensures Continues(AnswerOf(t), ps)
  {
    var streamed := TextContent(Heard(NEW_MAPPER, false, answer, evs, failure));
    ListenerGetsAnswer(arts, t, answer, evs, failure);
    FirstProcess(streamed, ps[..1]);
    PostedIsStreamed(streamed, ps[0]);
    RestartedReply(streamed, AnswerOf(t), ps);
  }

  lemma PostedIsStreamed(streamed: Bytes, p: C.Process)
    requires C.Lived(streamed, 0, p)
    ensures C.Posted(0, p) <= streamed
  {
    FirstPlace(p);
    C.ProcessContinues(streamed, 0, p);
    Nothing(C.Posted(0, p), C.Gap(0, p));
    assert streamed[0..C.Recorded(0, p)] == streamed[..C.Recorded(0, p)];
  }
}
