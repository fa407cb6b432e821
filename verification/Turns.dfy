/** One turn on a thread: its task's events pumped to the channel, the record
    of the task in flight, and the second attempt of a turn that showed nothing. */
module Turns {
  import opened LinkModel
  import opened Streaming
  import opened EventMapper

  // --- what a listener receives -------------------------------------------------------

  /** The deltas of a completed task read back for a resubscribed turn. */
  function Final(m: Mapper, answer: Option<Task>): seq<Delta> {
    if answer.None? then [] else TextOf(AnswerOf(answer.value)) + TaskUsage(m, answer.value.artifacts).1
  }

  /** A resubscription posts its answer whole: the text that still streams is held back. */
  predicate Kept(resumed: bool, whole: bool, d: Delta) {
    d != ZERO && !(resumed && !whole && d.kind.TextDelta? && d.content != [])
  }

  /** What one event's deltas ds put on the channel. */
  function Passed(m: Mapper, resumed: bool, whole: bool, answer: Option<Task>, ds: seq<Delta>): seq<Delta>
    decreases |ds|
  {
    if ds == [] then []
    else if !Kept(resumed, whole, ds[0]) then Passed(m, resumed, whole, answer, ds[1..])
    else
      (if resumed && !whole && ds[0].done then Final(m, answer) else []) + [ds[0]]
      + (if IsTerminal(ds[0]) then [] else Passed(m, resumed, whole, answer, ds[1..]))
  }

  predicate Stops(resumed: bool, whole: bool, ds: seq<Delta>) {
    exists d :: d in ds && Kept(resumed, whole, d) && IsTerminal(d)
  }

  function StreamEnd(failure: Option<string>): Delta {
    ZERO.(err := Some(if failure.Some? then Broken(failure.value) else NoTerminal))
  }

  /** All a consumer that keeps listening receives of the turn. */
  function Heard(m: Mapper, resumed: bool, answer: Option<Task>, evs: seq<Incoming>, failure: Option<string>): seq<Delta>
    decreases |evs|
  {
    if evs == [] then [StreamEnd(failure)]
    else
      var (m1, ds) := MapEvent(m, evs[0]);
      Passed(m1, resumed, evs[0].WholeTask?, answer, ds)
      + (if Stops(resumed, evs[0].WholeTask?, ds) then [] else Heard(m1, resumed, answer, evs[1..], failure))
  }

  /** The deltas that kept delta d stands for. */
  function Kept1(m: Mapper, final: bool, answer: Option<Task>, d: Delta): seq<Delta> {
    (if final then Final(m, answer) else []) + [d]
  }

  lemma PassedFirst(m: Mapper, resumed: bool, whole: bool, answer: Option<Task>, ds: seq<Delta>, j: nat)
    requires j < |ds|
    ensures Passed(m, resumed, whole, answer, ds[j..]) ==
      if !Kept(resumed, whole, ds[j]) then Passed(m, resumed, whole, answer, ds[j + 1..])
      else Kept1(m, resumed && !whole && ds[j].done, answer, ds[j])
           + if IsTerminal(ds[j]) then [] else Passed(m, resumed, whole, answer, ds[j + 1..])
  {
    assert ds[j..][1..] == ds[j + 1..];
  }

  lemma Within<T>(a: seq<T>, b: seq<T>, c: seq<T>)
    requires a <= b <= c
    ensures a <= c
  {
  }

  /** A turn as its consumer should get it: one terminal delta, and it is last. */
  predicate Complete(ds: seq<Delta>) { ds != [] && EndsOnTerminal(ds) && IsTerminal(ds[|ds| - 1]) }

  lemma FinalIsNotTerminal(m: Mapper, answer: Option<Task>)
    ensures NoneTerminal(Final(m, answer))
  {
    if answer.Some? { UsageIsNotTerminal(m, answer.value.artifacts); }
  }

  lemma PassedHead(m: Mapper, resumed: bool, whole: bool, answer: Option<Task>, ds: seq<Delta>)
    requires ds != []
    ensures Passed(m, resumed, whole, answer, ds) ==
      if !Kept(resumed, whole, ds[0]) then Passed(m, resumed, whole, answer, ds[1..])
      else Kept1(m, resumed && !whole && ds[0].done, answer, ds[0])
           + if IsTerminal(ds[0]) then [] else Passed(m, resumed, whole, answer, ds[1..])
    ensures Stops(resumed, whole, ds) <==>
      (Kept(resumed, whole, ds[0]) && IsTerminal(ds[0])) || Stops(resumed, whole, ds[1..])
  {
    assert ds == [ds[0]] + ds[1..];
  }

  lemma KeptEnds(m: Mapper, final: bool, answer: Option<Task>, d: Delta)
    ensures if IsTerminal(d) then Complete(Kept1(m, final, answer, d)) else NoneTerminal(Kept1(m, final, answer, d))
  {
    FinalIsNotTerminal(m, answer);
  }

  lemma {:induction false} PassedEnds(m: Mapper, resumed: bool, whole: bool, answer: Option<Task>, ds: seq<Delta>)
    ensures var passed := Passed(m, resumed, whole, answer, ds);
      if Stops(resumed, whole, ds) then Complete(passed) else NoneTerminal(passed)
    decreases |ds|
  {
    if |ds| > 0 {
      PassedEnds(m, resumed, whole, answer, ds[1..]);
      PassedHead(m, resumed, whole, answer, ds);
      var final := resumed && !whole && ds[0].done;
      KeptEnds(m, final, answer, ds[0]);
      PassedJoins(Kept1(m, final, answer, ds[0]), Passed(m, resumed, whole, answer, ds[1..]), IsTerminal(ds[0]),
                  Stops(resumed, whole, ds[1..]));
    }
  }

  lemma PassedJoins(first: seq<Delta>, rest: seq<Delta>, ends: bool, stops: bool)
    requires if ends then Complete(first) else NoneTerminal(first)
    requires if stops then Complete(rest) else NoneTerminal(rest)
    ensures var passed := first + if ends then [] else rest;
      if ends || stops then Complete(passed) else NoneTerminal(passed)
  {
    Nothing(first, if ends then [] else rest);
  }

  lemma HeardJoins(passed: seq<Delta>, rest: seq<Delta>, stops: bool)
    requires if stops then Complete(passed) else NoneTerminal(passed)
    requires Complete(rest)
    ensures Complete(passed + if stops then [] else rest)
  {
    Nothing(passed, if stops then [] else rest);
  }

  /** A listening consumer gets exactly one terminal delta, and nothing after it,
      whatever the task's events and however the stream ends. */
  lemma {:induction false} HeardIsComplete(m: Mapper, resumed: bool, answer: Option<Task>, evs: seq<Incoming>, failure: Option<string>)
    ensures Complete(Heard(m, resumed, answer, evs, failure))
    decreases |evs|
  {
    if |evs| == 0 {
      assert Heard(m, resumed, answer, evs, failure) == [StreamEnd(failure)];
    } else {
      var (m1, ds) := MapEvent(m, evs[0]);
      HeardIsComplete(m1, resumed, answer, evs[1..], failure);
      PassedEnds(m1, resumed, evs[0].WholeTask?, answer, ds);
      HeardJoins(Passed(m1, resumed, evs[0].WholeTask?, answer, ds), Heard(m1, resumed, answer, evs[1..], failure),
                 Stops(resumed, evs[0].WholeTask?, ds));
    }
  }

  /** The last task id the events name, known when they name none. */
  function TaskOf(known: TaskID, evs: seq<Incoming>): TaskID {
    if evs == [] then known
    else if evs[|evs| - 1].task != "" then evs[|evs| - 1].task else TaskOf(known, evs[..|evs| - 1])
  }

  /** The task in flight is the one that event k names last of all, or the one known
      from the start. */
  lemma {:induction false} TaskNamedLast(known: TaskID, evs: seq<Incoming>, k: int)
    requires -1 <= k < |evs| && (k >= 0 ==> evs[k].task != "")
    requires forall j :: k < j < |evs| ==> evs[j].task == ""
    ensures TaskOf(known, evs) == if k >= 0 then evs[k].task else known
    decreases |evs|
  {
    if k < |evs| - 1 { TaskNamedLast(known, evs[..|evs| - 1], k); }
  }

  /** The task recorded is the one that event k names first of all. */
  lemma {:induction false} TaskNamedFirst(evs: seq<Incoming>, k: nat)
    requires k <= |evs| && (k < |evs| ==> evs[k].task != "")
    requires forall j :: 0 <= j < k ==> evs[j].task == ""
    ensures FirstTask(evs) == if k < |evs| then evs[k].task else ""
    decreases |evs|
  {
    if k > 0 { TaskNamedFirst(evs[1..], k - 1); }
  }

  // --- the pump ---------------------------------------------------------------------------

  class Turn {
    var done: bool                // the turn's context
    var shutdown: bool            // and whether the gateway's shutdown ended it
    var out: seq<Delta>           // what the channel received
    var record: TaskID            // the row's task in flight, "" for none
    var cancels: seq<TaskID>      // tasks cancelled at the controller
    var attempts: seq<Attempt>    // messages sent to the agent, with what came of each
    const retryable: Failure -> bool

    constructor (record: TaskID, retryable: Failure -> bool)
      ensures !done && out == [] && this.record == record && cancels == [] && attempts == [] && this.retryable == retryable
    {
      done, shutdown, out, this.record, cancels, attempts := false, false, [], record, [], [];
      this.retryable := retryable;
    }

    /** The context may end at any time, and stays ended. */
    method Poll()
      modifies this`done, this`shutdown
      ensures old(done) ==> done && shutdown == old(shutdown)
    {
      if !done {
        done, shutdown := *, *;
      }
    }

    /** Delivers d unless the context is done. */
    method Emit(d: Delta) returns (ok: bool)
      modifies this`done, this`shutdown, this`out
      ensures old(done) ==> done && shutdown == old(shutdown)
      ensures !done ==> ok
      ensures out == if ok then old(out) + [d] else old(out)
    {
      Poll();
      ok := *;
      ok := ok || !done;
      if ok {
        out := out + [d];
      }
    }

    method EmitAll(ds: seq<Delta>) returns (ok: bool)
      modifies this`done, this`shutdown, this`out
      ensures old(done) ==> done && shutdown == old(shutdown)
      ensures !done ==> ok
      ensures ok ==> out == old(out) + ds
      ensures old(out) <= out <= old(out) + ds
    {
      var i := 0;
      while i < |ds|
        invariant i <= |ds| && out == old(out) + ds[..i]
        invariant old(done) ==> done && shutdown == old(shutdown)
      {
        assert ds[..i + 1] == ds[..i] + [ds[i]];
        ok := Emit(ds[i]);
        if !ok {
          return;
        }
        i := i + 1;
      }
      ok := true;
    }

    /** emitFinal: the completed task read back, for a turn that resubscribed. */
    method EmitFinal(mapper: Events, answer: Option<Task>) returns (ok: bool)
      modifies this`done, this`shutdown, this`out, mapper`counted
      ensures old(done) ==> done && shutdown == old(shutdown)
      ensures !done ==> ok
      ensures ok ==> out == old(out) + Final(old(mapper.View()), answer)
      ensures old(out) <= out <= old(out) + Final(old(mapper.View()), answer)
    {
      if answer.None? {
        return true;
      }
      var text := TaskResultText(answer.value);
      var usage := mapper.UsageDeltas(answer.value.artifacts);
      ok := EmitBoth(TextOf(text), usage);
    }

    method EmitBoth(a: seq<Delta>, b: seq<Delta>) returns (ok: bool)
      modifies this`done, this`shutdown, this`out
      ensures old(done) ==> done && shutdown == old(shutdown)
      ensures !done ==> ok
      ensures ok ==> out == old(out) + (a + b)
      ensures old(out) <= out <= old(out) + (a + b)
    {
      Regroup(out, a, b);
      ghost var was := out;
      ok := EmitAll(a);
      if ok {
        ok := EmitAll(b);
        Within(was, was + a, out);
      } else {
        Within(out, was + a, was + (a + b));
      }
    }

    /** Emits d, after the task read back when d completes a resubscribed turn. */
    method EmitKept(mapper: Events, final: bool, answer: Option<Task>, d: Delta) returns (ok: bool)
      modifies this`done, this`shutdown, this`out, mapper`counted
      ensures old(done) ==> done && shutdown == old(shutdown)
      ensures !done ==> ok
      ensures !final ==> mapper.View() == old(mapper.View())
      ensures var here := Kept1(old(mapper.View()), final, answer, d);
        old(out) <= out <= old(out) + here && (ok ==> out == old(out) + here)
    {
      ghost var was, here := out, Kept1(mapper.View(), final, answer, d);
      if final {
        ok := EmitFinal(mapper, answer);
        if !ok {
          assert was + here == (was + here[..|here| - 1]) + [d];
          return;
        }
      }
      assert out + [d] == was + here;
      ok := Emit(d);
    }

    /** The inner loop of streamTask: one event's deltas. */
    method Pass(mapper: Events, resumed: bool, whole: bool, answer: Option<Task>, ds: seq<Delta>) returns (terminal: bool)
      modifies this`done, this`shutdown, this`out, mapper`counted
      ensures old(done) ==> done && shutdown == old(shutdown)
      ensures old(out) <= out <= old(out) + Passed(old(mapper.View()), resumed, whole, answer, ds)
      ensures !done ==> out == old(out) + Passed(old(mapper.View()), resumed, whole, answer, ds)
      ensures !done ==> terminal == Stops(resumed, whole, ds)
      ensures !terminal && !done ==> mapper.View() == old(mapper.View())
      ensures terminal ==> Stops(resumed, whole, ds)
    {
      ghost var m, was, all := mapper.View(), out, Passed(mapper.View(), resumed, whole, answer, ds);
      terminal := false;
      var j := 0;
      while j < |ds|
        invariant j <= |ds| && mapper.View() == m && !terminal
        invariant old(done) ==> done && shutdown == old(shutdown)
        invariant was <= out && out + Passed(m, resumed, whole, answer, ds[j..]) == was + all
        invariant forall k :: 0 <= k < j && Kept(resumed, whole, ds[k]) ==> !IsTerminal(ds[k])
      {
        var d := ds[j];
        PassedFirst(m, resumed, whole, answer, ds, j);
        j := j + 1;
        if !Kept(resumed, whole, d) {
          continue;
        }
        var final := resumed && !whole && d.done;
        terminal := IsTerminal(d);
        ghost var out0, here := out, Kept1(m, final, answer, d);
        ghost var rest := if terminal then [] else Passed(m, resumed, whole, answer, ds[j..]);
        Regroup(out0, here, rest);
        var ok := EmitKept(mapper, final, answer, d);
        Within(was, out0, out);
        Within(out, out0 + here, was + all);
        if !ok || terminal {
          Nothing(out0 + here, rest);
          return;
        }
      }
      Nothing(out, Passed(m, resumed, whole, answer, ds[j..]));
    }

    /** Maps event seen and passes its deltas on. */
    method PassEvent(mapper: Events, resumed: bool, events: seq<Incoming>, ghost failure: Option<string>,
                     answer: Option<Task>, seen: nat, ghost was: seq<Delta>) returns (terminal: bool)
      requires seen < |events| && mapper.View() == MapperAt(events, seen)
      requires Followed(was, out, resumed, answer, events, failure, seen, false, false)
      modifies this`done, this`shutdown, this`out, mapper, mapper.artifacts
      ensures old(done) ==> done && shutdown == old(shutdown)
      ensures Followed(was, out, resumed, answer, events, failure, seen + 1, terminal, done)
      ensures !done && !terminal ==> mapper.View() == MapperAt(events, seen + 1)
    {
      var ev := events[seen];
      ghost var out0 := out;
      var ds := mapper.Deltas(ev);
      assert mapper.View() == MapperAt(events, seen + 1) && ds == MappedAt(events, seen);
      terminal := Pass(mapper, resumed, ev.WholeTask?, answer, ds);
      FollowedNext(was, out0, out, resumed, answer, events, failure, seen, terminal, done);
    }

    /** And looks at the context once it did. */
    method PassThenPoll(mapper: Events, resumed: bool, events: seq<Incoming>, ghost failure: Option<string>,
                        answer: Option<Task>, seen: nat, ghost was: seq<Delta>) returns (terminal: bool)
      requires seen < |events| && mapper.View() == MapperAt(events, seen)
      requires Followed(was, out, resumed, answer, events, failure, seen, false, false)
      modifies this`done, this`shutdown, this`out, mapper, mapper.artifacts
      ensures old(done) ==> done && shutdown == old(shutdown)
      ensures Followed(was, out, resumed, answer, events, failure, seen + 1, terminal, done)
      ensures !done && !terminal ==> mapper.View() == MapperAt(events, seen + 1)
    {
      terminal := PassEvent(mapper, resumed, events, failure, answer, seen, was);
      ghost var done0 := done;
      Poll();
      FollowedStill(was, out, resumed, answer, events, failure, seen + 1, terminal, done0, done);
    }

    /** The task's id, as the last event that names it has it; the first one is recorded. */
    method RememberTask(named: TaskID, known: TaskID, was: bool) returns (taskID: TaskID, recorded: bool)
      requires was == (known != "")
      modifies this`record
      ensures taskID == (if named != "" then named else known) && recorded == (taskID != "")
      ensures record == if known == "" && taskID != "" then taskID else old(record)
    {
      taskID, recorded := known, was;
      if named != "" {
        taskID := named;
      }
      if !recorded && taskID != "" {
        recorded := true;
        record := taskID;
      }
    }

    /** One event of the pump. */
    method PumpOne(mapper: Events, known: TaskID, events: seq<Incoming>, ghost failure: Option<string>, answer: Option<Task>,
                   seen: nat, taskID0: TaskID, recorded0: bool, ghost record0: TaskID, ghost was: seq<Delta>)
      returns (taskID: TaskID, recorded: bool, terminal: bool)
      requires seen < |events| && mapper.View() == MapperAt(events, seen)
      requires recorded0 == (taskID0 != "") && InFlight(known, record0, events, seen, taskID0, record)
      requires Followed(was, out, known != "", answer, events, failure, seen, false, false)
      modifies this`done, this`shutdown, this`out, this`record, mapper, mapper.artifacts
      ensures old(done) ==> done && shutdown == old(shutdown)
      ensures recorded == (taskID != "") && InFlight(known, record0, events, seen + 1, taskID, record)
      ensures Followed(was, out, known != "", answer, events, failure, seen + 1, terminal, done)
      ensures !done && !terminal ==> mapper.View() == MapperAt(events, seen + 1)
    {
      InFlightNext(known, record0, events, seen, taskID0, record);
      taskID, recorded := RememberTask(events[seen].task, taskID0, recorded0);
      terminal := PassThenPoll(mapper, known != "", events, failure, answer, seen, was);
    }

    /** The pump of streamTask: events one by one until the task is terminal, the
        context is done, or none is left. */
    method Pump(known: TaskID, events: seq<Incoming>, ghost failure: Option<string>, answer: Option<Task>)
      returns (taskID: TaskID, terminal: bool, seen: nat)
      modifies this`done, this`shutdown, this`out, this`record
      ensures old(done) ==> done && shutdown == old(shutdown)
      ensures Followed(old(out), out, known != "", answer, events, failure, seen, terminal, done)
      ensures seen <= |events| && (seen == |events| || terminal || done)
      ensures InFlight(known, old(record), events, seen, taskID, record)
    {
      taskID, terminal, seen := known, false, 0;
      var recorded, resumed := known != "", known != "";
      var mapper := new Events();
      InFlightFirst(known, record, events);
      FollowedFirst(out, resumed, answer, events, failure, done);
      while seen < |events| && !terminal && !done
        invariant recorded == (taskID != "") && InFlight(known, old(record), events, seen, taskID, record)
        invariant Followed(old(out), out, resumed, answer, events, failure, seen, terminal, done)
        invariant !done && !terminal ==> mapper.View() == MapperAt(events, seen)
        invariant old(done) ==> done && shutdown == old(shutdown)
      {
        taskID, recorded, terminal := PumpOne(mapper, known, events, failure, answer, seen, taskID, recorded, old(record), old(out));
        seen := seen + 1;
      }
    }

    /** streamTask: drives a task's events to the channel. known is the id a
        resubscription already has; answer is what reading the completed task
        back gives, failure how the stream broke. */
    method StreamTask(known: TaskID, events: seq<Incoming>, failure: Option<string>, answer: Option<Task>)
      returns (started: bool, taskID: TaskID, terminal: bool, ghost seen: nat, ghost cut: bool)
      modifies this`done, this`shutdown, this`out, this`record, this`cancels
      ensures old(done) ==> done && shutdown == old(shutdown)
      ensures started <==> events != []
      ensures !started ==> out == old(out) && record == old(record)
      ensures started ==> old(out) <= out <= old(out) + Heard(NEW_MAPPER, known != "", answer, events, failure)
      ensures started && !done ==> out == old(out) + Heard(NEW_MAPPER, known != "", answer, events, failure)
      ensures seen <= |events| && taskID == TaskOf(known, events[..seen])
      ensures terminal ==> seen > 0 && Stops(known != "", events[seen - 1].WholeTask?, MappedAt(events, seen - 1))
      ensures cut ==> started && done && taskID != "" && !terminal
      ensures started && taskID != "" && !terminal && !cut ==> seen == |events|
      ensures cancels == if cut && !shutdown then old(cancels) + [taskID] else old(cancels)
      ensures cut && shutdown ==> record == if known != "" then old(record) else FirstTask(events)
      ensures started && taskID != "" && !(cut && shutdown) ==> record == ""
    {
      started, taskID, terminal, seen, cut := events != [], known, false, 0, false;
      if events == [] {
        return;
      }
      taskID, terminal, seen := Pump(known, events, failure, answer);
      ghost var passed, was := out, done;
      cut := WindUp(taskID, terminal, failure);
      Delivered(old(out), passed, out, known != "", answer, events, failure, seen, terminal, was, done);
    }

    /** The end of streamTask: the record and the task in flight, once no more
        events come, and the terminal delta of a stream that had none. */
    method WindUp(taskID: TaskID, terminal: bool, failure: Option<string>) returns (ghost cut: bool)
      modifies this`done, this`shutdown, this`out, this`record, this`cancels
      ensures old(done) ==> done && shutdown == old(shutdown)
      ensures cut ==> done && taskID != "" && !terminal
      ensures cancels == if cut && !shutdown then old(cancels) + [taskID] else old(cancels)
      ensures record == if taskID != "" && !(cut && shutdown) then "" else old(record)
      ensures terminal || old(done) ==> out == old(out)
      ensures out == old(out) || out == old(out) + [StreamEnd(failure)]
      ensures !done && !terminal ==> out == old(out) + [StreamEnd(failure)]
      ensures taskID != "" && !terminal && !cut ==> !old(done)
    {
      cut := false;
      var delivered := terminal;
      if !terminal && !done && failure.Some? {
        delivered := Emit(StreamEnd(failure));
      }
      Poll();
      if done {
        if taskID != "" && !terminal {
          cut := true;
          if shutdown {
            return;
          }
          record := "";
          cancels := cancels + [taskID];
          return;
        }
        if taskID != "" {
          record := "";
        }
        return;
      }
      if taskID != "" {
        record := "";
      }
      if !delivered {
        var _ := Emit(StreamEnd(None));
      }
    }

    // --- the second attempt -----------------------------------------------------------

    /** One message sent to the agent: refused, or a stream of deltas, complete
        for a consumer that hears it out. */
    method Send() returns (r: Attempt)
      modifies this`attempts
      ensures attempts == old(attempts) + [r] && (r.Streams? ==> Complete(r.ds))
    {
      r := *;
      if r.Streams? && !Complete(r.ds) {
        r := Refused(NoTerminal);
      }
      attempts := attempts + [r];
    }

    /** Forwards ds; the producer stops once the context is done. */
    method Forward(ds: seq<Delta>)
      modifies this`done, this`shutdown, this`out
      ensures old(done) ==> done
      ensures old(out) <= out <= old(out) + ds
      ensures !done ==> out == old(out) + ds
    {
      var i := 0;
      while i < |ds|
        invariant i <= |ds| && out == old(out) + ds[..i]
        invariant old(done) ==> done
      {
        Poll();
        var closed: bool := *;
        if done && closed {
          return;
        }
        assert ds[..i + 1] == ds[..i] + [ds[i]];
        var ok := Emit(ds[i]);
        if !ok {
          return;
        }
        i := i + 1;
      }
    }

    /** retryUnshown: forwards first, and a second attempt in place of a failure
        that came before anything was shown. A second attempt that is refused
        leaves the first failure standing. */
    method RetryUnshown(first: seq<Delta>) returns (ghost second: Option<Attempt>)
      requires Complete(first)
      modifies this`done, this`shutdown, this`out, this`attempts
      ensures old(done) ==> done
      ensures attempts == old(attempts) + (if second.Some? then [second.value] else [])
      ensures second.Some? ==> Unshown(first, retryable) && (second.value.Streams? ==> Complete(second.value.ds))
      ensures !done && second.None? ==> !Unshown(first, retryable)
      ensures old(out) <= out <= old(out) + Retried(first, second)
      ensures !done ==> out == old(out) + Retried(first, second)
    {
      second := None;
      var shown, i := false, 0;
      while i < |first|
        invariant i <= |first| && second == None
        invariant shown <==> exists k :: 0 <= k < i && Shows(first[k])
        invariant out == old(out) + first[..i] && attempts == old(attempts)
        invariant old(done) ==> done
        invariant !done && i == |first| ==> !Unshown(first, retryable)
      {
        Poll();
        var closed: bool := *;
        if done && closed {
          return;
        }
        var d := first[i];
        assert first[..i + 1] == first[..i] + [d];
        if !shown && !done && IsTaskFailure(d) && retryable(d.err.value) {
          assert i == |first| - 1 by { assert IsTerminal(d); }
          var next := Send();
          second := Some(next);
          Regroup(old(out), first[..i], if next.Streams? then next.ds else [d]);
          if next.Streams? {
            ghost var before := out;
            Forward(next.ds);
            Within(old(out), before, out);
          } else {
            var _ := Emit(d);
          }
          return;
        }
        shown := shown || Shows(d);
        var ok := Emit(d);
        if !ok {
          return;
        }
        i := i + 1;
      }
    }

    /** SendCompletion: a turn's message, sent at most twice, and once when it
        answers a paused task. */
    method SendCompletion(resume: bool) returns (error: Option<Failure>)
      requires out == [] && attempts == []
      modifies this`done, this`shutdown, this`out, this`attempts
      ensures old(done) ==> done
      ensures 1 <= |attempts| <= 2 && (resume ==> |attempts| == 1)
      ensures |attempts| == 2 ==> Again(attempts[0], retryable)
      ensures !done && !resume && Again(attempts[0], retryable) ==> |attempts| == 2
      ensures error.Some? ==> out == [] && attempts[|attempts| - 1] == Refused(error.value)
      ensures error.Some? <==> attempts[0].Refused? && (|attempts| == 1 || attempts[1].Refused?)
      ensures error.None? && !done ==>
        out == if |attempts| == 2 && attempts[1].Streams? then Replaced(attempts[0], attempts[1].ds) else attempts[0].ds
      ensures error.None? ==> OneAttempt(attempts, out)
      ensures error.None? && !done ==> Complete(out)
    {
      var first := Send();
      if first.Refused? {
        Poll();
        if resume || done || !retryable(first.error) {
          return Some(first.error);
        }
        var again := Send();
        if again.Refused? {
          return Some(again.error);
        }
        Nothing(again.ds, out);
        Forward(again.ds);
        FromOne(attempts, out, 1, 0);
        return None;
      }
      if resume {
        Nothing(first.ds, out);
        Forward(first.ds);
        FromOne(attempts, out, 0, 0);
        return None;
      }
      ghost var none := out;
      ghost var second := RetryUnshown(first.ds);
      Nothing(Retried(first.ds, second), none);
      RetryIsOneAttempt(attempts, first.ds, second, out, retryable);
      error := None;
    }
  }

  datatype Attempt = Refused(error: Failure) | Streams(ds: seq<Delta>)

  /** An attempt that a second one is worth: refused, or failed before it showed anything,
      on a failure that another may get past. */
  predicate Again(first: Attempt, retryable: Failure -> bool) {
    match first
    case Refused(e) => retryable(e)
    case Streams(ds) => Complete(ds) && Unshown(ds, retryable)
  }

  /** What the channel gets of the first attempt, its end given up for the second's deltas. */
  function Replaced(first: Attempt, second: seq<Delta>): seq<Delta>
    requires first.Streams? ==> first.ds != []
  {
    if first.Streams? then first.ds[..|first.ds| - 1] + second else second
  }

  /** A task the controller reports failed: it is over. */
  predicate IsTaskFailure(d: Delta) { d.err.Some? && d.err.value.TaskEnded? && d.err.value.state.Failed? }

  /** The attempt failed, on a failure another may get past, before it showed anything. */
  predicate Unshown(ds: seq<Delta>, retryable: Failure -> bool)
    requires Complete(ds)
  {
    var last := ds[|ds| - 1];
    IsTaskFailure(last) && retryable(last.err.value) && forall i :: 0 <= i < |ds| - 1 ==> !Shows(ds[i])
  }

  /** What the channel gets of a first attempt and a second one. */
  function Retried(first: seq<Delta>, second: Option<Attempt>): seq<Delta>
    requires first != []
  {
    if second.Some? && second.value.Streams? then first[..|first| - 1] + second.value.ds else first
  }

  /** Everything shown is one attempt's: out is what attempts[k] put out, after n
      deltas that show nothing. */
  ghost predicate OneAttempt(attempts: seq<Attempt>, out: seq<Delta>) {
    exists k, n :: ShownFrom(attempts, out, k, n)
  }

  predicate ShownFrom(attempts: seq<Attempt>, out: seq<Delta>, k: nat, n: nat) {
    && k < |attempts| && attempts[k].Streams? && n <= |out| && out[n..] <= attempts[k].ds
    && forall i :: 0 <= i < n ==> !Shows(out[i])
  }

  lemma FromOne(attempts: seq<Attempt>, out: seq<Delta>, k: nat, n: nat)
    requires ShownFrom(attempts, out, k, n)
    ensures OneAttempt(attempts, out)
  {
  }

  lemma RetryIsOneAttempt(attempts: seq<Attempt>, first: seq<Delta>, second: Option<Attempt>, out: seq<Delta>, retryable: Failure -> bool)
    requires Complete(first) && out <= Retried(first, second)
    requires attempts == [Streams(first)] + if second.Some? then [second.value] else []
    requires second.Some? ==> Unshown(first, retryable) && (second.value.Streams? ==> Complete(second.value.ds))
    ensures OneAttempt(attempts, out)
    ensures out == Retried(first, second) ==> Complete(out)
  {
    var n := |first| - 1;
    if second.Some? && second.value.Streams? && |out| >= n {
      assert Retried(first, second)[n..] == second.value.ds;
      assert out[n..] <= second.value.ds;
      FromOne(attempts, out, 1, n);
    } else {
      if second.Some? && second.value.Streams? { Within(out, first[..n], first); }
      FromOne(attempts, out, 0, 0);
    }
  }

  /** From was, the channel received out once seen of the events were passed on:
      all of them, while the consumer was listening, up to a terminal one. */
  ghost predicate Followed(was: seq<Delta>, out: seq<Delta>, resumed: bool, answer: Option<Task>, events: seq<Incoming>,
                           failure: Option<string>, seen: nat, terminal: bool, done: bool) {
    var full := Heard(NEW_MAPPER, resumed, answer, events, failure);
    && seen <= |events| && was <= out <= was + full
    && (terminal ==> seen > 0 && Stops(resumed, events[seen - 1].WholeTask?, MappedAt(events, seen - 1)))
    && (!done && terminal ==> out == was + full)
    && (!done && !terminal ==> out + Heard(MapperAt(events, seen), resumed, answer, events[seen..], failure) == was + full)
  }

  lemma FollowedFirst(out: seq<Delta>, resumed: bool, answer: Option<Task>, events: seq<Incoming>, failure: Option<string>, done: bool)
    ensures Followed(out, out, resumed, answer, events, failure, 0, false, done)
  {
    assert events[0..] == events;
  }

  lemma FollowedStill(was: seq<Delta>, out: seq<Delta>, resumed: bool, answer: Option<Task>, events: seq<Incoming>,
                      failure: Option<string>, seen: nat, terminal: bool, done: bool, later: bool)
    requires Followed(was, out, resumed, answer, events, failure, seen, terminal, done) && (done ==> later)
    ensures Followed(was, out, resumed, answer, events, failure, seen, terminal, later)
  {
  }

  lemma FollowedLast(was: seq<Delta>, out: seq<Delta>, resumed: bool, answer: Option<Task>, events: seq<Incoming>,
                     failure: Option<string>, seen: nat, terminal: bool, done: bool)
    requires Followed(was, out, resumed, answer, events, failure, seen, terminal, done)
    ensures was <= out <= was + Heard(NEW_MAPPER, resumed, answer, events, failure)
    ensures !done && terminal ==> out == was + Heard(NEW_MAPPER, resumed, answer, events, failure)
    ensures !done && !terminal && seen == |events| ==>
      out + [StreamEnd(failure)] == was + Heard(NEW_MAPPER, resumed, answer, events, failure)
    ensures terminal ==> seen > 0 && Stops(resumed, events[seen - 1].WholeTask?, MappedAt(events, seen - 1))
  {
  }

  /** The whole turn is delivered once the stream's end is. */
  lemma Delivered(was: seq<Delta>, passed: seq<Delta>, out: seq<Delta>, resumed: bool, answer: Option<Task>, events: seq<Incoming>,
                  failure: Option<string>, seen: nat, terminal: bool, done: bool, later: bool)
    requires Followed(was, passed, resumed, answer, events, failure, seen, terminal, done) && (done ==> later)
    requires seen == |events| || terminal || done
    requires out == passed || (out == passed + [StreamEnd(failure)] && !terminal && !done)
    requires !later && !terminal ==> out == passed + [StreamEnd(failure)]
    ensures was <= out <= was + Heard(NEW_MAPPER, resumed, answer, events, failure)
    ensures !later ==> out == was + Heard(NEW_MAPPER, resumed, answer, events, failure)
    ensures terminal ==> seen > 0 && Stops(resumed, events[seen - 1].WholeTask?, MappedAt(events, seen - 1))
  {
    FollowedLast(was, passed, resumed, answer, events, failure, seen, terminal, done);
  }

  lemma HeardFirst(m: Mapper, resumed: bool, answer: Option<Task>, events: seq<Incoming>, failure: Option<string>, i: nat)
    requires i < |events|
    ensures var (m1, ds) := MapEvent(m, events[i]);
      Heard(m, resumed, answer, events[i..], failure) ==
        Passed(m1, resumed, events[i].WholeTask?, answer, ds)
        + if Stops(resumed, events[i].WholeTask?, ds) then [] else Heard(m1, resumed, answer, events[i + 1..], failure)
  {
    assert events[i..][1..] == events[i + 1..];
  }

  lemma FollowedNext(was: seq<Delta>, out0: seq<Delta>, out: seq<Delta>, resumed: bool, answer: Option<Task>,
                     events: seq<Incoming>, failure: Option<string>, seen: nat, terminal: bool, done: bool)
    requires seen < |events| && Followed(was, out0, resumed, answer, events, failure, seen, false, false)
    requires var ds := MappedAt(events, seen); var whole := events[seen].WholeTask?;
      var passed := Passed(MapperAt(events, seen + 1), resumed, whole, answer, ds);
      && out0 <= out <= out0 + passed && (!done ==> out == out0 + passed && terminal == Stops(resumed, whole, ds))
      && (terminal ==> Stops(resumed, whole, ds))
    ensures Followed(was, out, resumed, answer, events, failure, seen + 1, terminal, done)
  {
    var full := Heard(NEW_MAPPER, resumed, answer, events, failure);
    var m1, ds, whole := MapperAt(events, seen + 1), MappedAt(events, seen), events[seen].WholeTask?;
    var passed := Passed(m1, resumed, whole, answer, ds);
    var rest := if Stops(resumed, whole, ds) then [] else Heard(m1, resumed, answer, events[seen + 1..], failure);
    HeardFirst(MapperAt(events, seen), resumed, answer, events, failure, seen);
    Regroup(out0, passed, rest);
    Within(was, out0, out);
    Within(out, out0 + passed, was + full);
    Nothing(out0 + passed, rest);
  }

  /** The task known once seen of the events were mapped, and the row's record of it. */
  predicate InFlight(known: TaskID, before: TaskID, events: seq<Incoming>, seen: nat, taskID: TaskID, record: TaskID) {
    && seen <= |events| && taskID == TaskOf(known, events[..seen])
    && (record == if known != "" || taskID == "" then before else FirstTask(events))
    && (taskID == "" ==> FirstTask(events) == FirstTask(events[seen..]))
  }

  lemma InFlightFirst(known: TaskID, before: TaskID, events: seq<Incoming>)
    ensures InFlight(known, before, events, 0, known, before)
  {
    assert events[0..] == events;
  }

  lemma InFlightNext(known: TaskID, before: TaskID, events: seq<Incoming>, i: nat, taskID: TaskID, record: TaskID)
    requires i < |events| && InFlight(known, before, events, i, taskID, record)
    ensures var next := if events[i].task != "" then events[i].task else taskID;
      InFlight(known, before, events, i + 1, next, if taskID == "" && next != "" then next else record)
  {
    assert events[..i + 1][..i] == events[..i] && events[i..][1..] == events[i + 1..];
    if known != "" { TaskStays(known, events[..i]); }
  }

  lemma {:induction false} TaskStays(known: TaskID, events: seq<Incoming>)
    requires known != ""
    ensures TaskOf(known, events) != ""
  {
    if |events| > 0 { TaskStays(known, events[..|events| - 1]); }
  }

  function MapperAt(evs: seq<Incoming>, n: nat): Mapper
    requires n <= |evs|
  {
    if n == 0 then NEW_MAPPER else MapEvent(MapperAt(evs, n - 1), evs[n - 1]).0
  }

  /** The deltas of event n. */
  function MappedAt(evs: seq<Incoming>, n: nat): seq<Delta>
    requires n < |evs|
  {
    MapEvent(MapperAt(evs, n), evs[n]).1
  }

  function FirstTask(evs: seq<Incoming>): TaskID {
    if evs == [] then "" else if evs[0].task != "" then evs[0].task else FirstTask(evs[1..])
  }
}
