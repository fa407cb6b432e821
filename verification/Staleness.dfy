/** How old a link is that a process serves without asking the store. */
module Staleness {
  import opened LinkModel
  import opened RefreshProtocol
  import opened RefreshSafety
  import opened RefreshRuns

  /** By this action a read of the store by p fails. */
  predicate FailedRead(a: Action, p: Holder) {
    a.Act? && a.p == p && (a.op.LoadAnswer? || a.op.LockedAnswer?) && a.op.failed
  }

  /** The store has answered p's write, and p has yet to note that in its copy. */
  predicate ToNote(procs: map<Holder, Proc>, p: Holder) {
    p in procs && (procs[p].pc.Written? || procs[p].pc.Adopting?)
  }

  ghost predicate ToNoteSince(run: seq<State>, m: nat, j: nat, p: Holder)
    requires j < |run|
  {
    forall n {:trigger run[n]} :: m <= n <= j ==> ToNote(run[n].procs, p)
  }

  /** p's evidence at moment j for the link with token t: the store held it at moment
      m, which is j itself unless p has had it to note ever since; or its read of the
      store failed. */
  ghost predicate Evidence(run: seq<State>, acts: seq<Action>, m: nat, j: nat, p: Holder, t: Token)
    requires m <= j < |acts| && |run| == |acts| + 1
  {
    (Holds(run[m].w.store, t) && (m == j || ToNoteSince(run, m, j, p))) || FailedRead(acts[j], p)
  }

  /** By moment i, p had such evidence when the clock read from or later. */
  ghost predicate Vouched(run: seq<State>, acts: seq<Action>, i: nat, p: Holder, t: Token, from: Time)
    requires i <= |acts| && |run| == |acts| + 1
  {
    exists m: nat, j: nat :: m <= j < i && from <= run[j].w.now && Evidence(run, acts, m, j, p, t)
  }

  // --- one section, seen from the process that runs it ----------------------------------

  /** The token of what the process is writing is that of its dirty entry. */
  predicate Writes(pr: Proc) {
    match pr.pc
    case Recording(_, next) => IsDirty(pr.entry) && pr.entry.value.link.refreshToken == next.refreshToken
    case Saving(next) => IsDirty(pr.entry) && pr.entry.value.link.refreshToken == next.refreshToken
    case Flushing(link, _) => IsDirty(pr.entry) && pr.entry.value.link.refreshToken == link.refreshToken
    case Written => IsDirty(pr.entry)
    case _ => true
  }

  lemma SectionWrites(w: World, p: Holder, pr: Proc, op: Op)
    requires CanDo(w, pr, op) && Writes(pr)
    ensures Writes(Section(w, p, pr, op).1)
  {
  }

  /** The token whose storing the process has yet to note. */
  function Noting(pr: Proc): Option<Token> {
    if pr.pc.Adopting? then Some(pr.pc.link.refreshToken)
    else if pr.pc.Written? && pr.entry.Some? then Some(pr.entry.value.link.refreshToken)
    else None
  }

  /** What a process has to note stands in the store when it comes to it. */
  lemma ComesToNote(w: World, p: Holder, pr: Proc, op: Op)
    requires CanDo(w, pr, op) && Writes(pr)
    ensures var (w', pr') := Section(w, p, pr, op);
      Noting(pr').Some? ==> Holds(w'.store, Noting(pr').value) || (pr'.pc == pr.pc && Noting(pr') == Noting(pr))
  {
  }

  /** The read an operation commits. */
  function Committing(pr: Proc, op: Op): Option<Read> {
    if op.LoadCommit? && op.i < |pr.loads| then Some(pr.loads[op.i])
    else if op.LockedCommit? && pr.pc.Loading? then Some(pr.pc.read)
    else None
  }

  /** Where the clean entry a section leaves comes from. */
  lemma BecomesClean(w: World, p: Holder, pr: Proc, op: Op)
    requires CanDo(w, pr, op) && Writes(pr)
    ensures var e, e' := pr.entry, Section(w, p, pr, op).1.entry;
      e'.Some? && !e'.value.dirty ==>
        var t, at := e'.value.link.refreshToken, e'.value.checked;
        || (e.Some? && !e.value.dirty && e.value.link.refreshToken == t && e.value.checked == at)
        || (at == w.now && Noting(pr) == Some(t))
        || (var read := Committing(pr, op);
              && read.Some? && read.value.start == at && read.value.answer.Some?
              && (read.value.answer.value.Broken?
                  || (read.value.answer.value.Found? && read.value.answer.value.link.refreshToken == t)))
  {
  }

  /** The answer is what the store gives now. */
  predicate Answers(w: World, op: Op, read: Read) {
    && read.answer.Some? && (op.LoadAnswer? || op.LockedAnswer?)
    && match read.answer.value
       case Found(link) => Holds(w.store, link.refreshToken)
       case Missing => true
       case Broken => op.failed
  }

  /** Where the answer of a read in progress comes from. */
  lemma ReadsAnswered(w: World, p: Holder, pr: Proc, op: Op)
    requires CanDo(w, pr, op)
    ensures var pr' := Section(w, p, pr, op).1;
      && (pr'.pc.Loading? && pr'.pc.read.answer.Some? ==>
            (pr.pc.Loading? && pr.pc.read == pr'.pc.read)
            || (pr.pc.Loading? && pr.pc.read.start == pr'.pc.read.start && Answers(w, op, pr'.pc.read)))
      && (forall k :: 0 <= k < |pr'.loads| && pr'.loads[k].answer.Some? ==>
            pr'.loads[k] in pr.loads
            || (exists n :: 0 <= n < |pr.loads| && pr.loads[n].start == pr'.loads[k].start && Answers(w, op, pr'.loads[k])))
  {
    var pr' := Section(w, p, pr, op).1;
    if op.LoadAnswer? {
      assert pr'.loads[op.i].start == pr.loads[op.i].start;
    }
  }

  // --- over whole runs -------------------------------------------------------------------

  ghost predicate ReadVouched(run: seq<State>, acts: seq<Action>, i: nat, p: Holder, read: Read)
    requires i <= |acts| && |run| == |acts| + 1
  {
    read.answer.Some? ==>
      match read.answer.value
      case Found(link) => Vouched(run, acts, i, p, link.refreshToken, read.start)
      case Missing => true
      case Broken => Failed(run, acts, i, p, read.start)
  }

  /** By moment i, a read by p failed when the clock read from or later. */
  ghost predicate Failed(run: seq<State>, acts: seq<Action>, i: nat, p: Holder, from: Time)
    requires i <= |acts| && |run| == |acts| + 1
  {
    exists j: nat :: j < i && from <= run[j].w.now && FailedRead(acts[j], p)
  }

  lemma FailureVouches(run: seq<State>, acts: seq<Action>, i: nat, p: Holder, t: Token, from: Time)
    requires i <= |acts| && |run| == |acts| + 1 && Failed(run, acts, i, p, from)
    ensures Vouched(run, acts, i, p, t, from)
  {
    var j: nat :| j < i && from <= run[j].w.now && FailedRead(acts[j], p);
    assert Evidence(run, acts, j, j, p, t);
  }

  ghost predicate NoteVouched(run: seq<State>, i: nat, p: Holder, t: Token)
    requires i < |run|
  {
    exists m: nat :: m <= i && Holds(run[m].w.store, t) && ToNoteSince(run, m, i, p)
  }

  ghost predicate Sound(run: seq<State>, acts: seq<Action>, i: nat, p: Holder)
    requires i <= |acts| && |run| == |acts| + 1 && p in run[i].procs
  {
    var pr := run[i].procs[p];
    && Writes(pr)
    && (pr.entry.Some? && !pr.entry.value.dirty ==>
          Vouched(run, acts, i, p, pr.entry.value.link.refreshToken, pr.entry.value.checked))
    && (pr.pc.Loading? ==> ReadVouched(run, acts, i, p, pr.pc.read))
    && (forall k :: 0 <= k < |pr.loads| ==> ReadVouched(run, acts, i, p, pr.loads[k]))
    && (Noting(pr).Some? ==> NoteVouched(run, i, p, Noting(pr).value))
  }

  lemma StaysVouched(run: seq<State>, acts: seq<Action>, i: nat, p: Holder, t: Token, from: Time)
    requires i < |acts| && |run| == |acts| + 1 && Vouched(run, acts, i, p, t, from)
    ensures Vouched(run, acts, i + 1, p, t, from)
  {
    var m: nat, j: nat :| m <= j < i && from <= run[j].w.now && Evidence(run, acts, m, j, p, t);
    assert j < i + 1;
  }

  lemma ReadStaysVouched(run: seq<State>, acts: seq<Action>, i: nat, p: Holder, read: Read)
    requires i < |acts| && |run| == |acts| + 1 && ReadVouched(run, acts, i, p, read)
    ensures ReadVouched(run, acts, i + 1, p, read)
  {
    if read.answer.Some? && read.answer.value.Found? {
      StaysVouched(run, acts, i, p, read.answer.value.link.refreshToken, read.start);
    } else if read.answer.Some? && read.answer.value.Broken? {
      var j: nat :| j < i && read.start <= run[j].w.now && FailedRead(acts[j], p);
      assert j < i + 1;
    }
  }

  lemma VouchedSince(run: seq<State>, acts: seq<Action>, i: nat, p: Holder, t: Token, from: Time, earlier: Time)
    requires i <= |acts| && |run| == |acts| + 1 && Vouched(run, acts, i, p, t, from) && earlier <= from
    ensures Vouched(run, acts, i, p, t, earlier)
  {
    var m: nat, j: nat :| m <= j < i && from <= run[j].w.now && Evidence(run, acts, m, j, p, t);
    assert earlier <= run[j].w.now;
  }

  /** The store's answer to p's read vouches for itself. */
  lemma AnswerVouches(run: seq<State>, acts: seq<Action>, i: nat, p: Holder, op: Op, read: Read)
    requires i < |acts| && |run| == |acts| + 1 && acts[i] == Act(p, op)
    requires read.start <= run[i].w.now && Answers(run[i].w, op, read)
    ensures ReadVouched(run, acts, i + 1, p, read)
  {
    if read.answer.value.Found? {
      assert Evidence(run, acts, i, i, p, read.answer.value.link.refreshToken);
    } else if read.answer.value.Broken? {
      assert FailedRead(acts[i], p);
    }
  }

  lemma ReadsStayVouched(run: seq<State>, acts: seq<Action>, i: nat, p: Holder, op: Op)
    requires IsRun(run, acts) && i < |acts| && acts[i] == Act(p, op) && p in run[i].procs && Sound(run, acts, i, p)
    requires StepAt(run, acts, i)
    ensures var pr' := run[i + 1].procs[p];
      && (pr'.pc.Loading? ==> ReadVouched(run, acts, i + 1, p, pr'.pc.read))
      && (forall k :: 0 <= k < |pr'.loads| ==> ReadVouched(run, acts, i + 1, p, pr'.loads[k]))
  {
    var pr, pr' := run[i].procs[p], run[i + 1].procs[p];
    ReadsAnswered(run[i].w, p, pr, op);
    RunClock(run, acts, i, p);
    if pr'.pc.Loading? && pr'.pc.read.answer.Some? {
      if pr.pc.read == pr'.pc.read { ReadStaysVouched(run, acts, i, p, pr.pc.read); }
      else { AnswerVouches(run, acts, i, p, op, pr'.pc.read); }
    }
    forall k | 0 <= k < |pr'.loads| && pr'.loads[k].answer.Some? ensures ReadVouched(run, acts, i + 1, p, pr'.loads[k]) {
      if pr'.loads[k] in pr.loads {
        ReadStaysVouched(run, acts, i, p, pr'.loads[k]);
      } else {
        AnswerVouches(run, acts, i, p, op, pr'.loads[k]);
      }
    }
  }

  lemma NoteStaysVouched(run: seq<State>, i: nat, p: Holder, t: Token)
    requires i + 1 < |run| && NoteVouched(run, i, p, t) && ToNote(run[i + 1].procs, p)
    ensures NoteVouched(run, i + 1, p, t)
  {
    var m: nat :| m <= i && Holds(run[m].w.store, t) && ToNoteSince(run, m, i, p);
    assert ToNoteSince(run, m, i + 1, p);
  }

  lemma NotesStayVouched(run: seq<State>, acts: seq<Action>, i: nat, p: Holder, op: Op)
    requires IsRun(run, acts) && i < |acts| && acts[i] == Act(p, op) && p in run[i].procs && Sound(run, acts, i, p)
    requires StepAt(run, acts, i)
    ensures var pr' := run[i + 1].procs[p];
      Noting(pr').Some? ==> NoteVouched(run, i + 1, p, Noting(pr').value)
  {
    var pr' := run[i + 1].procs[p];
    ComesToNote(run[i].w, p, run[i].procs[p], op);
    if Noting(pr').Some? {
      var t := Noting(pr').value;
      if Holds(run[i + 1].w.store, t) {
        assert ToNoteSince(run, i + 1, i + 1, p);
      } else {
        NoteStaysVouched(run, i, p, t);
      }
    }
  }

  /** What a process notes, the store held since it came to note it. */
  lemma NotedIsVouched(run: seq<State>, acts: seq<Action>, i: nat, p: Holder, t: Token)
    requires i < |acts| && |run| == |acts| + 1 && NoteVouched(run, i, p, t)
    ensures Vouched(run, acts, i + 1, p, t, run[i].w.now)
  {
    var m: nat :| m <= i && Holds(run[m].w.store, t) && ToNoteSince(run, m, i, p);
    assert Evidence(run, acts, m, i, p, t);
  }

  lemma EntryStaysVouched(run: seq<State>, acts: seq<Action>, i: nat, p: Holder, op: Op)
    requires IsRun(run, acts) && i < |acts| && acts[i] == Act(p, op) && p in run[i].procs && Sound(run, acts, i, p)
    requires StepAt(run, acts, i)
    ensures var e' := run[i + 1].procs[p].entry;
      e'.Some? && !e'.value.dirty ==> Vouched(run, acts, i + 1, p, e'.value.link.refreshToken, e'.value.checked)
  {
    var pr, e' := run[i].procs[p], run[i + 1].procs[p].entry;
    BecomesClean(run[i].w, p, pr, op);
    if e'.Some? && !e'.value.dirty {
      var t, read := e'.value.link.refreshToken, Committing(pr, op);
      if Noting(pr) == Some(t) && e'.value.checked == run[i].w.now {
        NotedIsVouched(run, acts, i, p, t);
      } else if read.Some? && read.value.start == e'.value.checked && read.value.answer.Some?
                && (read.value.answer.value.Broken?
                    || (read.value.answer.value.Found? && read.value.answer.value.link.refreshToken == t)) {
        assert ReadVouched(run, acts, i, p, read.value);
        if read.value.answer.value.Broken? { FailureVouches(run, acts, i, p, t, e'.value.checked); }
        StaysVouched(run, acts, i, p, t, e'.value.checked);
      } else {
        StaysVouched(run, acts, i, p, t, e'.value.checked);
      }
    }
  }

  lemma OthersKeepSound(run: seq<State>, acts: seq<Action>, i: nat, p: Holder)
    requires i < |acts| && |run| == |acts| + 1 && p in run[i].procs && Sound(run, acts, i, p)
    requires p in run[i + 1].procs && run[i + 1].procs[p] == run[i].procs[p]
    ensures Sound(run, acts, i + 1, p)
  {
    var pr := run[i].procs[p];
    if pr.entry.Some? && !pr.entry.value.dirty {
      StaysVouched(run, acts, i, p, pr.entry.value.link.refreshToken, pr.entry.value.checked);
    }
    if pr.pc.Loading? { ReadStaysVouched(run, acts, i, p, pr.pc.read); }
    forall k | 0 <= k < |pr.loads| ensures ReadVouched(run, acts, i + 1, p, pr.loads[k]) {
      ReadStaysVouched(run, acts, i, p, pr.loads[k]);
    }
    if Noting(pr).Some? { NoteStaysVouched(run, i, p, Noting(pr).value); }
  }

  lemma {:induction false} RunSound(run: seq<State>, acts: seq<Action>, i: nat, p: Holder)
    requires IsRun(run, acts) && i <= |acts| && p in run[i].procs
    ensures Sound(run, acts, i, p)
  {
    if i > 0 {
      var a := acts[i - 1];
      assert StepAt(run, acts, i - 1);
      if a != Start(p) {
        RunSound(run, acts, i - 1, p);
        if a.Act? && a.p == p {
          SectionWrites(run[i - 1].w, p, run[i - 1].procs[p], a.op);
          ReadsStayVouched(run, acts, i - 1, p, a.op);
          NotesStayVouched(run, acts, i - 1, p, a.op);
          EntryStaysVouched(run, acts, i - 1, p, a.op);
        } else {
          OthersKeepSound(run, acts, i - 1, p);
        }
      }
    }
  }

  /** Whenever a process has a link it takes to be in the store, the store held it, or
      failed the process's read, when the clock read the time the entry was checked
      at or later: at that very moment, or before it with nothing left to do then
      but to note it. */
  lemma CleanIsVouched(run: seq<State>, acts: seq<Action>, i: nat, p: Holder)
    requires IsRun(run, acts) && i <= |acts| && p in run[i].procs
    requires run[i].procs[p].entry.Some? && !IsDirty(run[i].procs[p].entry)
    ensures var e := run[i].procs[p].entry.value;
      Vouched(run, acts, i, p, e.link.refreshToken, e.checked)
  {
    RunSound(run, acts, i, p);
  }

  /** The store's link, or none of this process's reads, was at hand with the clock at
      least that far. */
  ghost predicate HeldOrFailed(run: seq<State>, acts: seq<Action>, i: nat, p: Holder, t: Token, from: Time)
    requires i <= |acts| && |run| == |acts| + 1
  {
    exists k: nat :: k < i && from <= run[k].w.now && (Holds(run[k].w.store, t) || FailedRead(acts[k], p))
  }

  /** p notes what the store answered to its writes within lag. */
  ghost predicate NotesWithin(run: seq<State>, p: Holder, lag: Time) {
    forall m: nat, j: nat :: m <= j < |run| && ToNoteSince(run, m, j, p) ==> run[j].w.now - run[m].w.now <= lag
  }

  /** A link served from the copy without asking the store: the store held it less
      than the cache's lifetime ago, and the time this process takes to note a write,
      unless it failed a read since. */
  lemma ServedIsRecent(run: seq<State>, acts: seq<Action>, i: nat, p: Holder, lag: Time)
    requires IsRun(run, acts) && i < |acts| && acts[i] == Act(p, LockedLoad) && lag >= 0 && NotesWithin(run, p, lag)
    requires p in run[i].procs && p in run[i + 1].procs && run[i + 1].procs[p].pc.Loaded?
    ensures IsDirty(run[i].procs[p].entry)
      || HeldOrFailed(run, acts, i, p, run[i + 1].procs[p].pc.link.refreshToken, run[i].w.now - LINK_CACHE_TTL - lag + 1)
  {
    assert StepAt(run, acts, i);
    if !IsDirty(run[i].procs[p].entry) {
      CleanIsVouched(run, acts, i, p);
      VouchedWithin(run, acts, i, p, run[i].procs[p].entry.value.link.refreshToken, run[i].procs[p].entry.value.checked, lag);
    }
  }

  lemma VouchedWithin(run: seq<State>, acts: seq<Action>, i: nat, p: Holder, t: Token, from: Time, lag: Time)
    requires i <= |acts| && |run| == |acts| + 1 && lag >= 0 && NotesWithin(run, p, lag) && Vouched(run, acts, i, p, t, from)
    ensures HeldOrFailed(run, acts, i, p, t, from - lag)
  {
    var m: nat, j: nat :| m <= j < i && from <= run[j].w.now && Evidence(run, acts, m, j, p, t);
    if !FailedRead(acts[j], p) {
      assert m == j || ToNoteSince(run, m, j, p);
      assert Holds(run[m].w.store, t);
    }
  }
}
