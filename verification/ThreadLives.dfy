/** What every writer of a thread's row keeps, over whole histories of writes. */
module ThreadLives {
  import opened LinkModel
  import opened ThreadRow

  /** The store runs a write's closure at its own time at. */
  datatype Event = Event(w: Write, at: Time)

  /** The row after the first n events. */
  function RowAfter(ttl: Time, events: seq<Event>, n: nat): Option<Entry>
    requires n <= |events|
  {
    if n == 0 then None
    else Update(ttl, events[n - 1].w, RowAfter(ttl, events, n - 1), events[n - 1].at)
  }

  // --- the row's own consistency ------------------------------------------------

  /** A stored share or refusal names the session the row is bound to, and every
      reader passed the check for the workspace the row has. */
  ghost predicate Consistent(e: Entry, passed: set<(User, WorkspaceChoice)>) {
    && (e.share.Some? ==> e.share.value.session == e.session)
    && (e.refusal.Some? ==> e.refusal.value.session == e.session)
    && (forall user :: user in e.readers ==> e.workspace.Some? && (user, e.workspace.value) in passed)
  }

  /** The checks passed before each event: a reader is recorded only by a process
      whose check of that user for that workspace passed. */
  ghost predicate Checked(events: seq<Event>, passed: seq<set<(User, WorkspaceChoice)>>) {
    && |passed| == |events| + 1
    && (forall i :: 0 <= i < |events| ==> passed[i] <= passed[i + 1])
    && (forall i :: 0 <= i < |events| && events[i].w.Record? && events[i].w.m.AddReader? ==>
          events[i].w.m.checked.Some? && (events[i].w.m.user, events[i].w.m.checked.value) in passed[i])
  }

  lemma MutationKeepsConsistent(m: Mutation, e: Entry, found: bool, passed: set<(User, WorkspaceChoice)>)
    requires Consistent(e, passed)
    requires m.AddReader? ==> m.checked.Some? && (m.user, m.checked.value) in passed
    ensures var next := Mutate(m, e, found); next.Some? ==> Consistent(next.value, passed)
  {
  }

  lemma BindKeepsConsistent(ttl: Time, w: Write, e: Entry, found: bool, passed: set<(User, WorkspaceChoice)>)
    requires w.Bind? && Consistent(e, passed)
    ensures Consistent(BindWrite(ttl, w, e, found), passed)
  {
  }

  lemma WriteKeepsConsistent(ttl: Time, w: Write, row: Option<Entry>, at: Time, passed: set<(User, WorkspaceChoice)>)
    requires row.Some? ==> Consistent(row.value, passed)
    requires w.Record? && w.m.AddReader? ==> w.m.checked.Some? && (w.m.user, w.m.checked.value) in passed
    ensures var next := Update(ttl, w, row, at); next.Some? ==> Consistent(next.value, passed)
  {
    var seen := Visible(row, at);
    var e, found := if seen.Some? then seen.value else EMPTY, seen.Some?;
    assert Consistent(e, passed);
    if w.Record? {
      var (e', found') := Reopen(ttl, e, found, w.now);
      MutationKeepsConsistent(w.m, e', found', passed);
    } else if w.Bind? {
      BindKeepsConsistent(ttl, w, e, found, passed);
    }
  }

  lemma {:induction false} RowAlwaysConsistent(
      ttl: Time, events: seq<Event>, passed: seq<set<(User, WorkspaceChoice)>>, n: nat)
    requires Checked(events, passed) && n <= |events|
    ensures var row := RowAfter(ttl, events, n); row.Some? ==> Consistent(row.value, passed[n])
  {
    if n > 0 {
      RowAlwaysConsistent(ttl, events, passed, n - 1);
      assert passed[n - 1] <= passed[n];
      WriteKeepsConsistent(ttl, events[n - 1].w, RowAfter(ttl, events, n - 1), events[n - 1].at, passed[n]);
    }
  }

  // --- lives ------------------------------------------------------------------------

  /** Writes that slide the thread's lifetime, and the clock reading they carry. */
  predicate Stamps(w: Write) { w.Record? || w.Refresh? || w.Bind? }

  /** Writes that may start a thread. */
  predicate Opens(w: Write) { w.Record? || w.Bind? }

  /** The write was handed no row, or one whose conversation had ended, and wrote. */
  predicate StartsOver(ttl: Time, w: Write, row: Option<Entry>, at: Time) {
    && var seen := Visible(row, at);
    && (seen.None? || (Opens(w) && Closed(ttl, seen.value, w.now)))
    && Closure(ttl, w, if seen.Some? then seen.value else EMPTY, seen.Some?).Some?
  }

  predicate StartsLife(ttl: Time, events: seq<Event>, n: nat)
    requires 0 < n <= |events|
  {
    StartsOver(ttl, events[n - 1].w, RowAfter(ttl, events, n - 1), events[n - 1].at)
  }

  /** The write's closure wrote the row it was handed. */
  predicate Wrote(ttl: Time, events: seq<Event>, i: nat)
    requires i < |events|
  {
    var seen := Visible(RowAfter(ttl, events, i), events[i].at);
    Closure(ttl, events[i].w, if seen.Some? then seen.value else EMPTY, seen.Some?).Some?
  }

  /** A write that slid the thread's lifetime: a stranger's message, say, whose
      closure wrote nothing, slides none. */
  predicate Slid(ttl: Time, events: seq<Event>, i: nat)
    requires i < |events|
  {
    Stamps(events[i].w) && Wrote(ttl, events, i)
  }

  /** A row's LastSeen is the clock reading of one of the writes that slid it. */
  lemma {:induction false} LastSeenIsAStamp(ttl: Time, events: seq<Event>, n: nat)
    requires n <= |events| && RowAfter(ttl, events, n).Some?
    ensures exists i :: 0 <= i < n && Slid(ttl, events, i) && events[i].w.now == RowAfter(ttl, events, n).value.lastSeen
  {
    var e := events[n - 1];
    var before := RowAfter(ttl, events, n - 1);
    if !Slid(ttl, events, n - 1) {
      assert before.Some? && before.value.lastSeen == RowAfter(ttl, events, n).value.lastSeen;
      LastSeenIsAStamp(ttl, events, n - 1);
    }
  }

  /** Bookkeeping of the task in flight, the share and the binding's removal
      leave the lifetime, the initiator and the grants as they are. */
  lemma BookkeepingKeepsLife(ttl: Time, w: Write, row: Option<Entry>, at: Time)
    requires !Stamps(w)
    ensures var next := Update(ttl, w, row, at);
      && (next.Some? <==> row.Some?)
      && (row.Some? ==>
            && next.value.lastSeen == row.value.lastSeen && next.value.ttl == row.value.ttl
            && next.value.createdAt == row.value.createdAt
            && next.value.initiator == row.value.initiator && next.value.granted == row.value.granted)
  {
  }

  /** A record or a new binding written on an ended conversation is what it
      would be on a thread nobody has ever seen. */
  lemma ClosedIsAbsent(ttl: Time, w: Write, row: Option<Entry>, at: Time)
    requires Opens(w) && row.Some? && Closed(ttl, row.value, w.now)
    ensures var next := Closure(ttl, w, EMPTY, false);
      Update(ttl, w, row, at) == (if next.None? then row else next)
  {
  }

  /** After more than the thread's lifetime of silence, whatever bookkeeping went
      on meanwhile and whoever tried in vain, a record or a new binding starts
      from an empty row. */
  lemma SilenceStartsOver(ttl: Time, events: seq<Event>, n: nat)
    requires 0 < n <= |events| && ttl > 0
    requires Opens(events[n - 1].w)
    requires forall i :: 0 <= i < n - 1 && Slid(ttl, events, i) ==>
      events[i].w.now != 0 && events[n - 1].w.now - events[i].w.now > ttl
    ensures var next := Closure(ttl, events[n - 1].w, EMPTY, false);
      && RowAfter(ttl, events, n) == (if next.None? then RowAfter(ttl, events, n - 1) else next)
      && (next.Some? ==> StartsLife(ttl, events, n))
  {
    var row := RowAfter(ttl, events, n - 1);
    if row.Some? {
      LastSeenIsAStamp(ttl, events, n - 1);
      ClosedIsAbsent(ttl, events[n - 1].w, row, events[n - 1].at);
    }
  }

  /** A conversation that stays within its lifetime keeps its row: it starts over
      only after silence. */
  lemma LifeNeedsNoSilence(ttl: Time, events: seq<Event>, n: nat)
    requires 0 < n <= |events|
    requires var row := RowAfter(ttl, events, n - 1);
      row.Some? && row.value.ttl == StoreTTL(ttl) && row.value.lastSeen != 0
      && events[n - 1].at - row.value.lastSeen <= ttl
    requires Stamps(events[n - 1].w) ==> events[n - 1].w.now <= events[n - 1].at
    ensures !StartsLife(ttl, events, n)
  {
  }

  predicate Grants(e: Event, user: User) { e.w.Record? && e.w.m == Grant(user) }
  predicate Launches(e: Event, user: User) { e.w.Record? && e.w.m == SetInitiator(user) }
  predicate Binds(e: Event, session: SessionID) { e.w.Bind? && e.w.session == session }

  /** No new life began after event i and up to the n-th. */
  ghost predicate SameLife(ttl: Time, events: seq<Event>, i: nat, n: nat)
    requires n <= |events|
  {
    forall m :: i + 1 < m <= n ==> !StartsLife(ttl, events, m)
  }

  /** The first initiator of a life stays its initiator. */
  lemma {:induction false} InitiatorStays(ttl: Time, events: seq<Event>, i: nat, n: nat)
    requires i < n <= |events| && SameLife(ttl, events, i, n)
    requires RowAfter(ttl, events, i + 1).Some? && RowAfter(ttl, events, i + 1).value.initiator != ""
    ensures RowAfter(ttl, events, n).Some?
    ensures RowAfter(ttl, events, n).value.initiator == RowAfter(ttl, events, i + 1).value.initiator
    ensures forall user :: user in RowAfter(ttl, events, i + 1).value.granted ==> user in RowAfter(ttl, events, n).value.granted
    decreases n
  {
    if i + 1 < n {
      InitiatorStays(ttl, events, i, n - 1);
      assert !StartsLife(ttl, events, n);
      WithinLife(ttl, events[n - 1].w, RowAfter(ttl, events, n - 1), events[n - 1].at);
    }
  }

  /** Within a life writes keep a recorded initiator and only ever add grants,
      and only a grant's own write adds one. */
  lemma WithinLife(ttl: Time, w: Write, row: Option<Entry>, at: Time)
    requires row.Some? && !StartsOver(ttl, w, row, at)
    ensures var next := Update(ttl, w, row, at);
      && next.Some?
      && (row.value.initiator != "" ==> next.value.initiator == row.value.initiator)
      && (forall user :: user in row.value.granted ==> user in next.value.granted)
      && (forall user :: user in next.value.granted && user !in row.value.granted ==> w.Record? && w.m == Grant(user))
      && (next.value.initiator != row.value.initiator ==> w.Record? && w.m == SetInitiator(next.value.initiator))
      && (next.value.session != row.value.session && next.value.session != "" ==> w.Bind? && w.session == next.value.session)
  {
  }

  /** Within a life a session's creator is recorded by the binding that moved the
      row there, and stays. */
  lemma CreatorWithinLife(ttl: Time, w: Write, row: Option<Entry>, at: Time)
    requires row.Some? && !StartsOver(ttl, w, row, at) && Update(ttl, w, row, at).Some?
    ensures var next := Update(ttl, w, row, at).value;
      && (next.session != row.value.session && next.session != "" ==> w.Bind? && next.creator == w.creator)
      && (next.session == row.value.session != "" ==> next.creator == row.value.creator)
  {
  }

  lemma NewLife(ttl: Time, w: Write, row: Option<Entry>, at: Time)
    requires StartsOver(ttl, w, row, at)
    ensures var next := Update(ttl, w, row, at);
      && next.Some? && next.value.granted == []
      && (next.value.initiator != "" ==> w.Record? && w.m == SetInitiator(next.value.initiator))
      && (next.value.session != "" ==> w.Bind? && w.session == next.value.session && next.value.creator == w.creator)
  {
  }

  /** Whoever the row lists as granted or as its initiator, and the session it
      is bound to, came in by a write of this very life: no grant and no binding
      crosses lives. */
  lemma {:induction false} GrantOfThisLife(ttl: Time, events: seq<Event>, n: nat, user: User) returns (i: nat)
    requires n <= |events| && RowAfter(ttl, events, n).Some? && user in RowAfter(ttl, events, n).value.granted
    ensures i < n && Grants(events[i], user) && SameLife(ttl, events, i, n)
  {
    i := n - 1;
    var row, e := RowAfter(ttl, events, n - 1), events[n - 1];
    if !Grants(e, user) {
      if StartsOver(ttl, e.w, row, e.at) { NewLife(ttl, e.w, row, e.at); }
      WithinLife(ttl, e.w, row, e.at);
      i := GrantOfThisLife(ttl, events, n - 1, user);
    }
  }

  lemma {:induction false} InitiatorOfThisLife(ttl: Time, events: seq<Event>, n: nat) returns (i: nat)
    requires n <= |events| && RowAfter(ttl, events, n).Some? && RowAfter(ttl, events, n).value.initiator != ""
    ensures i < n && Launches(events[i], RowAfter(ttl, events, n).value.initiator) && SameLife(ttl, events, i, n)
  {
    i := n - 1;
    var row, e := RowAfter(ttl, events, n - 1), events[n - 1];
    if !Launches(e, RowAfter(ttl, events, n).value.initiator) {
      if StartsOver(ttl, e.w, row, e.at) { NewLife(ttl, e.w, row, e.at); }
      WithinLife(ttl, e.w, row, e.at);
      i := InitiatorOfThisLife(ttl, events, n - 1);
    }
  }

  /** The row has been bound to session, with the creator recorded, since write i,
      which moved it there, in a life that goes on. */
  ghost predicate BoundSince(ttl: Time, events: seq<Event>, i: nat, n: nat, session: SessionID, creator: User)
    requires i < n <= |events|
  {
    && Binds(events[i], session) && events[i].w.creator == creator && SameLife(ttl, events, i, n)
    && (StartsLife(ttl, events, i + 1) || RowAfter(ttl, events, i).None? || RowAfter(ttl, events, i).value.session != session)
    && forall m :: i < m <= n ==>
         var row := RowAfter(ttl, events, m); row.Some? && row.value.session == session && row.value.creator == creator
  }

  /** The session a row is bound to and the creator it names are those of one
      write: the binding of this life that moved the row to that session. */
  lemma {:induction false} BindingOfThisLife(ttl: Time, events: seq<Event>, n: nat) returns (i: nat)
    requires n <= |events| && RowAfter(ttl, events, n).Some? && RowAfter(ttl, events, n).value.session != ""
    ensures var e := RowAfter(ttl, events, n).value; i < n && BoundSince(ttl, events, i, n, e.session, e.creator)
  {
    i := n - 1;
    var row, e, next := RowAfter(ttl, events, n - 1), events[n - 1], RowAfter(ttl, events, n).value;
    if StartsOver(ttl, e.w, row, e.at) {
      NewLife(ttl, e.w, row, e.at);
    } else if row.Some? {
      WithinLife(ttl, e.w, row, e.at);
      CreatorWithinLife(ttl, e.w, row, e.at);
      if row.value.session == next.session { i := BindingOfThisLife(ttl, events, n - 1); }
    }
  }

  // --- the task in flight ---------------------------------------------------------------

  /** The write keeps the row's record of the task in flight. */
  predicate KeepsTask(row: Option<Entry>, next: Option<Entry>) {
    && row.Some? && next.Some? && next.value.task == row.value.task && next.value.resume == row.value.resume
    && (next.value.session == row.value.session || row.value.session == "")
  }

  predicate RemembersTask(e: Event, task: string) { e.w.Remember? && e.w.task == task }

  lemma TaskStep(ttl: Time, w: Write, row: Option<Entry>, at: Time)
    requires Update(ttl, w, row, at).Some? && Update(ttl, w, row, at).value.task != ""
    requires !(w.Remember? && w.task == Update(ttl, w, row, at).value.task)
    ensures !StartsOver(ttl, w, row, at) && KeepsTask(row, Update(ttl, w, row, at))
  {
  }

  /** The task a row records was remembered in this life, since when the thread
      was not bound to another session. */
  lemma {:induction false} TaskOfThisSession(ttl: Time, events: seq<Event>, n: nat) returns (i: nat)
    requires n <= |events| && RowAfter(ttl, events, n).Some? && RowAfter(ttl, events, n).value.task != ""
    ensures i < n && RemembersTask(events[i], RowAfter(ttl, events, n).value.task) && SameLife(ttl, events, i, n)
    ensures forall m :: i < m < n ==> KeepsTask(RowAfter(ttl, events, m), RowAfter(ttl, events, m + 1))
  {
    i := n - 1;
    var row, e := RowAfter(ttl, events, n - 1), events[n - 1];
    if !RemembersTask(e, RowAfter(ttl, events, n).value.task) {
      TaskStep(ttl, e.w, row, e.at);
      i := TaskOfThisSession(ttl, events, n - 1);
    }
  }

  predicate Records(e: Event, delivered: Delivered) { e.w.Record? && e.w.m == RecordDelivered(delivered) }

  predicate RecordsAnew(ttl: Time, e: Event, row: Option<Entry>, next: Option<Entry>) {
    next.Some? && Records(e, next.value.delivered) && row.Some? && row.value.task != ""
  }

  lemma DeliveredStep(ttl: Time, w: Write, row: Option<Entry>, at: Time)
    requires Update(ttl, w, row, at).Some? && Update(ttl, w, row, at).value.delivered != NOTHING_DELIVERED
    requires !RecordsAnew(ttl, Event(w, at), row, Update(ttl, w, row, at))
    ensures !StartsOver(ttl, w, row, at) && row.Some? && row.value.delivered == Update(ttl, w, row, at).value.delivered
    ensures w.Remember? ==> Update(ttl, w, row, at) == row
  {
  }

  /** What a row records as delivered was recorded of the task it records: since
      then no other task was remembered. */
  lemma {:induction false} DeliveredOfThisTask(ttl: Time, events: seq<Event>, n: nat) returns (i: nat)
    requires n <= |events| && RowAfter(ttl, events, n).Some? && RowAfter(ttl, events, n).value.delivered != NOTHING_DELIVERED
    ensures i < n && Records(events[i], RowAfter(ttl, events, n).value.delivered) && SameLife(ttl, events, i, n)
    ensures RowAfter(ttl, events, i).Some? && RowAfter(ttl, events, i).value.task != ""
    ensures forall m :: i < m < n && events[m].w.Remember? ==> RowAfter(ttl, events, m + 1) == RowAfter(ttl, events, m)
  {
    i := n - 1;
    var row, e := RowAfter(ttl, events, n - 1), events[n - 1];
    if !RecordsAnew(ttl, e, row, RowAfter(ttl, events, n)) {
      DeliveredStep(ttl, e.w, row, e.at);
      i := DeliveredOfThisTask(ttl, events, n - 1);
    }
  }

  // --- muting ---------------------------------------------------------------------------

  predicate Mutes(w: Write, ts: nat) { w.Record? && w.m == Mute(ts) }

  /** The thread is spoken to after ts. */
  predicate Unmutes(w: Write, ts: nat) { w.Record? && w.m.EndMute? && w.m.ts > ts }

  /** The write is handed a thread whose conversation goes on. */
  predicate Live(ttl: Time, w: Write, row: Option<Entry>, at: Time) {
    w.Record? && Visible(row, at).Some? && !Closed(ttl, row.value, w.now)
  }

  /** A live thread that somebody launched is muted by the first stop, and stays so until
      it is spoken to after that; no other write changes it within a life. */
  lemma MuteStep(ttl: Time, w: Write, row: Option<Entry>, at: Time)
    requires row.Some? && !StartsOver(ttl, w, row, at)
    ensures var next := Update(ttl, w, row, at);
      && next.Some?
      && (next.value.mutedAt != row.value.mutedAt <==>
            && Live(ttl, w, row, at)
            && if row.value.mutedAt == 0 then row.value.initiator != "" && w.m.Mute? && w.m.ts != 0
               else Unmutes(w, row.value.mutedAt))
      && (next.value.mutedAt != row.value.mutedAt ==>
            if row.value.mutedAt == 0 then Mutes(w, next.value.mutedAt) else next.value.mutedAt == 0)
  {
  }

  /** A thread is muted since a stop of this life, and nobody has spoken to it later. */
  lemma {:induction false} MutedOfThisLife(ttl: Time, events: seq<Event>, n: nat) returns (i: nat)
    requires n <= |events| && RowAfter(ttl, events, n).Some? && RowAfter(ttl, events, n).value.mutedAt != 0
    ensures var ts := RowAfter(ttl, events, n).value.mutedAt;
      && i < n && Mutes(events[i].w, ts) && SameLife(ttl, events, i, n)
      && forall m :: i < m < n ==>
           !(Unmutes(events[m].w, ts) && Live(ttl, events[m].w, RowAfter(ttl, events, m), events[m].at))
  {
    i := n - 1;
    var row, e, ts := RowAfter(ttl, events, n - 1), events[n - 1], RowAfter(ttl, events, n).value.mutedAt;
    if StartsOver(ttl, e.w, row, e.at) {
      NewLifeUnmuted(ttl, e.w, row, e.at);
    } else if row.Some? {
      MuteStep(ttl, e.w, row, e.at);
      if row.value.mutedAt == ts { i := MutedOfThisLife(ttl, events, n - 1); }
    }
  }

  lemma NewLifeUnmuted(ttl: Time, w: Write, row: Option<Entry>, at: Time)
    requires StartsOver(ttl, w, row, at)
    ensures Update(ttl, w, row, at).Some? && Update(ttl, w, row, at).value.mutedAt == 0
  {
  }

  /** What a record puts on a live thread is there afterwards, and the binding, the share
      and the task in flight are as they were. */
  lemma RecordTakesEffect(ttl: Time, w: Write, row: Option<Entry>, at: Time)
    requires Live(ttl, w, row, at)
    ensures Update(ttl, w, row, at).Some?
    ensures var e, next := row.value, Update(ttl, w, row, at).value;
      && next.session == e.session && next.creator == e.creator && next.task == e.task && next.resume == e.resume
      && next.share == e.share && next.refusal == e.refusal && next.workspace == e.workspace
      && match w.m
         case SetInitiator(user) => next.initiator == if e.initiator != "" then e.initiator else user
         case Grant(user) => user in next.granted
         case AddReader(user, checked) => checked == e.workspace ==> user in next.readers
         case BindAgent(ref) => next.agentRef == ref
         case Hold(held) => next.held == held
         case Mute(_) => next.mutedAt == 0 ==> e.initiator == "" || w.m.ts == 0
         case EndMute(ts) => next.mutedAt == 0 || next.mutedAt >= ts
         case RecordDelivered(delivered) => e.task != "" ==> next.delivered == delivered
  {
  }

  // --- the row outlives the conversation ----------------------------------------------------

  /** The store serves a row for as long again as its conversation may be silent, so that
      a reply in a thread that ended is told so, and no longer: what is gone has ended. */
  lemma RowOutlives(ttl: Time, e: Entry, now: Time)
    requires ttl > 0 && e.ttl == StoreTTL(ttl) && e.lastSeen != 0
    ensures !Expired(e, e.lastSeen + ttl + ttl) && Closed(ttl, e, e.lastSeen + ttl + 1)
    ensures Expired(e, now) ==> Closed(ttl, e, now)
    ensures now - e.lastSeen <= ttl ==> !Closed(ttl, e, now) && !Expired(e, now)
  {
  }
}
