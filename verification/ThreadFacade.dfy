/** The gateway's methods on a thread's row, each run between whatever other
    writers do. The history of writes is kept, so what ThreadLives proves of
    all histories holds of any interleaving of these methods. */
module ThreadFacade {
  import opened LinkModel
  import opened ThreadRow
  import opened ThreadLives

  datatype Message = Message(
    sender: User, owner: User, ownerToken: string, agentRef: string, workspace: Option<WorkspaceChoice>, granted: bool)

  predicate Chosen(w: Option<WorkspaceChoice>) { w.Some? && !w.value.none }

  /** The channel user under whose token a session is created for msg. */
  function CreatorOf(msg: Message): User {
    if msg.ownerToken != "" then msg.owner else msg.sender
  }

  function RecordedCreator(e: Entry): User {
    if e.creator != "" then e.creator else e.initiator
  }

  datatype SessionResult = Bound(session: SessionID) | StoreFailed | NoWorkspaceGrant | StartFailed

  /** A call to the routing store or the controller. */
  datatype Call = RowRead | RowWrite | SessionStart

  class Thread {
    const threadTTL: Time
    var row: Option<Entry>
    var clock: Time
    ghost var events: seq<Event>
    /** The calls of this process that failed. */
    ghost var failed: seq<Call>

    ghost predicate Valid()
      reads this
    {
      row == RowAfter(threadTTL, events, |events|)
    }

    constructor (threadTTL: Time, clock: Time)
      ensures Valid() && events == [] && failed == [] && row.None? && this.threadTTL == threadTTL
    {
      this.threadTTL := threadTTL;
      this.clock := clock;
      row := None;
      events, failed := [], [];
    }

    /** The write just made, for the history. */
    ghost method Note(w: Write, at: Time)
      modifies this`events
      ensures events == old(events) + [Event(w, at)]
      ensures old(RowAfter(threadTTL, events, |events|))
           == RowAfter(threadTTL, events, |events| - 1)
    {
      events := events + [Event(w, at)];
      SamePrefix(threadTTL, old(events), events, |old(events)|);
    }

    /** Time passes and other writers of the row get in between. */
    method Meanwhile()
      requires Valid()
      modifies this
      ensures Valid() && old(events) <= events && clock >= old(clock) && failed == old(failed)
    {
    }

    /** The store or the controller answers the call, or it fails. */
    method Answers(call: Call) returns (ok: bool)
      modifies this`failed
      ensures failed == if ok then old(failed) else old(failed) + [call]
    {
      ok := *;
      if !ok { failed := failed + [call]; }
    }

    /** UpdateThreadRecord. */
    method UpdateThreadRecord(now: Time, m: Mutation)
      requires Valid()
      modifies this`row, this`events
      ensures Valid() && events == old(events) + [Event(Record(now, m), clock)]
      ensures row == Update(threadTTL, Record(now, m), old(row), clock)
    {
      var seen := Visible(row, clock);
      var e, found := if seen.Some? then seen.value else EMPTY, seen.Some?;
      if found && Closed(threadTTL, e, now) {
        e, found := EMPTY, false;
      }
      var mutated := Mutate(m, e, found);
      Note(Record(now, m), clock);
      if mutated.None? {
        return;
      }
      e := mutated.value.(lastSeen := now);
      if e.createdAt == 0 {
        e := e.(createdAt := now);
      }
      e := e.(ttl := StoreTTL(threadTTL));
      row := Some(e);
    }

    /** The thread's record as every reader sees it. */
    function Live(): Option<Entry>
      reads this
    {
      LiveEntry(threadTTL, Visible(row, clock), clock)
    }

    // --- the access policy ----------------------------------------------------------

    /** Records user as the initiator of a thread that has none, and returns the
        effective one. */
    method RecordInitiator(user: User) returns (initiator: User)
      requires Valid()
      modifies this`row, this`events
      ensures Valid() && events == old(events) + [Event(Record(clock, SetInitiator(user)), clock)]
      ensures initiator == if old(Live()).Some? && old(Live()).value.initiator != ""
                           then old(Live()).value.initiator else user
      ensures Live().Some? && Live().value.initiator == initiator
      ensures Live().value.granted == if old(Live()).Some? then old(Live()).value.granted else []
    {
      var e := Live();
      initiator := if e.Some? && e.value.initiator != "" then e.value.initiator else user;
      UpdateThreadRecord(clock, SetInitiator(user));
    }

    method Allowed(user: User) returns (allowed: bool)
      requires Valid()
      ensures allowed <==>
        Live().Some? && Live().value.initiator != "" && (user == Live().value.initiator || user in Live().value.granted)
    {
      var e := Live();
      allowed := e.Some? && e.value.initiator != "" && (e.value.initiator == user || user in e.value.granted);
    }

    /** Adds user to the live thread's grants; nothing happens on an ended one. */
    method GrantAccess(user: User)
      requires Valid()
      modifies this`row, this`events
      ensures Valid() && events == old(events) + [Event(Record(clock, Grant(user)), clock)]
      ensures old(Live()).None? ==> row == old(row)
      ensures old(Live()).Some? ==>
        && Live().Some? && user in Live().value.granted
        && Live().value.initiator == old(Live()).value.initiator
        && Live().value.session == old(Live()).value.session
        && (forall other :: other != user ==> (other in Live().value.granted <==> other in old(Live()).value.granted))
    {
      UpdateThreadRecord(clock, Grant(user));
    }

    method SessionOwner(agentRef: string) returns (owner: User)
      requires Valid()
      ensures owner == if Live().None? || Live().value.initiator == "" then ""
                       else if Live().value.session != "" && Live().value.agentRef == agentRef && Live().value.creator != ""
                       then Live().value.creator else Live().value.initiator
    {
      var e := Live();
      if e.None? || e.value.initiator == "" {
        return "";
      }
      owner := if e.value.session != "" && e.value.agentRef == agentRef && e.value.creator != ""
               then e.value.creator else e.value.initiator;
    }

    // --- the binding --------------------------------------------------------------------

    /** One atomic write of the row's closure w. */
    method Write(w: Write)
      requires Valid()
      modifies this`row, this`events
      ensures Valid() && events == old(events) + [Event(w, clock)]
      ensures row == Update(threadTTL, w, old(row), clock)
    {
      var seen := Visible(row, clock);
      var next := Closure(threadTTL, w, if seen.Some? then seen.value else EMPTY, seen.Some?);
      Note(w, clock);
      if next.Some? {
        row := next;
      }
    }

    /** A share of a session the thread leaves is revoked under its creator's
        identity only. */
    function Revocable(msg: Message, creator: User): bool {
      creator == "" || CreatorOf(msg) == creator
    }

    /** sessionFor: the session the thread is bound to for msg, a new one when it
        is bound to none that fits, by write k. revoked lists the shares revoked on
        the way: those an ended conversation or the binding left, as far as msg's
        creator may revoke them. read says that the row was read at all. The store or the start is reported
        to have failed exactly when a call to it did. */
    method SessionFor(msg: Message) returns (r: SessionResult, revoked: seq<string>, ghost read: bool, ghost k: nat)
      requires Valid()
      modifies this
      ensures Valid() && old(events) <= events && (!read ==> r.StoreFailed? && revoked == [])
      ensures r.Bound? ==> |old(events)| <= k && Binding(old(Live()), k, msg, r.session)
      ensures r.Bound? && events[k].w.Bind? ==> BoundAt(k, msg, r.session, events[k].w.workspace)
      ensures r.Bound? && events[k].w.Bind? ==>
        revoked == RevokedFor(msg, old(ClosedShare())) + RevokedFor(msg, LeftAt(k, r.session))
      ensures read && !(r.Bound? && events[k].w.Bind?) ==> revoked == RevokedFor(msg, old(ClosedShare()))
      ensures failed == old(failed) + FailedCall(r, read)
      ensures r.NoWorkspaceGrant? ==> Chosen(WorkspaceFor(old(Live()), msg)) && !msg.granted && !Fits(old(Live()), msg)
    {
      revoked, read, k := [], false, 0;
      var ok := Answers(RowRead);
      if !ok {
        return StoreFailed, revoked, read, k;
      }
      read := true;
      var now, got := clock, Visible(row, clock);
      if got.Some? && Closed(threadTTL, got.value, now) {
        if got.value.share.Some? && Revocable(msg, RecordedCreator(got.value)) {
          revoked := [got.value.share.value.id];
        }
        got := None;
      }
      var e := if got.Some? then got.value else EMPTY;
      var workspace := if msg.workspace.None? && e.agentRef == msg.agentRef then e.workspace else msg.workspace;
      Meanwhile();
      if got.Some? && e.session != "" && e.agentRef == msg.agentRef && workspace == e.workspace {
        ok := Answers(RowWrite);
        if !ok {
          return StoreFailed, revoked, read, k;
        }
        k := |events|;
        Write(Refresh(now));
        return Bound(e.session), revoked, read, k;
      }
      if Chosen(workspace) && !msg.granted {
        return NoWorkspaceGrant, revoked, read, k;
      }
      var more;
      r, more, k := StartAndBind(now, msg, workspace);
      revoked := revoked + more;
    }

    /** The controller starts a session, and the thread is bound to it. */
    method StartAndBind(now: Time, msg: Message, workspace: Option<WorkspaceChoice>)
      returns (r: SessionResult, revoked: seq<string>, ghost k: nat)
      requires Valid()
      modifies this`row, this`events, this`failed
      ensures Valid() && failed == old(failed) + FailedCall(r, true) && !r.NoWorkspaceGrant?
      ensures !r.Bound? ==> events == old(events) && revoked == []
      ensures r.Bound? ==>
        && k == |old(events)| && events == old(events) + [Event(Bind(now, msg.agentRef, r.session, CreatorOf(msg), workspace), clock)]
        && revoked == RevokedFor(msg, LeftAt(k, r.session)) && BoundAt(k, msg, r.session, workspace)
    {
      revoked, k := [], |events|;
      var ok := Answers(SessionStart);
      if !ok {
        return StartFailed, revoked, k;
      }
      var session: SessionID := *;
      ok := Answers(RowWrite);
      if !ok {
        return StoreFailed, revoked, k;
      }
      revoked := BindSession(now, msg, session, workspace);
      r := Bound(session);
    }

    /** The atomic write of a new binding; the share it leaves behind is revoked. */
    method BindSession(now: Time, msg: Message, session: SessionID, workspace: Option<WorkspaceChoice>)
      returns (revoked: seq<string>)
      requires Valid()
      modifies this`row, this`events
      ensures Valid() && events == old(events) + [Event(Bind(now, msg.agentRef, session, CreatorOf(msg), workspace), clock)]
      ensures revoked == RevokedFor(msg, LeftAt(|old(events)|, session))
      ensures BoundAt(|old(events)|, msg, session, workspace)
    {
      var left := ShareLeft(threadTTL, row, clock, now, session);
      ghost var before := events;
      Write(Bind(now, msg.agentRef, session, CreatorOf(msg), workspace));
      SamePrefix(threadTTL, before, events, |before|);
      revoked := if left.Some? && Revocable(msg, left.value.1) then [left.value.0.id] else [];
    }

    /** The share on the row of a conversation that has ended, with its creator. */
    function ClosedShare(): Option<(Share, User)>
      reads this
    {
      var seen := Visible(row, clock);
      if seen.Some? && Closed(threadTTL, seen.value, clock) && seen.value.share.Some?
      then Some((seen.value.share.value, RecordedCreator(seen.value))) else None
    }

    /** The share write k, a binding to session, left behind, with its creator. */
    ghost function LeftAt(k: nat, session: SessionID): Option<(Share, User)>
      requires k < |events| && events[k].w.Bind?
      reads this
    {
      ShareLeft(threadTTL, RowAfter(threadTTL, events, k), events[k].at, events[k].w.now, session)
    }

    /** Write k, a binding, left the row bound to session. */
    ghost predicate BoundAt(k: nat, msg: Message, session: SessionID, workspace: Option<WorkspaceChoice>)
      requires k < |events| && events[k].w.Bind?
      reads this
    {
      BoundTo(RowAfter(threadTTL, events, k + 1),
              LiveEntry(threadTTL, Visible(RowAfter(threadTTL, events, k), events[k].at), events[k].w.now), msg, session, workspace)
    }

    function RevokedFor(msg: Message, left: Option<(Share, User)>): seq<string> {
      if left.Some? && Revocable(msg, left.value.1) then [left.value.0.id] else []
    }

    /** Write k bound the thread to session for msg as the live row was read: it
        slid the lifetime of the session that fitted, or bound a new one. */
    ghost predicate Binding(live: Option<Entry>, k: nat, msg: Message, session: SessionID)
      reads this
    {
      && k < |events|
      && match events[k].w
         case Refresh(_) => Fits(live, msg) && live.value.session == session
         case Bind(_, agentRef, s, creator, workspace) =>
           && !Fits(live, msg) && agentRef == msg.agentRef && s == session && creator == CreatorOf(msg)
           && workspace == WorkspaceFor(live, msg) && (Chosen(workspace) ==> msg.granted)
         case _ => false
    }
  }

  /** The share a binding to session at now, on row at the store's time at,
      leaves behind, with its session's creator. */
  function ShareLeft(ttl: Time, row: Option<Entry>, at: Time, now: Time, session: SessionID): Option<(Share, User)> {
    var seen := Visible(row, at);
    if seen.None? || Closed(ttl, seen.value, now) then None
    else if seen.value.share.Some? && seen.value.share.value.session != session
    then Some((seen.value.share.value, RecordedCreator(seen.value))) else None
  }

  /** The one call that failed when sessionFor did, read saying that the row was read. */
  function FailedCall(r: SessionResult, read: bool): seq<Call> {
    match r
    case StoreFailed => [if read then RowWrite else RowRead]
    case StartFailed => [SessionStart]
    case _ => []
  }

  /** The row is bound to session for msg's agent and workspace, by msg's creator
      when was was not bound to it yet, and by the creator recorded when it was. */
  predicate BoundTo(row: Option<Entry>, was: Option<Entry>, msg: Message, session: SessionID, workspace: Option<WorkspaceChoice>) {
    && row.Some? && row.value.session == session && row.value.agentRef == msg.agentRef && row.value.workspace == workspace
    && (session != "" ==>
          row.value.creator == if was.Some? && was.value.session == session then was.value.creator else CreatorOf(msg))
  }

  /** A turn that makes no choice keeps the one recorded for its agent. */
  function WorkspaceFor(live: Option<Entry>, msg: Message): Option<WorkspaceChoice> {
    var e := if live.Some? then live.value else EMPTY;
    if msg.workspace.None? && e.agentRef == msg.agentRef then e.workspace else msg.workspace
  }

  /** The session the live row is bound to is the one msg's turn runs on. */
  predicate Fits(live: Option<Entry>, msg: Message) {
    live.Some? && live.value.session != "" && live.value.agentRef == msg.agentRef
    && WorkspaceFor(live, msg) == live.value.workspace
  }

  /** A turn goes on in the thread's session unless it names another agent or chooses
      another workspace than that was started with; a turn that chooses none is of the
      agent's recorded one, if any. */
  lemma FitsExactly(live: Option<Entry>, msg: Message)
    ensures Fits(live, msg) <==>
      && live.Some? && live.value.session != "" && live.value.agentRef == msg.agentRef
      && (msg.workspace.None? || msg.workspace == live.value.workspace)
    ensures msg.workspace.Some? ==> WorkspaceFor(live, msg) == msg.workspace
    ensures msg.workspace.None? ==>
      WorkspaceFor(live, msg) == if live.Some? && live.value.agentRef == msg.agentRef then live.value.workspace else None
  {
  }

  /** A share left behind is revoked exactly when its session's creator is not known, or
      is the person the turn has the token of, or who sends it when it has none. */
  lemma RevokesAs(thread: Thread, msg: Message, share: Share, creator: User)
    ensures thread.RevokedFor(msg, Some((share, creator))) ==
      if creator == "" || (msg.ownerToken != "" && msg.owner == creator) || (msg.ownerToken == "" && msg.sender == creator)
      then [share.id] else []
    ensures thread.RevokedFor(msg, None) == []
  {
  }

  /** What a binding leaves behind: the live row's share of another session, which is
      its recorded creator's, or the initiator's when none is recorded. */
  lemma LeavesShare(ttl: Time, row: Option<Entry>, at: Time, now: Time, session: SessionID, share: Share, creator: User)
    ensures ShareLeft(ttl, row, at, now, session) == Some((share, creator)) <==>
      && row.Some? && !(row.value.ttl > 0 && at - row.value.lastSeen > row.value.ttl)
      && !(ttl > 0 && row.value.lastSeen != 0 && now - row.value.lastSeen > ttl)
      && row.value.share == Some(share) && share.session != session
      && creator == if row.value.creator != "" then row.value.creator else row.value.initiator
  {
  }

  /** The row depends on the writes so far only. */
  lemma {:induction false} SamePrefix(ttl: Time, a: seq<Event>, b: seq<Event>, n: nat)
    requires n <= |a| <= |b| && forall i :: 0 <= i < n ==> a[i] == b[i]
    ensures RowAfter(ttl, a, n) == RowAfter(ttl, b, n)
  {
    if n > 0 { SamePrefix(ttl, a, b, n - 1); }
  }
}
