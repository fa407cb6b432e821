/** The one row a conversation thread has in the routing store, and everything
    that writes it. Each writer is a closure run by the store's atomic per-key
    update over the row, or over an empty entry when there is none. */
module ThreadRow {
  import opened LinkModel

  type User = string
  type SessionID = string

  /** A sealed share token opens under the key and for the session it was sealed with. */
  datatype SealedToken = SealedToken(key: string, session: SessionID, token: string)

  datatype Share = Share(id: string, session: SessionID, secret: SealedToken, expiresAt: Time)
  datatype ShareRefusal = ShareRefusal(session: SessionID, reason: string)
  datatype WorkspaceChoice = WorkspaceChoice(namespace: string, name: string, none: bool)
  datatype Delivered = Delivered(textLen: nat, streamTS: string, streamLen: nat)

  const NOTHING_DELIVERED := Delivered(0, "", 0)

  datatype Entry = Entry(
    agentRef: string, session: SessionID, creator: User,
    task: string, resume: Option<map<string, string>>, delivered: Delivered,
    share: Option<Share>, refusal: Option<ShareRefusal>,
    workspace: Option<WorkspaceChoice>, readers: seq<User>,
    initiator: User, granted: seq<User>, held: string, mutedAt: nat,
    createdAt: Time, lastSeen: Time, ttl: Time)

  const EMPTY := Entry("", "", "", "", None, NOTHING_DELIVERED, None, None, None, [], "", [], "", 0, 0, 0, 0)

  /** The store no longer serves the row at now. */
  predicate Expired(e: Entry, now: Time) { e.ttl > 0 && now - e.lastSeen > e.ttl }

  function Visible(row: Option<Entry>, now: Time): Option<Entry> {
    if row.Some? && Expired(row.value, now) then None else row
  }

  // --- thread lifetime --------------------------------------------------------

  function StoreTTL(threadTTL: Time): Time { if threadTTL <= 0 then 0 else 2 * threadTTL }

  /** The conversation on e has ended, though the row may still be there. */
  predicate Closed(threadTTL: Time, e: Entry, now: Time) {
    threadTTL > 0 && e.lastSeen != 0 && now - e.lastSeen > threadTTL
  }

  function LiveEntry(threadTTL: Time, row: Option<Entry>, now: Time): Option<Entry> {
    if row.None? || Closed(threadTTL, row.value, now) then None else row
  }

  // --- the writers ----------------------------------------------------------------

  /** What a thread-record write does to the entry it is handed. */
  datatype Mutation =
    | SetInitiator(user: User)
    | Grant(user: User)
    | AddReader(user: User, checked: Option<WorkspaceChoice>)
    | BindAgent(ref: string)
    | Hold(held: string)
    | Mute(ts: nat)      // Slack timestamps as numbers, 0 while not muted
    | EndMute(ts: nat)
    | RecordDelivered(delivered: Delivered)

  function Mutate(m: Mutation, e: Entry, found: bool): Option<Entry> {
    match m
    case SetInitiator(user) => if e.initiator == "" then Some(e.(initiator := user)) else None
    case Grant(user) =>
      if !found then None
      else Some(if user in e.granted then e else e.(granted := e.granted + [user]))
    case AddReader(user, checked) =>
      if !found || e.workspace != checked || user in e.readers then None else Some(e.(readers := e.readers + [user]))
    case BindAgent(ref) => Some(e.(agentRef := ref))
    case Hold(held) => if held == e.held then None else Some(e.(held := held))
    case Mute(ts) => if !found || e.initiator == "" || e.mutedAt != 0 then None else Some(e.(mutedAt := ts))
    case EndMute(ts) => if !found || e.mutedAt == 0 || ts <= e.mutedAt then None else Some(e.(mutedAt := 0))
    case RecordDelivered(d) => if !found || e.task == "" then None else Some(e.(delivered := d))
  }

  datatype Write =
    | Record(now: Time, m: Mutation)                     // UpdateThreadRecord
    | Refresh(now: Time)                                 // sessionFor on the session already bound
    | Bind(now: Time, agentRef: string, session: SessionID, creator: User, workspace: Option<WorkspaceChoice>)
    | Clear
    | PutShare(session: SessionID, id: string, secret: SealedToken, expiresAt: Time)
    | Refuse(session: SessionID, reason: string)
    | Remember(task: string, resume: Option<map<string, string>>)
    | Forget

  /** A row whose conversation has ended is handed on empty and as not found. */
  function Reopen(threadTTL: Time, e: Entry, found: bool, now: Time): (Entry, bool) {
    if found && Closed(threadTTL, e, now) then (EMPTY, false) else (e, found)
  }

  function RecordWrite(threadTTL: Time, now: Time, m: Mutation, e: Entry, found: bool): Option<Entry> {
    var (e, found) := Reopen(threadTTL, e, found, now);
    var next := Mutate(m, e, found);
    if next.None? then None
    else Some(next.value.(lastSeen := now,
                          createdAt := if next.value.createdAt == 0 then now else next.value.createdAt,
                          ttl := StoreTTL(threadTTL)))
  }

  function BindWrite(threadTTL: Time, w: Write, e: Entry, found: bool): Entry
    requires w.Bind?
  {
    var e := Reopen(threadTTL, e, found, w.now).0;
    var e := if e.session != "" && e.session != w.session
             then e.(task := "", resume := None, delivered := NOTHING_DELIVERED) else e;
    var e := if e.share.Some? && e.share.value.session != w.session then e.(share := None) else e;
    var e := if e.refusal.Some? && e.refusal.value.session != w.session then e.(refusal := None) else e;
    var e := if e.session != w.session then e.(creator := w.creator) else e;
    var e := if e.workspace != w.workspace then e.(readers := []) else e;
    e.(agentRef := w.agentRef, session := w.session, workspace := w.workspace, lastSeen := w.now,
       createdAt := if e.createdAt == 0 then w.now else e.createdAt,
       ttl := if e.ttl <= 0 then StoreTTL(threadTTL) else e.ttl)
  }

  /** The closure's answer: the entry to write, None to leave the store as it is. */
  function Closure(threadTTL: Time, w: Write, e: Entry, found: bool): Option<Entry> {
    match w
    case Record(now, m) => RecordWrite(threadTTL, now, m, e, found)
    case Refresh(now) =>
      if !found then None
      else Some(e.(lastSeen := now, ttl := if e.ttl <= 0 && threadTTL > 0 then StoreTTL(threadTTL) else e.ttl))
    case Bind(_, _, _, _, _) => Some(BindWrite(threadTTL, w, e, found))
    case Clear =>
      if !found then None
      else Some(e.(session := "", task := "", resume := None, share := None, refusal := None, creator := "",
                   workspace := None, readers := []))
    case PutShare(session, id, secret, expiresAt) =>
      if !found || e.session != session then None
      else Some(e.(share := Some(Share(id, session, secret, expiresAt))))
    case Refuse(session, reason) =>
      if !found || e.session != session then None else Some(e.(refusal := Some(ShareRefusal(session, reason))))
    case Remember(task, resume) =>
      if !found then None else Some(e.(task := task, resume := resume, delivered := NOTHING_DELIVERED))
    case Forget =>
      if !found || (e.task == "" && e.resume.None? && e.delivered.textLen == 0 && e.delivered.streamTS == "") then None
      else Some(e.(task := "", resume := None, delivered := NOTHING_DELIVERED))
  }

  /** The row after the store ran the closure at its time at. */
  function Update(threadTTL: Time, w: Write, row: Option<Entry>, at: Time): Option<Entry> {
    var seen := Visible(row, at);
    var next := Closure(threadTTL, w, if seen.Some? then seen.value else EMPTY, seen.Some?);
    if next.Some? then next else row
  }
}
