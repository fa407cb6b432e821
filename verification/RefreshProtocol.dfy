/** Refresh-token rotation across gateway processes that share one link store,
    as a step relation: any number of processes, one Slack user, one store, one
    muster and a non-decreasing clock. A step is one atomic section of the
    gateway's code: one critical section on the links map, one store operation,
    one clock reading or one answer from muster. */
module RefreshProtocol {
  import opened LinkModel

  /** One entry of a process's copy of the store. stored is the refresh token the
      store still holds while a dirty entry carries its successor. */
  datatype Entry = Entry(
    link: Link, checked: Time, dirty: bool,
    served: Option<Time>, refreshed: Option<Time>, stored: Option<Token>)

  datatype Fetched = Found(link: Link) | Missing | Broken

  /** A store read in progress: when it began, and the store's answer. */
  datatype Read = Read(start: Time, answer: Option<Fetched>)

  /** What the thread that holds the user's lock is about to do. */
  datatype PC =
    | Idle
    | Loading(read: Read)
    | Loaded(link: Link)
    | Trying(link: Link, at: Time)          // clock read, lease write next
    | Ready(link: Link, leased: bool)       // request next
    | InFlight(link: Link, leased: bool)    // muster has not answered
    | Rotated(link: Link, next: Link, leased: bool)
    | Refused(link: Link, leased: bool)
    | Unanswered(link: Link, leased: bool)
    | Recording(presented: Token, next: Link)
    | Saving(next: Link)
    | Written                               // the store has it, markClean next
    | Adopting(link: Link)
    | Forgetting
    | Dropping(refused: Token, must: bool)
    | Unlinking(lost: Option<Token>, must: bool)
    | Flushing(link: Link, stored: Option<Token>)

  datatype Proc = Proc(entry: Option<Entry>, loads: seq<Read>, pc: PC)

  /** What the processes share: the clock, the store and muster's books. */
  datatype World = World(
    now: Time,
    store: Option<Link>,
    issued: set<Token>,           // by muster, ever
    rotated: set<Token>,          // spent at muster
    replayed: set<Token>)         // presented although rotated

  datatype State = State(w: World, procs: map<Holder, Proc>, used: set<Holder>)

  // --- the process-local copy ---------------------------------------------

  predicate IsDirty(e: Option<Entry>) { e.Some? && e.value.dirty }

  function Put(was: Option<Entry>, link: Link, checked: Time, dirty: bool): Entry {
    Entry(link.(lease := None), checked, dirty,
          if was.Some? then was.value.served else None,
          if was.Some? then was.value.refreshed else None,
          if dirty && IsDirty(was) then was.value.stored else None)
  }

  /** The entry answers a read at now without asking the store. */
  predicate Fresh(e: Option<Entry>, now: Time) {
    e.Some? && (e.value.dirty || now - e.value.checked < LINK_CACHE_TTL)
  }

  /** What load leaves in the copy once the store has answered. */
  function Commit(e: Option<Entry>, read: Read): Option<Entry>
    requires read.answer.Some?
  {
    if e.Some? && (e.value.dirty || e.value.checked >= read.start) then e
    else match read.answer.value
      case Found(link) => Some(Put(e, link, read.start, false))
      case Missing => None
      case Broken => if e.Some? then Some(e.value.(checked := read.start)) else None
  }

  /** The link load returns then, None when it returns an error. */
  function Committed(e: Option<Entry>, read: Read): Option<Link>
    requires read.answer.Some?
  {
    if e.Some? && (e.value.dirty || e.value.checked >= read.start) then Some(e.value.link)
    else match read.answer.value
      case Found(link) => Some(link)
      case Missing => None
      case Broken => if e.Some? then Some(e.value.link) else None
  }

  function Fetch(store: Option<Link>, failed: bool): Fetched {
    if failed then Broken else if store.Some? then Found(store.value) else Missing
  }

  // --- the atomic sections of one process -----------------------------------

  datatype Op =
    // a load outside the user's lock
    | LoadBegin
    | LoadAnswer(i: nat, failed: bool)
    | LoadCommit(i: nat)
    | Stamp(served: Option<Time>, refreshed: Option<Time>)
    // under the user's lock
    | LockedLoad
    | LockedAnswer(failed: bool)
    | LockedCommit
    | GiveUp
    | TryLease
    | LeaseWrite(failed: bool)
    | Send
    | Rotate(token: Token, idToken: string, expiry: Option<Time>)
    | Refuse
    | Fail
    | Release(failed: bool)
    | RecordPut
    | RecordWrite(failed: bool)
    | SavePut
    | SaveWrite(failed: bool)
    | SignIn(link: Link)
    | MarkClean
    | Adopt
    | Forget
    | DropForget
    | DropWrite(failed: bool)
    | UnlinkForget
    | UnlinkDelete(failed: bool)
    | FlushStart
    | FlushWrite(failed: bool)

  predicate CanDo(w: World, pr: Proc, op: Op) {
    match op
    case LoadBegin => true
    case LoadAnswer(i, _) => i < |pr.loads| && pr.loads[i].answer.None?
    case LoadCommit(i) => i < |pr.loads| && pr.loads[i].answer.Some?
    case Stamp(_, _) => pr.entry.Some?
    case LockedLoad => pr.pc.Idle?
    case LockedAnswer(_) => pr.pc.Loading? && pr.pc.read.answer.None?
    case LockedCommit => pr.pc.Loading? && pr.pc.read.answer.Some?
    case GiveUp => pr.pc.Loaded?
    case TryLease => pr.pc.Loaded?
    case LeaseWrite(_) => pr.pc.Trying?
    case Send => pr.pc.Ready?
    case Rotate(token, _, _) => pr.pc.InFlight? && pr.pc.link.refreshToken !in w.rotated && token !in w.issued
    case Refuse => pr.pc.InFlight?
    case Fail => pr.pc.InFlight?
    case Release(_) => pr.pc.Unanswered?
    case RecordPut => pr.pc.Rotated? && pr.pc.leased
    case RecordWrite(_) => pr.pc.Recording?
    case SavePut => pr.pc.Rotated? && !pr.pc.leased
    case SaveWrite(_) => pr.pc.Saving?
    case SignIn(link) => pr.pc.Idle? && link.refreshToken !in w.issued && link.lease.None?
    case MarkClean => pr.pc.Written?
    case Adopt => pr.pc.Adopting?
    case Forget => pr.pc.Forgetting?
    case DropForget => pr.pc.Refused?
    case DropWrite(failed) => pr.pc.Dropping? && !(failed && pr.pc.must)
    case UnlinkForget => pr.pc.Idle?
    case UnlinkDelete(failed) => pr.pc.Unlinking? && !(failed && pr.pc.must)
    case FlushStart => pr.pc.Idle? && IsDirty(pr.entry)
    case FlushWrite(_) => pr.pc.Flushing?
  }

  function LoadOp(w: World, pr: Proc, op: Op): Proc
    requires CanDo(w, pr, op) && (op.LoadBegin? || op.LoadAnswer? || op.LoadCommit? || op.Stamp?)
  {
    match op
    case LoadBegin => pr.(loads := pr.loads + [Read(w.now, None)])
    case LoadAnswer(i, failed) =>
      pr.(loads := pr.loads[i := Read(pr.loads[i].start, Some(Fetch(w.store, failed)))])
    case LoadCommit(i) =>
      pr.(entry := Commit(pr.entry, pr.loads[i]), loads := pr.loads[..i] + pr.loads[i + 1..])
    case Stamp(served, refreshed) =>
      pr.(entry := Some(pr.entry.value.(served := served, refreshed := refreshed)))
  }

  function LeaseOp(w: World, p: Holder, pr: Proc, failed: bool): (World, Proc)
    requires CanDo(w, pr, LeaseWrite(failed))
  {
    var link := pr.pc.link;
    if failed then (w, pr.(pc := Loaded(link)))
    else if w.store.None? then (w, pr.(pc := Forgetting))
    else if !Holds(w.store, link.refreshToken) then (w, pr.(pc := Adopting(w.store.value)))
    else if HeldByOther(w.store.value, p, pr.pc.at) then (w, pr.(pc := Loaded(link)))
    else
      (w.(store := Apply(w.store, LeaseAnswer(w.store, link.refreshToken, p, pr.pc.at))), pr.(pc := Ready(link, true)))
  }

  function RecordOp(w: World, pr: Proc, failed: bool): (World, Proc)
    requires CanDo(w, pr, RecordWrite(failed))
  {
    var presented := pr.pc.presented;
    if failed then (w, pr.(pc := Idle))
    else if w.store.None? then (w, pr.(pc := Forgetting))
    else if !Holds(w.store, presented) then (w, pr.(pc := Adopting(w.store.value)))
    else (w.(store := Apply(w.store, RecordAnswer(w.store, presented, pr.pc.next))), pr.(pc := Written))
  }

  function DropOp(w: World, pr: Proc, failed: bool): (World, Proc)
    requires CanDo(w, pr, DropWrite(failed))
  {
    var refused := pr.pc.refused;
    if failed || w.store.None? then (w, pr.(pc := Idle))
    else if !Holds(w.store, refused) then (w, pr.(pc := Adopting(w.store.value)))
    else (w.(store := Apply(w.store, DropAnswer(w.store, refused))), pr.(pc := Idle))
  }

  function FlushOp(w: World, pr: Proc, failed: bool): (World, Proc)
    requires CanDo(w, pr, FlushWrite(failed))
  {
    var link := pr.pc.link;
    if failed then (w, pr.(pc := Idle))
    else if pr.pc.stored.None? then (w.(store := Some(link)), pr.(pc := Written))
    else
      var from := pr.pc.stored.value;
      if w.store.None? then (w, pr.(pc := Forgetting))
      else if !Holds(w.store, from) && !Holds(w.store, link.refreshToken) then (w, pr.(pc := Adopting(w.store.value)))
      else (w.(store := Apply(w.store, RecordAnswer(w.store, from, link))), pr.(pc := Written))
  }

  /** Unleased, the store never held the refused token but the one it was
      rotated from. */
  function RefusedToken(pr: Proc): Token
    requires pr.pc.Refused?
  {
    if !pr.pc.leased && IsDirty(pr.entry) && pr.entry.value.stored.Some? then pr.entry.value.stored.value
    else pr.pc.link.refreshToken
  }

  function Section(w: World, p: Holder, pr: Proc, op: Op): (World, Proc)
    requires CanDo(w, pr, op)
  {
    match op
    case LoadBegin => (w, LoadOp(w, pr, op))
    case LoadAnswer(_, _) => (w, LoadOp(w, pr, op))
    case LoadCommit(_) => (w, LoadOp(w, pr, op))
    case Stamp(_, _) => (w, LoadOp(w, pr, op))
    case LockedLoad =>
      (w, pr.(pc := if Fresh(pr.entry, w.now) then Loaded(pr.entry.value.link) else Loading(Read(w.now, None))))
    case LockedAnswer(failed) => (w, pr.(pc := Loading(Read(pr.pc.read.start, Some(Fetch(w.store, failed))))))
    case LockedCommit =>
      var link := Committed(pr.entry, pr.pc.read);
      (w, pr.(entry := Commit(pr.entry, pr.pc.read), pc := if link.Some? then Loaded(link.value) else Idle))
    case GiveUp => (w, pr.(pc := Idle))
    case TryLease =>
      (w, pr.(pc := if IsDirty(pr.entry) then Ready(pr.pc.link, false) else Trying(pr.pc.link, w.now)))
    case LeaseWrite(failed) => LeaseOp(w, p, pr, failed)
    case Send => (w, pr.(pc := InFlight(pr.pc.link, pr.pc.leased)))
    case Rotate(token, idToken, expiry) =>
      var next := pr.pc.link.(refreshToken := token, idToken := idToken, expiry := expiry, lease := None);
      (w.(issued := w.issued + {token}, rotated := w.rotated + {pr.pc.link.refreshToken}),
       pr.(pc := Rotated(pr.pc.link, next, pr.pc.leased)))
    case Refuse =>
      var token := pr.pc.link.refreshToken;
      (if token in w.rotated then w.(replayed := w.replayed + {token}) else w,
       pr.(pc := Refused(pr.pc.link, pr.pc.leased)))
    case Fail => (w, pr.(pc := Unanswered(pr.pc.link, pr.pc.leased)))
    case Release(failed) =>
      (if failed || !pr.pc.leased then w
       else w.(store := Apply(w.store, ReleaseAnswer(w.store, pr.pc.link.refreshToken, p))), pr.(pc := Idle))
    case RecordPut =>
      var presented := pr.pc.link.refreshToken;
      (w, Proc(Some(Put(pr.entry, pr.pc.next, w.now, true).(stored := Some(presented))), pr.loads,
               Recording(presented, pr.pc.next)))
    case RecordWrite(failed) => RecordOp(w, pr, failed)
    case SavePut => (w, Proc(Some(Put(pr.entry, pr.pc.next, w.now, true)), pr.loads, Saving(pr.pc.next)))
    case SaveWrite(failed) =>
      if failed then (w, pr.(pc := Idle)) else (w.(store := Some(pr.pc.next)), pr.(pc := Written))
    case SignIn(link) =>
      (w.(issued := w.issued + {link.refreshToken}),
       Proc(Some(Put(pr.entry, link, w.now, true)), pr.loads, Saving(link)))
    case MarkClean =>
      (w, Proc(if pr.entry.Some? then Some(pr.entry.value.(dirty := false, checked := w.now)) else None, pr.loads, Idle))
    case Adopt =>
      (w, Proc(Some(Put(pr.entry, pr.pc.link, w.now, false)), pr.loads, Loaded(pr.pc.link)))
    case Forget => (w, Proc(None, pr.loads, Idle))
    case DropForget =>
      (w, Proc(None, pr.loads, Dropping(RefusedToken(pr), !pr.pc.leased)))
    case DropWrite(failed) => DropOp(w, pr, failed)
    case UnlinkForget =>
      (w,
       Proc(None, pr.loads, Unlinking(if IsDirty(pr.entry) then pr.entry.value.stored else None, IsDirty(pr.entry))))
    case UnlinkDelete(failed) =>
      (if failed then w else w.(store := None), pr.(pc := Idle))
    case FlushStart => (w, pr.(pc := Flushing(pr.entry.value.link, pr.entry.value.stored)))
    case FlushWrite(failed) => FlushOp(w, pr, failed)
  }

  // --- the whole system -----------------------------------------------------

  datatype Action =
    | Tick(ms: nat)
    | Start(p: Holder)
    | Crash(p: Holder)
    | Act(p: Holder, op: Op)

  /** Muster has the process's request or has answered it, and the outcome is
      not yet in the store. */
  predicate Unsettled(pr: Proc) {
    (IsDirty(pr.entry) && !pr.pc.Written?) || pr.pc.InFlight? || pr.pc.Rotated? || pr.pc.Dropping? || pr.pc.Unlinking?
  }

  predicate Enabled(s: State, a: Action) {
    match a
    case Tick(_) => true
    case Start(p) => p !in s.used
    case Crash(p) => p in s.procs && !Unsettled(s.procs[p])
    case Act(p, op) => p in s.procs && CanDo(s.w, s.procs[p], op)
  }

  function Do(s: State, a: Action): State
    requires Enabled(s, a)
  {
    match a
    case Tick(ms) => s.(w := s.w.(now := s.w.now + ms))
    case Start(p) => s.(procs := s.procs[p := Proc(None, [], Idle)], used := s.used + {p})
    case Crash(p) => s.(procs := s.procs - {p})
    case Act(p, op) =>
      var (w, pr) := Section(s.w, p, s.procs[p], op);
      State(w, s.procs[p := pr], s.used)
  }
}
