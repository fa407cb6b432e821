/** What holds in every reachable state of the refresh protocol, in runs whose
    leases outlast the work they cover. */
module RefreshSafety {
  import opened LinkModel
  import opened RefreshProtocol

  // --- who knows and who may present which refresh token ---------------------

  function FetchedTokens(a: Option<Fetched>): set<Token> {
    if a.Some? && a.value.Found? then {a.value.link.refreshToken} else {}
  }

  function OptToken(t: Option<Token>): set<Token> { if t.Some? then {t.value} else {} }

  function EntryTokens(e: Option<Entry>): set<Token> {
    if e.None? then {} else {e.value.link.refreshToken} + OptToken(e.value.stored)
  }

  function PCTokens(pc: PC): set<Token> {
    match pc
    case Idle => {}
    case Loading(read) => FetchedTokens(read.answer)
    case Loaded(link) => {link.refreshToken}
    case Trying(link, _) => {link.refreshToken}
    case Ready(link, _) => {link.refreshToken}
    case InFlight(link, _) => {link.refreshToken}
    case Rotated(link, next, _) => {link.refreshToken, next.refreshToken}
    case Refused(link, _) => {link.refreshToken}
    case Unanswered(link, _) => {link.refreshToken}
    case Recording(presented, next) => {presented, next.refreshToken}
    case Saving(next) => {next.refreshToken}
    case Written => {}
    case Adopting(link) => {link.refreshToken}
    case Forgetting => {}
    case Dropping(refused, _) => {refused}
    case Unlinking(lost, _) => OptToken(lost)
    case Flushing(link, stored) => {link.refreshToken} + OptToken(stored)
  }

  ghost predicate Knows(pr: Proc, t: Token) {
    t in EntryTokens(pr.entry) || t in PCTokens(pr.pc)
    || Loads(pr.loads, t)
  }

  ghost predicate Loads(loads: seq<Read>, t: Token) {
    exists i :: 0 <= i < |loads| && t in FetchedTokens(loads[i].answer)
  }

  /** The tokens only this process knows: the successor muster just answered
      with, and the token of a dirty entry the store has not taken. */
  function Secret(pr: Proc): set<Token> {
    (if pr.pc.Rotated? then {pr.pc.next.refreshToken} else {})
    + (if IsDirty(pr.entry) && !pr.pc.Written? && !(pr.pc.Rotated? && !pr.pc.leased)
       then {pr.entry.value.link.refreshToken} else {})
  }

  /** The token this process presents under the refresh lease it took, until
      muster answers. */
  function Claim(pr: Proc): set<Token> {
    match pr.pc
    case Ready(link, true) => {link.refreshToken}
    case InFlight(link, true) => {link.refreshToken}
    case _ => {}
  }

  /** This process carries what t was rotated into, or is removing t. */
  predicate Heir(pr: Proc, t: Token) {
    || (pr.pc.Rotated? && pr.pc.leased && pr.pc.link.refreshToken == t)
    || (IsDirty(pr.entry) && pr.entry.value.stored == Some(t))
    || (pr.pc.Dropping? && pr.pc.must && pr.pc.refused == t)
    || (pr.pc.Unlinking? && pr.pc.lost == Some(t))
  }

  // --- the assumption on time -------------------------------------------------

  /** This process is to present t, or holds what muster rotated t into. */
  predicate Covered(w: World, pr: Proc, t: Token) {
    t in Claim(pr) || (t in w.rotated && Heir(pr, t))
  }

  /** A process that took the lease on the token the store holds works within
      it: the lease is unexpired until the request is answered and a rotated
      token is written. */
  predicate WithinLease(w: World, p: Holder, pr: Proc) {
    w.store.Some? && LeasedBy(w.store, p) && Covered(w, pr, w.store.value.refreshToken)
    ==> w.now < w.store.value.lease.value.until
  }

  ghost predicate Timely(s: State) {
    forall p :: p in s.procs ==> WithinLease(s.w, p, s.procs[p])
  }

  // --- the invariant ------------------------------------------------------------

  /** The program counter agrees with the copy. */
  predicate Coherent(pr: Proc) {
    match pr.pc
    case Loaded(link) => IsDirty(pr.entry) ==> pr.entry.value.link.refreshToken == link.refreshToken
    case Trying(_, _) => !IsDirty(pr.entry)
    case Ready(link, leased) => Backed(pr, link, leased)
    case InFlight(link, leased) => Backed(pr, link, leased)
    case Rotated(link, next, leased) => Backed(pr, link, leased) && next.lease.None?
    case Refused(link, leased) => Backed(pr, link, leased)
    case Unanswered(link, leased) => Backed(pr, link, leased)
    case Recording(presented, next) =>
      IsDirty(pr.entry) && pr.entry.value.link == next && pr.entry.value.stored == Some(presented)
    case Saving(next) => IsDirty(pr.entry) && pr.entry.value.link == next
    case Dropping(_, _) => !IsDirty(pr.entry)
    case Unlinking(lost, must) => !IsDirty(pr.entry) && (lost.Some? ==> must)
    case Flushing(link, stored) => IsDirty(pr.entry) && pr.entry.value.link == link && pr.entry.value.stored == stored
    case _ => true
  }

  /** A token is presented under a lease by a process whose copy is clean, and
      without one exactly when it is the dirty entry's. */
  predicate Backed(pr: Proc, link: Link, leased: bool) {
    if leased then !IsDirty(pr.entry)
    else IsDirty(pr.entry) && pr.entry.value.link.refreshToken == link.refreshToken
  }

  ghost predicate LocalInv(w: World, p: Holder, pr: Proc) {
    && Coherent(pr)
    && (forall t :: Knows(pr, t) ==> t in w.issued)
    && (forall t :: t in Secret(pr) ==> t !in w.rotated && !Holds(w.store, t))
    && (forall t :: t in Claim(pr) ==> t !in w.rotated && (Holds(w.store, t) ==> LeasedBy(w.store, p)))
    && (pr.pc.Trying? ==> pr.pc.at <= w.now)
    && HeirsSpent(w, pr)
  }

  /** What this process carries a successor of is spent, and no longer stored once
      the process follows the store. */
  predicate HeirsSpent(w: World, pr: Proc) {
    && (pr.entry.Some? && pr.entry.value.stored.Some? ==> pr.entry.value.stored.value in w.rotated)
    && (pr.pc.Rotated? ==> pr.pc.link.refreshToken in w.rotated)
    && ((pr.pc.Adopting? || pr.pc.Forgetting? || pr.pc.Written?) && w.store.Some? ==> !Heir(pr, w.store.value.refreshToken))
  }

  ghost predicate Apart(a: Proc, b: Proc) {
    && (forall t :: t in Secret(a) ==> !Knows(b, t))
    && (forall t :: t in Claim(a) ==> t !in Claim(b))
  }

  ghost predicate StoreInv(w: World, procs: map<Holder, Proc>) {
    && w.rotated <= w.issued
    && (w.store.Some? ==>
          && w.store.value.refreshToken in w.issued
          && (w.store.value.refreshToken in w.rotated ==>
                && w.store.value.lease.Some?
                && w.store.value.lease.value.holder in procs
                && Heir(procs[w.store.value.lease.value.holder], w.store.value.refreshToken)))
  }

  ghost predicate Inv(s: State) {
    && s.w.replayed == {}
    && StoreInv(s.w, s.procs)
    && (forall p :: p in s.procs ==> p in s.used && LocalInv(s.w, p, s.procs[p]))
    && (forall p, q :: p in s.procs && q in s.procs && p != q ==> Apart(s.procs[p], s.procs[q]))
  }

  // --- one section keeps it, seen from the process that runs it -------------------

  /** What the rest of the system grants the process whose section runs. */
  ghost predicate Granted(w: World, p: Holder, pr: Proc) {
    && LocalInv(w, p, pr)
    && WithinLease(w, p, pr)
    && w.rotated <= w.issued
    && (w.store.Some? ==>
          && w.store.value.refreshToken in w.issued
          && (w.store.value.refreshToken in w.rotated ==>
                && w.store.value.lease.Some?
                && w.now < w.store.value.lease.value.until
                && (LeasedBy(w.store, p) ==> Heir(pr, w.store.value.refreshToken))))
  }

  predicate IsLoad(op: Op) { op.LoadBegin? || op.LoadAnswer? || op.LoadCommit? || op.Stamp? }

  /** The section runs inside the store. */
  predicate IsStoreOp(op: Op) {
    || op.LeaseWrite? || op.Release? || op.RecordWrite? || op.SaveWrite? || op.DropWrite? || op.UnlinkDelete?
    || op.FlushWrite?
  }

  lemma LoadsAfter(w: World, pr: Proc, op: Op, t: Token)
    requires CanDo(w, pr, op) && IsLoad(op)
    requires Loads(LoadOp(w, pr, op).loads, t)
    ensures Loads(pr.loads, t) || Holds(w.store, t)
  {
    var loads := LoadOp(w, pr, op).loads;
    var j :| 0 <= j < |loads| && t in FetchedTokens(loads[j].answer);
    match op
    case LoadCommit(i) =>
      assert loads[j] == pr.loads[if j < i then j else j + 1];
    case LoadAnswer(i, _) =>
      assert j != i ==> loads[j] == pr.loads[j];
    case _ =>
      assert j < |pr.loads| ==> loads[j] == pr.loads[j];
  }

  lemma LoadKnows(w: World, pr: Proc, op: Op, t: Token)
    requires CanDo(w, pr, op) && IsLoad(op)
    requires Knows(LoadOp(w, pr, op), t)
    ensures Knows(pr, t) || Holds(w.store, t)
  {
    if Loads(LoadOp(w, pr, op).loads, t) {
      LoadsAfter(w, pr, op, t);
    } else if op.LoadCommit? {
      assert t in FetchedTokens(pr.loads[op.i].answer) ==> Loads(pr.loads, t);
    }
  }

  lemma OwnLoad(w: World, p: Holder, pr: Proc, op: Op)
    requires CanDo(w, pr, op) && Granted(w, p, pr) && IsLoad(op)
    ensures LocalInv(w, p, LoadOp(w, pr, op))
  {
    var pr' := LoadOp(w, pr, op);
    forall t | Knows(pr', t) ensures t in w.issued { LoadKnows(w, pr, op, t); }
    assert pr'.pc == pr.pc;
    assert Secret(pr') == Secret(pr);
  }

  /** The refresh token a section brings into the system. */
  function Issues(op: Op): set<Token> {
    match op
    case Rotate(token, _, _) => {token}
    case SignIn(link) => {link.refreshToken}
    case _ => {}
  }

  /** What a process learns in a section it reads from the store or gets from muster. */
  lemma SectionKnows(w: World, p: Holder, pr: Proc, op: Op, t: Token)
    requires CanDo(w, pr, op)
    requires Knows(Section(w, p, pr, op).1, t)
    ensures Knows(pr, t) || Holds(w.store, t) || t in Issues(op)
  {
    if IsLoad(op) {
      LoadKnows(w, pr, op, t);
    } else {
      assert Section(w, p, pr, op).1.loads == pr.loads;
    }
  }

  lemma StoredCoherent(w: World, p: Holder, pr: Proc, op: Op)
    requires CanDo(w, pr, op) && Coherent(pr) && !IsLoad(op)
    requires IsStoreOp(op)
    ensures Coherent(Section(w, p, pr, op).1)
  {
  }

  lemma LocalCoherent(w: World, p: Holder, pr: Proc, op: Op)
    requires CanDo(w, pr, op) && Coherent(pr) && !IsLoad(op)
    requires !IsStoreOp(op)
    ensures Coherent(Section(w, p, pr, op).1)
  {
  }

  lemma SectionCoherent(w: World, p: Holder, pr: Proc, op: Op)
    requires CanDo(w, pr, op) && Coherent(pr) && !IsLoad(op)
    ensures Coherent(Section(w, p, pr, op).1)
  {
    if IsStoreOp(op) { StoredCoherent(w, p, pr, op); } else { LocalCoherent(w, p, pr, op); }
  }

  /** A secret afterwards is unspent and not stored, and was one before or is new. */
  predicate SecretSafe(pr: Proc, op: Op, w': World, pr': Proc, t: Token) {
    t in Secret(pr') ==> t !in w'.rotated && !Holds(w'.store, t) && (t in Secret(pr) || t in Issues(op))
  }

  lemma StoredSecrets(w: World, p: Holder, pr: Proc, op: Op, t: Token)
    requires CanDo(w, pr, op) && Granted(w, p, pr) && !IsLoad(op)
    requires IsStoreOp(op)
    ensures SecretSafe(pr, op, Section(w, p, pr, op).0, Section(w, p, pr, op).1, t)
  {
  }

  lemma LocalSecrets(w: World, p: Holder, pr: Proc, op: Op, t: Token)
    requires CanDo(w, pr, op) && Granted(w, p, pr) && !IsLoad(op)
    requires !IsStoreOp(op)
    ensures SecretSafe(pr, op, Section(w, p, pr, op).0, Section(w, p, pr, op).1, t)
  {
  }

  lemma SectionSecrets(w: World, p: Holder, pr: Proc, op: Op, t: Token)
    requires CanDo(w, pr, op) && Granted(w, p, pr) && !IsLoad(op)
    ensures SecretSafe(pr, op, Section(w, p, pr, op).0, Section(w, p, pr, op).1, t)
  {
    if IsStoreOp(op) { StoredSecrets(w, p, pr, op, t); } else { LocalSecrets(w, p, pr, op, t); }
  }

  /** A claimed token is unspent, and leased to p while it is stored. */
  predicate ClaimSafe(w: World, p: Holder, pr: Proc, t: Token) {
    t in Claim(pr) ==> t !in w.rotated && (Holds(w.store, t) ==> LeasedBy(w.store, p))
  }

  lemma StoredClaims(w: World, p: Holder, pr: Proc, op: Op, t: Token)
    requires CanDo(w, pr, op) && Granted(w, p, pr) && !IsLoad(op)
    requires IsStoreOp(op)
    ensures ClaimSafe(Section(w, p, pr, op).0, p, Section(w, p, pr, op).1, t)
  {
  }

  lemma LocalClaims(w: World, p: Holder, pr: Proc, op: Op, t: Token)
    requires CanDo(w, pr, op) && Granted(w, p, pr) && !IsLoad(op)
    requires !IsStoreOp(op)
    ensures ClaimSafe(Section(w, p, pr, op).0, p, Section(w, p, pr, op).1, t)
  {
  }

  lemma SectionClaims(w: World, p: Holder, pr: Proc, op: Op, t: Token)
    requires CanDo(w, pr, op) && Granted(w, p, pr) && !IsLoad(op)
    ensures ClaimSafe(Section(w, p, pr, op).0, p, Section(w, p, pr, op).1, t)
  {
    if IsStoreOp(op) { StoredClaims(w, p, pr, op, t); } else { LocalClaims(w, p, pr, op, t); }
  }

  lemma StoredHeirs(w: World, p: Holder, pr: Proc, op: Op)
    requires CanDo(w, pr, op) && Granted(w, p, pr) && !IsLoad(op)
    requires IsStoreOp(op)
    ensures HeirsSpent(Section(w, p, pr, op).0, Section(w, p, pr, op).1)
  {
  }

  lemma LocalHeirs(w: World, p: Holder, pr: Proc, op: Op)
    requires CanDo(w, pr, op) && Granted(w, p, pr) && !IsLoad(op)
    requires !IsStoreOp(op)
    ensures HeirsSpent(Section(w, p, pr, op).0, Section(w, p, pr, op).1)
  {
  }

  lemma SectionHeirs(w: World, p: Holder, pr: Proc, op: Op)
    requires CanDo(w, pr, op) && Granted(w, p, pr) && !IsLoad(op)
    ensures HeirsSpent(Section(w, p, pr, op).0, Section(w, p, pr, op).1)
  {
    if IsStoreOp(op) { StoredHeirs(w, p, pr, op); } else { LocalHeirs(w, p, pr, op); }
  }

  lemma OwnSection(w: World, p: Holder, pr: Proc, op: Op)
    requires CanDo(w, pr, op) && Granted(w, p, pr)
    ensures var (w', pr') := Section(w, p, pr, op); LocalInv(w', p, pr')
  {
    var (w', pr') := Section(w, p, pr, op);
    if IsLoad(op) {
      OwnLoad(w, p, pr, op);
    } else {
      SectionCoherent(w, p, pr, op);
      SectionHeirs(w, p, pr, op);
      forall t ensures Knows(pr', t) ==> t in w'.issued {
        if Knows(pr', t) { SectionKnows(w, p, pr, op, t); }
      }
      forall t ensures t in Secret(pr') ==> t !in w'.rotated && !Holds(w'.store, t) { SectionSecrets(w, p, pr, op, t); }
      forall t ensures t in Claim(pr') ==> t !in w'.rotated && (Holds(w'.store, t) ==> LeasedBy(w'.store, p)) {
        SectionClaims(w, p, pr, op, t);
      }
    }
  }

  // --- seen from another process ---------------------------------------------------

  /** What the sections of another process may change of the shared world. */
  ghost predicate Leaves(w: World, p: Holder, pr: Proc, w': World) {
    && w.issued <= w'.issued
    && w.now == w'.now
    && (forall t :: t in w'.rotated && t !in w.rotated ==> t in Claim(pr) || t in Secret(pr))
    && w.rotated <= w'.rotated
    && (w'.store.Some? ==>
          var t := w'.store.value.refreshToken;
          || t in Secret(pr)
          || (Holds(w.store, t) && w'.store.value.lease == w.store.value.lease)
          || (Holds(w.store, t) && (w.store.value.lease.Some? ==> !HeldByOther(w.store.value, p, w.now))))
  }

  lemma StoredLeaves(w: World, p: Holder, pr: Proc, op: Op)
    requires CanDo(w, pr, op) && Granted(w, p, pr) && IsStoreOp(op)
    ensures Leaves(w, p, pr, Section(w, p, pr, op).0)
  {
  }

  lemma SectionLeaves(w: World, p: Holder, pr: Proc, op: Op)
    requires CanDo(w, pr, op) && Granted(w, p, pr)
    ensures Leaves(w, p, pr, Section(w, p, pr, op).0)
  {
    if IsStoreOp(op) {
      StoredLeaves(w, p, pr, op);
    } else if !IsLoad(op) {
      SectionHeirs(w, p, pr, op);
    }
  }

  lemma OtherSection(w: World, p: Holder, pr: Proc, w': World, q: Holder, qr: Proc)
    requires p != q && Leaves(w, p, pr, w')
    requires LocalInv(w, q, qr) && WithinLease(w, q, qr) && Apart(pr, qr) && Apart(qr, pr)
    ensures LocalInv(w', q, qr)
  {
    forall t | t in Claim(qr) ensures Knows(qr, t) {}
    forall t | t in Secret(qr) ensures Knows(qr, t) {}
    forall t | t in Claim(pr) ensures Knows(pr, t) {}
  }

  /** A new claim is on the token the store holds, and no unexpired lease of
      another process stands against it. */
  lemma NewClaim(w: World, p: Holder, pr: Proc, op: Op, t: Token)
    requires CanDo(w, pr, op) && Granted(w, p, pr) && t in Claim(Section(w, p, pr, op).1)
    ensures t in Claim(pr) || (Holds(w.store, t) && !HeldByOther(w.store.value, p, w.now))
  {
  }

  lemma NewSecret(w: World, p: Holder, pr: Proc, op: Op, t: Token)
    requires CanDo(w, pr, op) && Granted(w, p, pr) && t in Secret(Section(w, p, pr, op).1)
    ensures t in Secret(pr) || t in Issues(op)
  {
    if !IsLoad(op) { SectionSecrets(w, p, pr, op, t); }
  }

  lemma ApartAfter(w: World, p: Holder, pr: Proc, op: Op, q: Holder, qr: Proc)
    requires p != q && CanDo(w, pr, op) && Granted(w, p, pr)
    requires LocalInv(w, q, qr) && WithinLease(w, q, qr) && Apart(pr, qr) && Apart(qr, pr)
    ensures var pr' := Section(w, p, pr, op).1; Apart(pr', qr) && Apart(qr, pr')
  {
    var pr' := Section(w, p, pr, op).1;
    forall t | t in Issues(op) ensures t !in w.issued {}
    forall t | t in Secret(pr') ensures !Knows(qr, t) {
      NewSecret(w, p, pr, op, t);
    }
    forall t | t in Secret(qr) ensures !Knows(pr', t) {
      assert Knows(qr, t);
      if Knows(pr', t) { SectionKnows(w, p, pr, op, t); }
    }
    forall t | t in Claim(pr') ensures t !in Claim(qr) {
      NewClaim(w, p, pr, op, t);
    }
  }

  // --- every step ---------------------------------------------------------------------

  /** The store afterwards: what it holds was issued, and a spent token is there
      still, leased, to its heir when p leased it. */
  predicate StoreFollows(w: World, p: Holder, w': World, pr': Proc) {
    && w'.rotated <= w'.issued
    && (w'.store.Some? ==>
          && w'.store.value.refreshToken in w'.issued
          && (w'.store.value.refreshToken in w'.rotated ==>
                && Holds(w.store, w'.store.value.refreshToken)
                && w'.store == w.store
                && w'.store.value.lease.Some?
                && (LeasedBy(w'.store, p) ==> Heir(pr', w'.store.value.refreshToken))
                && (w'.store.value.refreshToken !in w.rotated ==> LeasedBy(w'.store, p))))
  }

  lemma StoredFollows(w: World, p: Holder, pr: Proc, op: Op)
    requires CanDo(w, pr, op) && Granted(w, p, pr)
    requires IsStoreOp(op)
    ensures StoreFollows(w, p, Section(w, p, pr, op).0, Section(w, p, pr, op).1)
  {
  }

  lemma LocalFollows(w: World, p: Holder, pr: Proc, op: Op)
    requires CanDo(w, pr, op) && Granted(w, p, pr)
    requires !IsStoreOp(op)
    ensures StoreFollows(w, p, Section(w, p, pr, op).0, Section(w, p, pr, op).1)
  {
  }

  lemma SectionFollows(w: World, p: Holder, pr: Proc, op: Op)
    requires CanDo(w, pr, op) && Granted(w, p, pr)
    ensures StoreFollows(w, p, Section(w, p, pr, op).0, Section(w, p, pr, op).1)
  {
    if IsStoreOp(op) { StoredFollows(w, p, pr, op); } else { LocalFollows(w, p, pr, op); }
  }

  lemma TickKeepsInv(s: State, ms: nat)
    requires Inv(s)
    ensures Inv(Do(s, Tick(ms)))
  {
    var w' := s.w.(now := s.w.now + ms);
    forall p | p in s.procs ensures LocalInv(w', p, s.procs[p]) {}
  }

  lemma StartKeepsInv(s: State, p: Holder)
    requires Inv(s) && p !in s.used
    ensures Inv(Do(s, Start(p)))
  {
    var pr := Proc(None, [], Idle);
    assert forall t :: !Knows(pr, t);
    assert LocalInv(s.w, p, pr);
    assert forall q :: q in s.procs ==> Apart(pr, s.procs[q]) && Apart(s.procs[q], pr);
  }

  lemma CrashKeepsInv(s: State, p: Holder)
    requires Inv(s) && Enabled(s, Crash(p))
    ensures Inv(Do(s, Crash(p)))
  {
    var s' := Do(s, Crash(p));
    forall q | q in s'.procs ensures q in s.procs && s'.procs[q] == s.procs[q] {}
    assert s.w.store.Some? && s.w.store.value.refreshToken in s.w.rotated ==> !LeasedBy(s.w.store, p);
  }

  lemma Grants(s: State, p: Holder)
    requires Inv(s) && Timely(s) && p in s.procs
    ensures Granted(s.w, p, s.procs[p])
  {
  }

  /** The heart of it: what muster is presented with, it has not rotated. */
  lemma PresentedIsUnspent(w: World, p: Holder, pr: Proc)
    requires Granted(w, p, pr) && pr.pc.InFlight?
    ensures pr.pc.link.refreshToken !in w.rotated
  {
    assert pr.pc.link.refreshToken in Claim(pr) || pr.pc.link.refreshToken in Secret(pr);
  }

  lemma NothingReplayed(w: World, p: Holder, pr: Proc, op: Op)
    requires CanDo(w, pr, op) && Granted(w, p, pr)
    ensures Section(w, p, pr, op).0.replayed == w.replayed
  {
    if op.Refuse? { PresentedIsUnspent(w, p, pr); }
  }

  lemma ActKeepsStoreInv(s: State, p: Holder, op: Op)
    requires Inv(s) && Timely(s) && Enabled(s, Act(p, op))
    ensures var s' := Do(s, Act(p, op)); StoreInv(s'.w, s'.procs)
  {
    Grants(s, p);
    SectionFollows(s.w, p, s.procs[p], op);
  }

  lemma ActKeepsInv(s: State, p: Holder, op: Op)
    requires Inv(s) && Timely(s) && Enabled(s, Act(p, op))
    ensures Inv(Do(s, Act(p, op)))
  {
    var pr := s.procs[p];
    var w' := Section(s.w, p, pr, op).0;
    var pr' := Section(s.w, p, pr, op).1;
    var s' := Do(s, Act(p, op));
    assert s' == State(w', s.procs[p := pr'], s.used);
    Grants(s, p);
    OwnSection(s.w, p, pr, op);
    NothingReplayed(s.w, p, pr, op);
    ActKeepsStoreInv(s, p, op);
    forall q | q in s.procs && q != p
      ensures LocalInv(w', q, s.procs[q]) && Apart(pr', s.procs[q]) && Apart(s.procs[q], pr')
    {
      SectionLeaves(s.w, p, pr, op);
      OtherSection(s.w, p, pr, w', q, s.procs[q]);
      ApartAfter(s.w, p, pr, op, q, s.procs[q]);
    }
    AllPairs(s.procs, p, pr');
  }

  lemma AllPairs(procs: map<Holder, Proc>, p: Holder, pr': Proc)
    requires p in procs
    requires forall a, b :: a in procs && b in procs && a != b ==> Apart(procs[a], procs[b])
    requires forall q :: q in procs && q != p ==> Apart(pr', procs[q]) && Apart(procs[q], pr')
    ensures var procs' := procs[p := pr'];
      forall a, b :: a in procs' && b in procs' && a != b ==> Apart(procs'[a], procs'[b])
  {
  }

  lemma StepKeepsInv(s: State, a: Action)
    requires Inv(s) && Timely(s) && Enabled(s, a)
    ensures Inv(Do(s, a))
  {
    match a
    case Tick(ms) => TickKeepsInv(s, ms);
    case Start(p) => StartKeepsInv(s, p);
    case Crash(p) => CrashKeepsInv(s, p);
    case Act(p, op) => ActKeepsInv(s, p, op);
  }
}
