/** One gateway process's link manager, section by section as the source runs
    it, against everything other processes, muster and the clock may do in
    between. Every method extends the run of the protocol by valid steps, so
    what holds of all runs holds of these methods. */
module LinkManager {
  import opened LinkModel
  import opened RefreshProtocol
  import opened RefreshSafety
  import opened RefreshRuns
  import opened RefreshLedger
  import Staleness

  const REFRESH_ATTEMPTS := 3
  const TOKEN_REFRESH_SKEW: Time := 60_000
  const DEFAULT_MIN_LIFETIME: Time := 1_500_000
  const REFRESH_SWEEP_INTERVAL: Time := 60_000
  const REFRESH_MIN_INTERVAL: Time := 300_000

  datatype LoadResult = Got(link: Link) | LoadNotLinked | LoadFailed
  datatype LeaseResult = LeaseHeld | LeaseSkipped | LeaseAdopted(link: Link) | LeaseNotLinked | LeaseContended | LeaseFailed
  datatype StoreError = NoError | Conflict | Unavailable
  datatype SaveResult = Stored | KeptDirty | SaveAdopted(link: Link) | SaveNotLinked
  datatype MusterAnswer = Renewed(token: Token, idToken: string, expiry: Option<Time>) | InvalidGrant | NoAnswer
  datatype RequestResult =
    | Fetched(idToken: string, expiry: Option<Time>)
    | Elsewhere(link: Link)
    | RequestNotLinked
    | RequestFailed
  /** fetched says that muster answered with the token in this very call. */
  datatype TokenResult = Served(idToken: string, expiry: Option<Time>, fetched: bool) | NotLinked | Retry

  /** What stood in the way of this process's calls so far, each time it did: store
      reads and lease writes that failed, leases not to be had, requests muster did
      not answer, answered without an id_token or refused, and other writers' links
      found in the store in place of the one in hand. */
  datatype Tally = Tally(
    readsFailed: nat, leasesFailed: nat, misses: nat, unanswered: nat, tokenless: nat, refusals: nat, moves: nat)

  /** Between the two a lease write failed, the lease was not to be had for patience
      rounds and another, or muster did not answer or brought no id_token. */
  predicate Hindered(was: Tally, now: Tally, patience: nat) {
    || now.leasesFailed > was.leasesFailed || now.misses > was.misses + patience
    || now.unanswered > was.unanswered || now.tokenless > was.tokenless
  }

  predicate NoLess(a: Tally, b: Tally) {
    && a.readsFailed <= b.readsFailed && a.leasesFailed <= b.leasesFailed && a.misses <= b.misses && a.unanswered <= b.unanswered
    && a.tokenless <= b.tokenless && a.refusals <= b.refusals && a.moves <= b.moves
  }

  /** The link's id_token may be handed to a turn at now, refreshed being when
      this process last refreshed it. */
  predicate Reusable(link: Link, refreshed: Option<Time>, minLifetime: Time, now: Time) {
    && link.idToken != "" && link.expiry.Some?
    && var left := link.expiry.value - now;
      left >= minLifetime
      || (left > TOKEN_REFRESH_SKEW && refreshed.Some? && now - refreshed.value < TOKEN_REFRESH_SKEW)
  }

  /** A token that expires then covers a turn at now, or is the freshest there is. */
  predicate Covers(expiry: Option<Time>, minLifetime: Time, now: Time) {
    expiry.Some? && (expiry.value - now >= minLifetime || expiry.value - now > TOKEN_REFRESH_SKEW)
  }

  /** This process refreshed the entry's token less than a minute ago. */
  predicate JustRefreshed(e: Option<Entry>, now: Time) {
    e.Some? && e.value.refreshed.Some? && now - e.value.refreshed.value < 60_000
  }

  /** The entry's link has this id_token. */
  predicate Bears(e: Option<Entry>, idToken: string, expiry: Option<Time>) {
    e.Some? && e.value.link.idToken == idToken && e.value.link.expiry == expiry
  }

  /** The token muster's answer brings: handed to the turn as it is. */
  function Brought(answer: MusterAnswer): Option<(string, Option<Time>)> {
    if answer.Renewed? && answer.idToken != "" then Some((answer.idToken, answer.expiry)) else None
  }

  /** The refresher refreshes the entry at now. */
  predicate DueAt(e: Entry, minLifetime: Time, now: Time) {
    && e.link.expiry.Some?
    && !(e.refreshed.Some? && now - e.refreshed.value < REFRESH_MIN_INTERVAL)
    && now + minLifetime + REFRESH_SWEEP_INTERVAL >= e.link.expiry.value
  }

  /** A turn at that time would find no more than the minimum left of the token. */
  predicate RunsShort(expiry: Time, minLifetime: Time, turn: Time) { expiry - turn <= minLifetime }

  /** The refresher takes care of just the tokens that run short before its next sweep,
      a minute later, five minutes apart at least. */
  lemma DueExactly(e: Entry, minLifetime: Time, now: Time)
    requires e.link.expiry.Some?
    ensures DueAt(e, minLifetime, now) <==>
      && (exists turn :: now <= turn <= now + 60_000 && RunsShort(e.link.expiry.value, minLifetime, turn))
      && (e.refreshed.Some? ==> now - e.refreshed.value >= 300_000)
  {
    assert RunsShort(e.link.expiry.value, minLifetime, now + 60_000)
        <==> exists turn :: now <= turn <= now + 60_000 && RunsShort(e.link.expiry.value, minLifetime, turn);
  }

  /** The entry is unsaved, or was checked less than the cache's lifetime ago. */
  predicate NeedsNoRead(e: Option<Entry>, now: Time) { e.Some? && (e.value.dirty || now - e.value.checked < 30_000) }

  /** The sections that run inside the store, a read of it among them. */
  predicate IsCall(op: Op) { IsStoreOp(op) || op.LockedAnswer? }

  predicate CanCall(at: PC, op: Op) { CanDo(World(0, None, {}, {}, {}), Proc(None, [], at), op) }

  /** What a call makes of the store as seen, and where it leaves the lock holder. */
  function Called(p: Holder, at: PC, seen: Option<Link>, op: Op): (Option<Link>, PC)
    requires IsCall(op) && CanCall(at, op)
  {
    var (w, pr) := Section(World(0, seen, {}, {}, {}), p, Proc(None, [], at), op);
    (w.store, pr.pc)
  }

  lemma CallSection(w: World, p: Holder, pr: Proc, op: Op)
    requires IsCall(op) && CanDo(w, pr, op)
    ensures CanCall(pr.pc, op)
    ensures var (w', pr') := Section(w, p, pr, op);
      (w'.store, pr'.pc) == Called(p, pr.pc, w.store, op) && pr'.entry == pr.entry
  {
  }

  /** A section another process, or a load outside the lock, runs meanwhile. */
  predicate Meanwhile(a: Action, p: Holder) {
    match a
    case Tick(_) => true
    case Start(_) => true
    case Crash(q) => q != p
    case Act(q, op) => q != p || op.LoadBegin? || op.LoadAnswer? || op.LoadCommit? || op.Stamp?
  }

  /** The same entry but for when its token was served and refreshed. */
  predicate SameLink(a: Option<Entry>, b: Option<Entry>) {
    a.Some? && b.Some? && b.value == a.value.(served := b.value.served, refreshed := b.value.refreshed)
  }

  lemma MeanwhileKeeps(s: State, a: Action, p: Holder)
    requires Enabled(s, a) && Meanwhile(a, p) && p in s.procs && p in s.used
    ensures var s' := Do(s, a);
      && p in s'.procs && p in s'.used && s'.procs[p].pc == s.procs[p].pc
      && (IsDirty(s.procs[p].entry) ==> SameLink(s.procs[p].entry, s'.procs[p].entry))
      && (!IsDirty(s.procs[p].entry) ==> !IsDirty(s'.procs[p].entry))
  {
  }

  /** However much goes on meanwhile, it leaves the lock holder's place alone,
      never touches the link of a dirty entry and makes no entry dirty: what the
      linker relies on between two of its own sections. */
  lemma {:induction false} MeanwhilesKeep(run: seq<State>, acts: seq<Action>, i: nat, j: nat, p: Holder)
    requires Steps(run, acts) && i <= j < |run| && p in run[i].procs && p in run[i].used
    requires forall k :: i <= k < j ==> Meanwhile(acts[k], p)
    ensures p in run[j].procs && p in run[j].used && run[j].procs[p].pc == run[i].procs[p].pc
    ensures IsDirty(run[i].procs[p].entry) ==> SameLink(run[i].procs[p].entry, run[j].procs[p].entry)
    ensures !IsDirty(run[i].procs[p].entry) ==> !IsDirty(run[j].procs[p].entry)
    decreases j - i
  {
    if i < j {
      MeanwhilesKeep(run, acts, i, j - 1, p);
      assert StepAt(run, acts, j - 1);
      MeanwhileKeeps(run[j - 1], acts[j - 1], p);
    }
  }

  /** A run of the protocol: the states it went through and its actions. */
  datatype Trace = Trace(run: seq<State>, acts: seq<Action>)

  ghost const NOTHING_YET := Trace([State(World(0, None, {}, {}, {}), map[], {})], [])

  type History = t: Trace | IsRun(t.run, t.acts) ghost witness NOTHING_YET

  /** Everything the gateway processes share for one user, and its history. */
  class Cluster {
    var state: State
    ghost var history: History

    ghost predicate Valid()
      reads this
    {
      history.run[|history.acts|] == state
    }

    /** The moment by which so much has happened. */
    ghost function Moment(): nat
      reads this
    {
      |history.acts|
    }

    /** What the store held at moment k. */
    ghost function StoreAt(k: nat): Option<Link>
      requires k <= Moment()
      reads this
    {
      history.run[k].w.store
    }

    /** The history since then only grew. */
    twostate predicate Extends()
      reads this
    {
      && |old(history.run)| <= |history.run|
      && forall i {:trigger history.run[i]} :: 0 <= i < |old(history.run)| ==> history.run[i] == old(history.run)[i]
    }

    /** At moment m muster's answer to p's request stood there, with this id_token. */
    ghost predicate BroughtAt(p: Holder, m: nat, idToken: string, expiry: Option<Time>)
      reads this
    {
      && m <= Moment() && p in history.run[m].procs
      && var pc := history.run[m].procs[p].pc;
         pc.Rotated? && pc.next.idToken == idToken && pc.next.expiry == expiry
    }

    constructor (stored: Option<Link>)
      ensures Valid() && history.acts == []
      ensures state.w.store == stored
    {
      var issued := if stored.Some? then {stored.value.refreshToken} else {};
      var s := State(World(0, stored, issued, {}, {}), map[], {});
      state := s;
      history := Trace([s], []);
    }

    method Step(a: Action)
      requires Valid() && Enabled(state, a)
      modifies this
      ensures Valid() && Extends()
      ensures state == Do(old(state), a) && history.acts == old(history.acts) + [a]
    {
      Extended(history.run, history.acts, a);
      state := Do(state, a);
      history := Trace(history.run + [state], history.acts + [a]);
    }
  }

  class Linker {
    const cluster: Cluster
    const name: Holder
    const user: string
    const minLifetime: Time
    var links: map<string, Entry>
    /** The refresh requests this process has sent so far. */
    var requests: nat
    ghost var tally: Tally

    ghost predicate Valid()
      reads this, cluster
    {
      && cluster.Valid()
      && name in cluster.state.procs
      && Copy() == cluster.state.procs[name].entry
      && minLifetime >= TOKEN_REFRESH_SKEW
    }

    /** The run went on by valid steps and other users' entries are untouched. */
    twostate predicate Kept()
      reads this, cluster
    {
      Valid() && cluster.Extends() && Others() == old(Others())
    }

    ghost function Others(): map<string, Entry>
      reads this
    {
      links - {user}
    }

    function Copy(): Option<Entry>
      reads this
    {
      if user in links then Some(links[user]) else None
    }

    ghost function At(): PC
      requires name in cluster.state.procs
      reads cluster
    {
      cluster.state.procs[name].pc
    }

    function Now(): Time
      reads cluster
    {
      cluster.state.w.now
    }

    function Store(): Option<Link>
      reads cluster
    {
      cluster.state.w.store
    }

    /** A minimum of zero is the default one, and none is below the skew. */
    constructor (cluster: Cluster, name: Holder, user: string, minLifetime: Time)
      requires cluster.Valid() && name !in cluster.state.used
      modifies cluster
      ensures Valid() && At().Idle? && links == map[]
      ensures this.cluster == cluster && this.name == name && this.user == user
    {
      this.cluster := cluster;
      this.name := name;
      this.user := user;
      var least := if minLifetime == 0 then DEFAULT_MIN_LIFETIME else minLifetime;
      this.minLifetime := if least < TOKEN_REFRESH_SKEW then TOKEN_REFRESH_SKEW else least;
      links := map[];
      requests, tally := 0, Tally(0, 0, 0, 0, 0, 0, 0);
      new;
      cluster.Step(Start(name));
    }

    method Section(op: Op)
      requires Valid() && CanDo(cluster.state.w, cluster.state.procs[name], op)
      modifies cluster, this`requests
      ensures cluster.Valid() && cluster.Extends()
      ensures name in cluster.state.procs
      ensures (cluster.state.w, cluster.state.procs[name])
           == RefreshProtocol.Section(old(cluster.state.w), name, old(cluster.state.procs[name]), op)
      ensures cluster.history.acts == old(cluster.history.acts) + [Act(name, op)]
      ensures requests == old(requests) + (if op.Send? then 1 else 0)
    {
      cluster.Step(Act(name, op));
      if op.Send? { requests := requests + 1; }
    }

    /** Other processes, muster and the clock go on while this thread holds the
        user's lock; other threads of this process may load. */
    method Interleave()
      requires Valid()
      modifies cluster, this`links, this`requests
      ensures Kept()
      ensures forall k :: old(cluster.Moment()) <= k < cluster.Moment() ==> Meanwhile(cluster.history.acts[k], name)
      ensures At() == old(At()) && requests == old(requests)
      ensures IsDirty(old(Copy())) ==> SameLink(old(Copy()), Copy())
      ensures !IsDirty(old(Copy())) ==> !IsDirty(Copy())
    {
    }
  
    // --- reading ---------------------------------------------------------------

    /** load's second critical section: what the store answered to a read begun
        at start, unless the copy is newer by now. */
    method Settle(start: Time, answer: Fetched) returns (r: LoadResult)
      modifies this`links
      ensures Others() == old(Others())
      ensures Copy() == Commit(old(Copy()), Read(start, Some(answer)))
      ensures var link := Committed(old(Copy()), Read(start, Some(answer)));
        if link.Some? then r == Got(link.value) else r == (if answer.Missing? then LoadNotLinked else LoadFailed)
    {
      if user in links && (links[user].dirty || links[user].checked >= start) {
        return Got(links[user].link);
      }
      match answer
      case Found(link) =>
        links := links[user := Put(Copy(), link, start, false)];
        return Got(link);
      case Missing =>
        links := links - {user};
        return LoadNotLinked;
      case Broken =>
        if user in links {
          links := links[user := links[user].(checked := start)];
          return Got(links[user].link);
        }
        return LoadFailed;
    }

    /** A call to the store under the user's lock: its section op decides it at moment
        k, and others get in before and after. */
    method Call(op: Op) returns (seen: Option<Link>, ghost k: nat)
      requires Valid() && IsCall(op) && CanDo(cluster.state.w, cluster.state.procs[name], op)
      modifies cluster, this`links, this`requests
      ensures Kept() && requests == old(requests)
      ensures Moment(old(cluster.Moment()), k, seen) && k + 1 <= cluster.Moment()
      ensures CanCall(old(At()), op) && (cluster.StoreAt(k + 1), At()) == Called(name, old(At()), seen, op)
      ensures if IsDirty(old(Copy())) then SameLink(old(Copy()), Copy()) else !IsDirty(Copy())
    {
      Interleave();
      seen, k := Decided(op);
    }

    method Decided(op: Op) returns (seen: Option<Link>, ghost k: nat)
      requires Valid() && IsCall(op) && CanDo(cluster.state.w, cluster.state.procs[name], op)
      modifies cluster, this`links, this`requests
      ensures Kept() && requests == old(requests)
      ensures k == old(cluster.Moment()) && k + 1 <= cluster.Moment() && cluster.StoreAt(k) == seen
      ensures CanCall(old(At()), op) && (cluster.StoreAt(k + 1), At()) == Called(name, old(At()), seen, op)
      ensures if IsDirty(old(Copy())) then SameLink(old(Copy()), Copy()) else !IsDirty(Copy())
    {
      seen, k := Decide(op);
      Interleave();
    }

    method Decide(op: Op) returns (seen: Option<Link>, ghost k: nat)
      requires Valid() && IsCall(op) && CanDo(cluster.state.w, cluster.state.procs[name], op)
      modifies cluster, this`requests
      ensures Valid() && cluster.Extends() && requests == old(requests)
      ensures k == old(cluster.Moment()) && cluster.Moment() == k + 1 && cluster.StoreAt(k) == seen
      ensures CanCall(old(At()), op) && (cluster.StoreAt(k + 1), At()) == Called(name, old(At()), seen, op)
    {
      k := cluster.Moment();
      seen := Store();
      CallSection(cluster.state.w, name, cluster.state.procs[name], op);
      Section(op);
    }

    /** The store's Get under the user's lock. */
    method CallGet(start: Time) returns (answer: Fetched, ghost k: nat)
      requires Valid() && At() == Loading(Read(start, None))
      modifies cluster, this`links, this`requests, this`tally
      ensures Kept() && requests == old(requests)
      ensures At() == Loading(Read(start, Some(answer)))
      ensures old(cluster.Moment()) <= k < cluster.Moment()
      ensures tally == if answer.Broken? then old(tally).(readsFailed := old(tally).readsFailed + 1) else old(tally)
      ensures answer.Missing? ==> cluster.StoreAt(k).None?
      ensures answer.Found? ==> cluster.StoreAt(k) == Some(answer.link)
    {
      var failed: bool := *;
      var seen;
      seen, k := Call(LockedAnswer(failed));
      answer := Fetch(seen, failed);
      if failed { tally := tally.(readsFailed := tally.readsFailed + 1); }
    }

    /** The copy has the link, unsaved or confirmed by the store at time from or later. */
    predicate NotedSince(link: Link, from: Time)
      reads this
    {
      Copy().Some? && Copy().value.link == link && (Copy().value.dirty || Copy().value.checked >= from)
    }

    /** load, under the user's lock: an unsaved copy, or one the store confirmed less
        than the cache's lifetime ago, is answered as it is, and for any other the
        store is asked. */
    method LoadLocked() returns (r: LoadResult, ghost k: nat)
      requires Valid() && At().Idle?
      modifies cluster, this`links, this`requests, this`tally
      ensures Kept() && requests == old(requests)
      ensures if r.Got? then At() == Loaded(r.link) else At().Idle? && Copy().None?
      ensures r.LoadNotLinked? ==>
        old(cluster.Moment()) <= k < cluster.Moment() && cluster.StoreAt(k).None?
      ensures tally == old(tally) || tally == old(tally).(readsFailed := old(tally).readsFailed + 1)
      ensures r.LoadFailed? ==> tally.readsFailed > old(tally).readsFailed
      ensures NeedsNoRead(old(Copy()), old(Now())) ==>
        r == Got(old(Copy()).value.link) && cluster.Moment() == old(cluster.Moment()) + 1 && links == old(links) && Now() == old(Now())
      ensures !NeedsNoRead(old(Copy()), old(Now())) && r.Got? ==>
        || (old(cluster.Moment()) <= k < cluster.Moment() && cluster.StoreAt(k) == Some(r.link))
        || tally.readsFailed > old(tally).readsFailed || NotedSince(r.link, old(Now()))
      ensures r.Got? && IsDirty(Copy()) ==> Copy().value.link == r.link
      ensures r.Got? ==> Bears(Copy(), r.link.idToken, r.link.expiry)
    {
      var now := Now();
      k := cluster.Moment();
      var hit := Fresh(Copy(), now);
      Section(LockedLoad);
      if hit {
        return Got(links[user].link), k;
      }
      r, k := AskStore(now);
    }

    /** The store is asked, and the copy follows unless it is newer by then. */
    method AskStore(start: Time) returns (r: LoadResult, ghost k: nat)
      requires Valid() && At() == Loading(Read(start, None))
      modifies cluster, this`links, this`requests, this`tally
      ensures Kept() && requests == old(requests)
      ensures if r.Got? then At() == Loaded(r.link) else At().Idle? && Copy().None?
      ensures old(cluster.Moment()) <= k < cluster.Moment()
      ensures r.LoadNotLinked? ==> cluster.StoreAt(k).None?
      ensures tally == old(tally) || tally == old(tally).(readsFailed := old(tally).readsFailed + 1)
      ensures r.LoadFailed? ==> tally.readsFailed > old(tally).readsFailed
      ensures r.Got? ==>
        cluster.StoreAt(k) == Some(r.link) || tally.readsFailed > old(tally).readsFailed || NotedSince(r.link, start)
      ensures r.Got? && IsDirty(Copy()) ==> Copy().value.link == r.link
      ensures r.Got? ==> Bears(Copy(), r.link.idToken, r.link.expiry)
    {
      var answer;
      answer, k := CallGet(start);
      Section(LockedCommit);
      r := Settle(start, answer);
    }

    // --- one critical section each ------------------------------------------------

    /** put(link, now, dirty), its section being op. */
    method PutDirty(link: Link, op: Op)
      requires Valid() && CanDo(cluster.state.w, cluster.state.procs[name], op)
      requires op == SignIn(link) || ((op == SavePut || op == RecordPut) && At().next == link)
      modifies cluster, this`links, this`requests
      ensures Kept() && requests == old(requests)
      ensures IsDirty(Copy()) && Copy().value.link == link.(lease := None)
      ensures if op.RecordPut? then At() == Recording(old(At()).link.refreshToken, link) else At() == Saving(link)
      ensures op.RecordPut? ==> Copy().value.stored == Some(old(At()).link.refreshToken)
      ensures !op.RecordPut? ==> Copy().value.stored == if IsDirty(old(Copy())) then old(Copy()).value.stored else None
    {
      var e := Put(Copy(), link, Now(), true);
      if op.RecordPut? {
        e := e.(stored := Some(cluster.state.procs[name].pc.link.refreshToken));
      }
      Section(op);
      links := links[user := e];
    }

    method MarkCopyClean()
      requires Valid() && At().Written?
      modifies cluster, this`links, this`requests
      ensures Kept() && At().Idle? && requests == old(requests)
      ensures Copy() == if old(Copy()).Some? then Some(old(Copy()).value.(dirty := false, checked := old(Now()))) else None
    {
      Section(MarkClean);
      if user in links {
        links := links[user := links[user].(dirty := false, checked := Now())];
      }
    }

    method AdoptStored(link: Link)
      requires Valid() && At() == Adopting(link)
      modifies cluster, this`links, this`requests
      ensures Kept() && At() == Loaded(link) && requests == old(requests)
      ensures Copy().Some? && !IsDirty(Copy()) && Copy().value.link == link.(lease := None)
    {
      Section(Adopt);
      links := links[user := Put(Copy(), link, Now(), false)];
    }

    method ForgetCopy()
      requires Valid() && At().Forgetting?
      modifies cluster, this`links, this`requests
      ensures Kept() && At().Idle? && requests == old(requests)
      ensures Copy().None?
    {
      Section(Forget);
      links := links - {user};
    }

    method ForgetRefused() returns (refused: Token, must: bool)
      requires Valid() && At().Refused?
      modifies cluster, this`links, this`requests
      ensures Kept() && requests == old(requests)
      ensures refused == RefusedToken(old(cluster.state.procs[name])) && must == !old(At()).leased
      ensures At() == Dropping(refused, must) && Copy().None?
    {
      refused, must := RefusedToken(cluster.state.procs[name]), !cluster.state.procs[name].pc.leased;
      Section(DropForget);
      links := links - {user};
    }

    /** What every caller of Update does with what its closure found: a link
        removed elsewhere is forgotten, a newer one adopted, a write recorded. */
    method Follow()
      requires Valid() && (At().Forgetting? || At().Adopting? || At().Written?)
      modifies cluster, this`links, this`requests
      ensures Kept() && requests == old(requests)
      ensures At() == if old(At()).Adopting? then Loaded(old(At()).link) else Idle
      ensures !IsDirty(Copy())
      ensures old(At()).Forgetting? ==> Copy().None?
      ensures old(At()).Adopting? ==> Copy().Some? && Copy().value.link == old(At()).link.(lease := None)
      ensures old(At()).Written? && old(Copy()).Some? ==> Copy().Some? && Copy().value.link == old(Copy()).value.link
    {
      var pc := cluster.state.procs[name].pc;
      if pc.Adopting? {
        AdoptStored(pc.link);
      } else if pc.Forgetting? {
        ForgetCopy();
      } else {
        MarkCopyClean();
      }
    }

    // --- one store call each: others go on before and after it ------------------------

    /** The store call took effect between two moments of this call. */
    ghost predicate Moment(from: nat, k: nat, seen: Option<Link>)
      reads cluster
    {
      && from <= k < cluster.Moment()
      && cluster.StoreAt(k) == seen
    }

    method CallPut(link: Link) returns (failed: bool, ghost k: nat)
      requires Valid() && At() == Saving(link) && IsDirty(Copy())
      modifies cluster, this`links, this`requests
      ensures Kept() && requests == old(requests) && SameLink(old(Copy()), Copy())
      ensures if failed then At().Idle? else At().Written?
      ensures old(cluster.Moment()) <= k < cluster.Moment()
      ensures !failed ==> cluster.StoreAt(k + 1) == Some(link)
    {
      var seen;
      failed := *;
      seen, k := Call(SaveWrite(failed));
    }

    /** Update with the closure that stores a rotated link. */
    method CallRecord(presented: Token, next: Link) returns (failed: bool, seen: Option<Link>, ghost k: nat)
      requires Valid() && At() == Recording(presented, next) && IsDirty(Copy())
      modifies cluster, this`links, this`requests, this`tally
      ensures Kept() && requests == old(requests) && SameLink(old(Copy()), Copy())
      ensures Moment(old(cluster.Moment()), k, seen)
      ensures At() == if failed then Idle else if seen.None? then Forgetting
                      else if !Holds(seen, presented) then Adopting(seen.value) else Written
      ensures tally == if !failed && seen.Some? && !Holds(seen, presented) then old(tally).(moves := old(tally).moves + 1) else old(tally)
      ensures !failed ==> cluster.StoreAt(k + 1) == Apply(seen, RecordAnswer(seen, presented, next))
    {
      failed := *;
      seen, k := Call(RecordWrite(failed));
      if !failed && seen.Some? && seen.value.refreshToken != presented { tally := tally.(moves := tally.moves + 1); }
    }

    /** Update with the closure that removes a refused token's link. */
    method CallDrop(refused: Token, must: bool) returns (failed: bool, seen: Option<Link>, ghost k: nat)
      requires Valid() && At() == Dropping(refused, must) && !IsDirty(Copy())
      modifies cluster, this`links, this`requests, this`tally
      ensures Kept() && requests == old(requests) && !IsDirty(Copy())
      ensures Moment(old(cluster.Moment()), k, seen) && (must ==> !failed)
      ensures At() == if failed || seen.None? || Holds(seen, refused) then Idle else Adopting(seen.value)
      ensures tally == if !failed && seen.Some? && !Holds(seen, refused) then old(tally).(moves := old(tally).moves + 1) else old(tally)
      ensures !failed ==> cluster.StoreAt(k + 1) == Apply(seen, DropAnswer(seen, refused))
    {
      failed := *;
      if must { failed := false; }
      seen, k := Call(DropWrite(failed));
      if !failed && seen.Some? && seen.value.refreshToken != refused { tally := tally.(moves := tally.moves + 1); }
    }

    /** The flush's Put, or its Update for a rotated link. */
    method CallFlush(link: Link, from: Option<Token>) returns (failed: bool, seen: Option<Link>, ghost k: nat)
      requires Valid() && At() == Flushing(link, from) && IsDirty(Copy())
      modifies cluster, this`links, this`requests
      ensures Kept() && requests == old(requests) && SameLink(old(Copy()), Copy())
      ensures Moment(old(cluster.Moment()), k, seen)
      ensures At() == if failed then Idle else if from.None? then Written else if seen.None? then Forgetting
                      else if !Holds(seen, from.value) && !Holds(seen, link.refreshToken) then Adopting(seen.value)
                      else Written
      ensures !failed ==>
        cluster.StoreAt(k + 1) == (if from.None? then Some(link) else Apply(seen, RecordAnswer(seen, from.value, link)))
    {
      failed := *;
      seen, k := Call(FlushWrite(failed));
    }

    /** The lease write's outcome, counted. */
    function Tallied(t: Tally, err: StoreError, seen: Option<Link>, link: Link, at: Time): Tally {
      if err.Unavailable? then t.(leasesFailed := t.leasesFailed + 1)
      else if err.Conflict? then t.(misses := t.misses + 1)
      else if seen.None? then t
      else if !Holds(seen, link.refreshToken) then t.(moves := t.moves + 1)
      else if HeldByOther(seen.value, name, at) then t.(misses := t.misses + 1)
      else t
    }

    /** Update with the closure that takes the refresh lease. */
    method CallLease(link: Link, at: Time) returns (err: StoreError, seen: Option<Link>, ghost k: nat)
      requires Valid() && At() == Trying(link, at) && !IsDirty(Copy())
      modifies cluster, this`links, this`requests, this`tally
      ensures Kept() && requests == old(requests) && !IsDirty(Copy())
      ensures Moment(old(cluster.Moment()), k, seen)
      ensures At() == if !err.NoError? then Loaded(link) else if seen.None? then Forgetting
                      else if !Holds(seen, link.refreshToken) then Adopting(seen.value)
                      else if HeldByOther(seen.value, name, at) then Loaded(link) else Ready(link, true)
      ensures tally == Tallied(old(tally), err, seen, link, at)
      ensures err.NoError? ==>
        cluster.StoreAt(k + 1) == Apply(seen, LeaseAnswer(seen, link.refreshToken, name, at))
    {
      err := *;
      seen, k := Call(LeaseWrite(!err.NoError?));
      tally := Tallied(tally, err, seen, link, at);
    }

    /** Update with the closure that clears this process's lease, best effort. */
    method CallRelease(link: Link, leased: bool) returns (failed: bool, seen: Option<Link>, ghost k: nat)
      requires Valid() && At() == Unanswered(link, leased)
      modifies cluster, this`links, this`requests
      ensures Kept() && requests == old(requests) && At().Idle?
      ensures Moment(old(cluster.Moment()), k, seen)
      ensures leased && !failed ==>
        cluster.StoreAt(k + 1) == Apply(seen, ReleaseAnswer(seen, link.refreshToken, name))
    {
      failed := *;
      seen, k := Call(Release(failed));
    }

    method CallDelete(lost: Option<Token>, must: bool) returns (failed: bool, ghost k: nat)
      requires Valid() && At() == Unlinking(lost, must) && !IsDirty(Copy())
      modifies cluster, this`links, this`requests
      ensures Kept() && requests == old(requests) && At().Idle? && !IsDirty(Copy())
      ensures old(cluster.Moment()) <= k < cluster.Moment() && (must ==> !failed)
      ensures !failed ==> cluster.StoreAt(k + 1).None?
    {
      var seen;
      failed := *;
      if must { failed := false; }
      seen, k := Call(UnlinkDelete(failed));
    }

    // --- writing --------------------------------------------------------------------

    /** save, its first section being op: a sign-in's or an unleased refresh's. */
    method Save(link: Link, op: Op) returns (r: SaveResult, ghost k: nat)
      requires Valid() && CanDo(cluster.state.w, cluster.state.procs[name], op)
      requires op == SignIn(link) || (op == SavePut && At().next == link)
      modifies cluster, this`links, this`requests
      ensures Kept() && At().Idle? && requests == old(requests)
      ensures r.Stored? || r.KeptDirty?
      ensures old(cluster.Moment()) <= k < cluster.Moment()
      ensures r.Stored? ==> cluster.StoreAt(k + 1) == Some(link) && !IsDirty(Copy())
      ensures r.KeptDirty? ==> IsDirty(Copy()) && Copy().value.stored == Inherited(old(Copy()))
      ensures Copy().Some? && Copy().value.link == link.(lease := None)
    {
      PutDirty(link, op);
      var failed;
      failed, k := CallPut(link);
      if failed {
        return KeptDirty, k;
      }
      MarkCopyClean();
      r := Stored;
    }

    /** What the store held when r was decided, and after it. */
    ghost predicate SaveMoment(presented: Token, updated: Link, r: SaveResult, k: nat)
      reads cluster
    {
      && k < cluster.Moment()
      && match r
         case Stored => Holds(cluster.StoreAt(k), presented) && cluster.StoreAt(k + 1) == Some(updated)
         case KeptDirty => true
         case SaveAdopted(link) => cluster.StoreAt(k) == Some(link) && link.refreshToken != presented
         case SaveNotLinked => cluster.StoreAt(k).None?
    }

    /** saveRotated: the link is recorded here first and written second, only
        over the presented token. */
    method SaveRotated(presented: Token, updated: Link) returns (r: SaveResult, ghost k: nat)
      requires Valid() && At().Rotated? && At().leased
      requires At().link.refreshToken == presented && At().next == updated
      modifies cluster, this`links, this`requests, this`tally
      ensures Kept() && requests == old(requests)
      ensures SaveMoment(presented, updated, r, k) && old(cluster.Moment()) <= k
      ensures tally == if r.SaveAdopted? then old(tally).(moves := old(tally).moves + 1) else old(tally)
      ensures At() == if r.SaveAdopted? then Loaded(r.link) else Idle
      ensures r.KeptDirty? ==>
        IsDirty(Copy()) && Copy().value.link == updated.(lease := None) && Copy().value.stored == Some(presented)
      ensures !r.KeptDirty? ==> !IsDirty(Copy())
      ensures r.Stored? ==> Copy().Some? && Copy().value.link == updated.(lease := None)
      ensures r.SaveAdopted? ==> Copy().Some? && Copy().value.link == r.link.(lease := None)
    {
      PutDirty(updated, RecordPut);
      r, k := WriteRotated(presented, updated);
    }

    /** Once recorded here, the rotated link goes to the store. */
    method WriteRotated(presented: Token, updated: Link) returns (r: SaveResult, ghost k: nat)
      requires Valid() && At() == Recording(presented, updated) && IsDirty(Copy())
      modifies cluster, this`links, this`requests, this`tally
      ensures Kept() && requests == old(requests)
      ensures SaveMoment(presented, updated, r, k) && old(cluster.Moment()) <= k
      ensures tally == if r.SaveAdopted? then old(tally).(moves := old(tally).moves + 1) else old(tally)
      ensures At() == if r.SaveAdopted? then Loaded(r.link) else Idle
      ensures if r.KeptDirty? then SameLink(old(Copy()), Copy()) else !IsDirty(Copy())
      ensures r.Stored? ==> Copy().Some? && Copy().value.link == old(Copy()).value.link
      ensures r.SaveAdopted? ==> Copy().Some? && Copy().value.link == r.link.(lease := None)
    {
      var failed, stored;
      failed, stored, k := CallRecord(presented, updated);
      if failed {
        return KeptDirty, k;
      }
      Follow();
      r := if stored.None? then SaveNotLinked
           else if stored.value.refreshToken != presented then SaveAdopted(stored.value)
           else Stored;
    }

    /** dropRefused, for the token of a request muster refused. */
    method DropRefused() returns (r: SaveResult, ghost k: nat)
      requires Valid() && At().Refused?
      modifies cluster, this`links, this`requests, this`tally
      ensures Kept() && requests == old(requests)
      ensures old(cluster.Moment()) <= k < cluster.Moment()
      ensures r.SaveAdopted? || r.SaveNotLinked?
      ensures tally == if r.SaveAdopted? then old(tally).(moves := old(tally).moves + 1) else old(tally)
      ensures if r.SaveAdopted? then At() == Loaded(r.link) else At().Idle?
      ensures !IsDirty(Copy())
      ensures r.SaveAdopted? ==>
        cluster.StoreAt(k) == Some(r.link) && r.link.refreshToken != RefusedToken(old(cluster.state.procs[name]))
      ensures r.SaveNotLinked? && !old(At()).leased ==> cluster.StoreAt(k + 1).None?
      ensures r.SaveAdopted? ==> Copy().Some? && Copy().value.link == r.link.(lease := None)
    {
      var refused, must := ForgetRefused();
      var failed, stored;
      failed, stored, k := CallDrop(refused, must);
      if failed || stored.None? || stored.value.refreshToken == refused {
        return SaveNotLinked, k;
      }
      Follow();
      r := SaveAdopted(stored.value);
    }

    /** flushRotated: a rotated link goes only over the token it was rotated
        from; a sign-in or a sign-out that landed meanwhile wins. */
    method FlushRotated(from: Token, link: Link) returns (done: bool, ghost k: nat)
      requires Valid() && At() == Flushing(link, Some(from)) && IsDirty(Copy())
      modifies cluster, this`links, this`requests
      ensures Kept() && At().Idle? && requests == old(requests)
      ensures if done then !IsDirty(Copy()) else SameLink(old(Copy()), Copy())
      ensures old(cluster.Moment()) <= k < cluster.Moment()
      ensures done ==>
        var seen := cluster.StoreAt(k);
        && cluster.StoreAt(k + 1) == (if Holds(seen, from) then Some(link) else seen)
        && (seen.None? ==> Copy().None?)
        && (seen.Some? && !Holds(seen, from) && !Holds(seen, link.refreshToken) ==>
              Copy().Some? && Copy().value.link == seen.value.(lease := None))
    {
      var failed, current;
      failed, current, k := CallFlush(link, Some(from));
      if failed {
        return false, k;
      }
      Follow();
      if current.Some? && current.value.refreshToken != from && current.value.refreshToken != link.refreshToken {
        Section(GiveUp);
      }
      done := true;
    }

    /** flushOne: whether the store holds the link afterwards, or nothing was
        left to write. */
    method FlushOne() returns (done: bool, ghost k: nat)
      requires Valid() && At().Idle?
      modifies cluster, this`links, this`requests
      ensures Kept() && At().Idle? && requests == old(requests)
      ensures if done then !IsDirty(Copy()) else SameLink(old(Copy()), Copy())
      ensures IsDirty(old(Copy())) && done ==>
        && old(cluster.Moment()) <= k < cluster.Moment()
        && var e, seen := old(Copy()).value, cluster.StoreAt(k);
        cluster.StoreAt(k + 1) == (if e.stored.None? || Holds(seen, e.stored.value) then Some(e.link) else seen)
    {
      k := cluster.Moment();
      if !(user in links && links[user].dirty) {
        return true, k;
      }
      var link, from := links[user].link, links[user].stored;
      Section(FlushStart);
      if from.Some? {
        done, k := FlushRotated(from.value, link);
        return;
      }
      done, k := FlushWhole(link);
    }

    /** A link not rotated from a stored one goes over whatever the store holds. */
    method FlushWhole(link: Link) returns (done: bool, ghost k: nat)
      requires Valid() && At() == Flushing(link, None) && IsDirty(Copy())
      modifies cluster, this`links, this`requests
      ensures Kept() && At().Idle? && requests == old(requests)
      ensures if done then !IsDirty(Copy()) else SameLink(old(Copy()), Copy())
      ensures old(cluster.Moment()) <= k < cluster.Moment()
      ensures done ==> cluster.StoreAt(k + 1) == Some(link)
    {
      var failed, current;
      failed, current, k := CallFlush(link, None);
      if !failed {
        MarkCopyClean();
      }
      done := !failed;
    }

    /** Unlink: the person signs out. The copy goes either way. */
    method Unlink() returns (deleted: bool, ghost k: nat)
      requires Valid() && At().Idle?
      modifies cluster, this`links, this`requests
      ensures Kept() && At().Idle? && requests == old(requests)
      ensures old(cluster.Moment()) <= k < cluster.Moment()
      ensures deleted ==> cluster.StoreAt(k + 1).None?
      ensures IsDirty(old(Copy())) ==> deleted
      ensures !IsDirty(Copy())
    {
      var must := IsDirty(Copy());
      var lost := if must then links[user].stored else None;
      Section(UnlinkForget);
      links := links - {user};
      var failed;
      failed, k := CallDelete(lost, must);
      deleted := !failed;
    }
  
    // --- refreshing -----------------------------------------------------------------

    /** The lease is judged by the clock as read before the store answers. */
    method ReadClock(link: Link)
      requires Valid() && At() == Loaded(link) && !IsDirty(Copy())
      modifies cluster, this`requests
      ensures Kept() && requests == old(requests)
      ensures At() == Trying(link, old(Now())) && !IsDirty(Copy())
    {
      Section(TryLease);
    }

    /** The lease write of one round, judged by now. */
    method AskLease(link: Link) returns (now: Time, err: StoreError, stored: Option<Link>, ghost k: nat)
      requires Valid() && At() == Loaded(link) && !IsDirty(Copy())
      modifies cluster, this`links, this`requests, this`tally
      ensures Kept() && requests == old(requests) && !IsDirty(Copy())
      ensures Moment(old(cluster.Moment()), k, stored) && now == old(Now())
      ensures At() == if !err.NoError? then Loaded(link) else if stored.None? then Forgetting
                      else if !Holds(stored, link.refreshToken) then Adopting(stored.value)
                      else if HeldByOther(stored.value, name, now) then Loaded(link) else Ready(link, true)
      ensures tally == Tallied(old(tally), err, stored, link, now)
      ensures err.NoError? ==> cluster.StoreAt(k + 1) == Apply(stored, LeaseAnswer(stored, link.refreshToken, name, now))
    {
      now := Now();
      ReadClock(link);
      err, stored, k := CallLease(link, now);
    }

    /** One round of acquireRefreshLease; busy when it is to be polled again. */
    method TryLeaseOnce(link: Link) returns (r: LeaseResult, busy: bool, ghost k: nat)
      requires Valid() && At() == Loaded(link) && !IsDirty(Copy())
      modifies cluster, this`links, this`requests, this`tally
      ensures Kept() && requests == old(requests) && !IsDirty(Copy())
      ensures old(cluster.Moment()) <= k < cluster.Moment()
      ensures tally == if busy then old(tally).(misses := old(tally).misses + 1) else Waited(old(tally), r, old(tally).misses)
      ensures busy ==> At() == Loaded(link)
      ensures !busy ==> At() == Outcome(link, r)
      ensures !r.LeaseSkipped? && !r.LeaseContended?
      ensures !busy ==> LeaseMoment(link, r, k)
      ensures r.LeaseAdopted? ==> Copy().Some? && Copy().value.link == r.link.(lease := None)
    {
      var now, err, stored;
      now, err, stored, k := AskLease(link);
      busy := err.Conflict? || (err.NoError? && stored.Some? && stored.value.refreshToken == link.refreshToken
                                && HeldByOther(stored.value, name, now));
      if busy {
        return LeaseFailed, true, k;
      }
      if err.Unavailable? {
        Section(GiveUp);
        return LeaseFailed, false, k;
      }
      if stored.Some? && stored.value.refreshToken == link.refreshToken {
        return LeaseHeld, false, k;
      }
      Follow();
      r := if stored.None? then LeaseNotLinked else LeaseAdopted(stored.value);
    }

    function Waited(t: Tally, r: LeaseResult, misses: nat): Tally {
      t.(misses := misses, leasesFailed := t.leasesFailed + (if r.LeaseFailed? then 1 else 0),
         moves := t.moves + (if r.LeaseAdopted? then 1 else 0))
    }

    /** Where the lock holder stands after r. */
    ghost function Outcome(link: Link, r: LeaseResult): PC {
      match r
      case LeaseHeld => Ready(link, true)
      case LeaseSkipped => Ready(link, false)
      case LeaseAdopted(stored) => Loaded(stored)
      case _ => Idle
    }

    /** What the store held at the moment r was decided, and after it. */
    ghost predicate LeaseMoment(link: Link, r: LeaseResult, k: nat)
      reads cluster
    {
      match r
      case LeaseHeld =>
        && k < cluster.Moment()
        && Holds(cluster.StoreAt(k), link.refreshToken)
        && Holds(cluster.StoreAt(k + 1), link.refreshToken)
        && LeasedBy(cluster.StoreAt(k + 1), name)
      case LeaseAdopted(stored) =>
        k < cluster.Moment() && cluster.StoreAt(k) == Some(stored) && stored.refreshToken != link.refreshToken
      case LeaseNotLinked => k < cluster.Moment() && cluster.StoreAt(k).None?
      case _ => true
    }

    /** acquireRefreshLease on the loaded link's token. patience bounds how often
        another process's lease is polled before the wait runs out. */
    method AcquireRefreshLease(link: Link, patience: nat) returns (r: LeaseResult, ghost k: nat)
      requires Valid() && At() == Loaded(link)
      modifies cluster, this`links, this`requests, this`tally
      ensures Kept() && requests == old(requests)
      ensures At() == Outcome(link, r)
      ensures r.LeaseSkipped? <==> IsDirty(old(Copy()))
      ensures if IsDirty(old(Copy())) then SameLink(old(Copy()), Copy()) else !IsDirty(Copy())
      ensures NoLess(old(tally), tally) && tally.refusals == old(tally).refusals
      ensures tally.moves == old(tally).moves + (if r.LeaseAdopted? then 1 else 0)
      ensures tally.leasesFailed == old(tally).leasesFailed + (if r.LeaseFailed? then 1 else 0)
      ensures if r.LeaseContended? then tally.misses == old(tally).misses + patience + 1
              else tally.misses <= old(tally).misses + patience
      ensures LeaseMoment(link, r, k) && old(cluster.Moment()) <= k
      ensures r.LeaseAdopted? ==> Copy().Some? && Copy().value.link == r.link.(lease := None)
    {
      k := cluster.Moment();
      if user in links && links[user].dirty {
        Section(TryLease);
        return LeaseSkipped, k;
      }
      r, k := PollLease(link, patience);
    }

    /** The rounds of a process whose copy is clean. */
    method PollLease(link: Link, patience: nat) returns (r: LeaseResult, ghost k: nat)
      requires Valid() && At() == Loaded(link) && !IsDirty(Copy())
      modifies cluster, this`links, this`requests, this`tally
      ensures Kept() && requests == old(requests)
      ensures At() == Outcome(link, r) && !r.LeaseSkipped? && !IsDirty(Copy())
      ensures tally == Waited(old(tally), r, tally.misses)
      ensures if r.LeaseContended? then tally.misses == old(tally).misses + patience + 1
              else old(tally).misses <= tally.misses <= old(tally).misses + patience
      ensures LeaseMoment(link, r, k) && old(cluster.Moment()) <= k
      ensures r.LeaseAdopted? ==> Copy().Some? && Copy().value.link == r.link.(lease := None)
    {
      var left, busy := patience, true;
      while true
        invariant Kept() && requests == old(requests)
        invariant At() == Loaded(link) && !IsDirty(Copy())
        invariant 0 <= left <= patience && tally == old(tally).(misses := old(tally).misses + patience - left)
        decreases left
      {
        r, busy, k := TryLeaseOnce(link);
        if !busy {
          return;
        }
        if left == 0 {
          Section(GiveUp);
          return LeaseContended, k;
        }
        left := left - 1;
        Interleave();
      }
    }

    /** Muster's answer, counted. */
    function Heard(t: Tally, answer: MusterAnswer): Tally {
      if answer.NoAnswer? then t.(unanswered := t.unanswered + 1)
      else if answer.InvalidGrant? then t.(refusals := t.refusals + 1)
      else if answer.idToken == "" then t.(tokenless := t.tokenless + 1)
      else t
    }

    /** Muster's answer to the request in flight: it rotates a live token into
        one it never issued before, or refuses; or no answer comes and muster
        did not act on the request. */
    method MusterAnswers(link: Link, leased: bool) returns (answer: MusterAnswer)
      requires Valid() && At() == InFlight(link, leased)
      modifies cluster, this`requests, this`tally
      ensures Valid() && cluster.Extends() && requests == old(requests)
      ensures Answered(link, leased, answer) && tally == Heard(old(tally), answer)
    {
      var choice: int := *;
      var token: Token := *;
      var idToken: string := *;
      var expiry: Option<Time> := *;
      if idToken == "" { expiry := None; }
      if choice == 0 {
        Section(Fail);
        answer := NoAnswer;
      } else if choice == 1 || link.refreshToken in cluster.state.w.rotated || token in cluster.state.w.issued {
        Section(Refuse);
        answer := InvalidGrant;
      } else {
        Section(Rotate(token, idToken, expiry));
        answer := Renewed(token, idToken, expiry);
      }
      tally := Heard(tally, answer);
    }

    ghost predicate Answered(link: Link, leased: bool, answer: MusterAnswer)
      requires name in cluster.state.procs
      reads cluster
    {
      match answer
      case NoAnswer => At() == Unanswered(link, leased)
      case InvalidGrant => At() == Refused(link, leased)
      case Renewed(token, idToken, expiry) =>
        At() == Rotated(link, link.(refreshToken := token, idToken := idToken, expiry := expiry, lease := None), leased)
        && (idToken == "" ==> expiry.None?)
    }

    /** The request at muster's token endpoint. */
    method Present(link: Link, leased: bool) returns (answer: MusterAnswer, ghost m: nat)
      requires Valid() && At() == Ready(link, leased)
      modifies cluster, this`links, this`requests, this`tally
      ensures Kept() && requests == old(requests) + 1
      ensures if IsDirty(old(Copy())) then SameLink(old(Copy()), Copy()) else !IsDirty(Copy())
      ensures Answered(link, leased, answer) && old(cluster.Moment()) <= m
      ensures tally == Heard(old(tally), answer)
      ensures answer.Renewed? ==> cluster.BroughtAt(name, m, answer.idToken, answer.expiry)
    {
      Section(Send);
      Interleave();
      answer, m := AwaitMuster(link, leased);
    }

    method AwaitMuster(link: Link, leased: bool) returns (answer: MusterAnswer, ghost m: nat)
      requires Valid() && At() == InFlight(link, leased)
      modifies cluster, this`links, this`requests, this`tally
      ensures Kept() && requests == old(requests)
      ensures if IsDirty(old(Copy())) then SameLink(old(Copy()), Copy()) else !IsDirty(Copy())
      ensures Answered(link, leased, answer) && old(cluster.Moment()) <= m
      ensures tally == Heard(old(tally), answer)
      ensures answer.Renewed? ==> cluster.BroughtAt(name, m, answer.idToken, answer.expiry)
    {
      answer := MusterAnswers(link, leased);
      m := cluster.Moment();
      assert cluster.history.run[m] == cluster.state;
      Interleave();
    }
  
    /** sendRefreshRequest: presents the link's token and records the outcome.
        What muster brings is handed on however long it lives, unless another
        writer's link is in the store by then. */
    method SendRefreshRequest(link: Link, leased: bool)
      returns (r: RequestResult, ghost answer: MusterAnswer, ghost k: nat, ghost m: nat)
      requires Valid() && At() == Ready(link, leased)
      requires leased <==> !IsDirty(Copy())
      modifies cluster, this`links, this`requests, this`tally
      ensures Kept() && requests == old(requests) + 1
      ensures Handed(link, leased, answer, r, k) && old(cluster.Moment()) <= k
      ensures old(cluster.Moment()) <= m
      ensures NoLess(old(tally), tally) && Accounted(r, old(tally), tally, k)
      ensures answer.Renewed? ==> cluster.BroughtAt(name, m, answer.idToken, answer.expiry)
    {
      k := cluster.Moment();
      var got;
      got, m := Present(link, leased);
      answer := got;
      if got.InvalidGrant? {
        var refused;
        refused, k := DropRefused();
        return if refused.SaveAdopted? then Elsewhere(refused.link) else RequestNotLinked, answer, k, m;
      }
      if got.NoAnswer? {
        var _, _, _ := CallRelease(link, leased);
        return RequestFailed, answer, k, m;
      }
      r, k := RecordRotation(link, leased, got);
    }

    /** Why a request of this call came to nothing, or whose link is to be used instead. */
    ghost predicate Accounted(r: RequestResult, was: Tally, now: Tally, k: nat)
      requires k <= cluster.Moment()
      reads cluster
    {
      && now.moves == was.moves + (if r.Elsewhere? then 1 else 0)
      && (r.RequestNotLinked? ==> now.refusals > was.refusals || cluster.StoreAt(k).None?)
      && (r.RequestFailed? ==> now.unanswered > was.unanswered || now.tokenless > was.tokenless)
    }

    /** What came of a request: muster's token, unless the store had moved on. */
    ghost predicate Handed(link: Link, leased: bool, answer: MusterAnswer, r: RequestResult, k: nat)
      requires name in cluster.state.procs
      reads this, cluster
    {
      && k < cluster.Moment()
      && (if r.Elsewhere? then At() == Loaded(r.link) && !IsDirty(Copy()) else At().Idle?)
      && match r
         case Fetched(idToken, expiry) =>
           Brought(answer) == Some((idToken, expiry)) && Bears(Copy(), idToken, expiry)
           && Copy().value.refreshed == Some(Now())
         case Elsewhere(stored) =>
           cluster.StoreAt(k) == Some(stored) && Bears(Copy(), stored.idToken, stored.expiry)
           && (answer.InvalidGrant? || (leased && stored.refreshToken != link.refreshToken))
         case RequestNotLinked => answer.InvalidGrant? || (leased && cluster.StoreAt(k).None?)
         case RequestFailed => !answer.InvalidGrant? && Brought(answer).None?
    }

    /** The rotation muster answered with is recorded before anything else. */
    method RecordRotation(link: Link, leased: bool, got: MusterAnswer) returns (r: RequestResult, ghost k: nat)
      requires Valid() && got.Renewed? && Answered(link, leased, got)
      modifies cluster, this`links, this`requests, this`tally
      ensures Kept() && requests == old(requests)
      ensures Handed(link, leased, got, r, k) && old(cluster.Moment()) <= k
      ensures tally == if r.Elsewhere? then old(tally).(moves := old(tally).moves + 1) else old(tally)
      ensures r.RequestFailed? ==> got.idToken == ""
      ensures r.RequestNotLinked? ==> cluster.StoreAt(k).None?
    {
      var updated := link.(refreshToken := got.token, idToken := got.idToken, expiry := got.expiry, lease := None);
      var saved;
      if leased {
        saved, k := SaveRotated(link.refreshToken, updated);
        if saved.SaveAdopted? { return Elsewhere(saved.link), k; }
        if saved.SaveNotLinked? { return RequestNotLinked, k; }
      } else {
        saved, k := Save(updated, SavePut);
      }
      if got.idToken == "" {
        return RequestFailed, k;
      }
      NoteRefreshed();
      r := Fetched(got.idToken, got.expiry);
    }

    /** noteRefreshed and noteServed stamp the entry, when there is one. */
    method NoteRefreshed()
      requires Valid()
      modifies cluster, this`links, this`requests
      ensures Kept() && requests == old(requests) && At() == old(At()) && Now() == old(Now())
      ensures Copy() == if old(Copy()).Some? then Some(old(Copy()).value.(refreshed := Some(Now()))) else None
    {
      if user in links {
        var e := links[user].(refreshed := Some(Now()));
        Section(Stamp(e.served, e.refreshed));
        links := links[user := e];
      }
    }

    method NoteServed()
      requires Valid()
      modifies cluster, this`links, this`requests
      ensures Kept() && requests == old(requests) && At() == old(At()) && Now() == old(Now())
      ensures Copy() == if old(Copy()).Some? then Some(old(Copy()).value.(served := Some(Now()))) else None
    {
      if user in links {
        var e := links[user].(served := Some(Now()));
        Section(Stamp(e.served, e.refreshed));
        links := links[user := e];
      }
    }

    method ReusableToken(link: Link) returns (idToken: Option<string>)
      requires Valid()
      ensures idToken.Some? <==>
        Reusable(link, if Copy().Some? then Copy().value.refreshed else None, minLifetime, Now())
      ensures idToken.Some? ==> idToken.value == link.idToken
    {
      var refreshed := if user in links then links[user].refreshed else None;
      idToken := if Reusable(link, refreshed, minLifetime, Now()) then Some(link.idToken) else None;
    }

    /** The loaded link's id_token, when a turn can go on with it. */
    method Reuse(link: Link) returns (idToken: Option<string>)
      requires Valid() && At() == Loaded(link) && Bears(Copy(), link.idToken, link.expiry)
      modifies cluster, this`requests
      ensures Kept() && requests == old(requests) && links == old(links)
      ensures At() == if idToken.Some? then Idle else Loaded(link)
      ensures idToken.Some? ==>
        && idToken.value != "" && Bears(Copy(), idToken.value, link.expiry) && Covers(link.expiry, minLifetime, Now())
        && (link.expiry.value - Now() >= minLifetime || JustRefreshed(Copy(), Now()))
      ensures Reusable(link, old(Copy()).value.refreshed, minLifetime, old(Now())) ==> idToken.Some?
    {
      idToken := ReusableToken(link);
      if idToken.Some? { Section(GiveUp); }
    }

    /** Muster refused this process's token, or the store held no link at moment k,
        since then. */
    ghost predicate NotThere(was: Tally, from: nat, k: nat)
      reads this, cluster
    {
      tally.refusals > was.refusals || (from <= k < cluster.Moment() && cluster.StoreAt(k).None?)
    }

    /** Since then a lease write failed, another process kept the lease for patience
        rounds and one more, or the store held another link, or none at moment k. */
    ghost predicate NoLease(was: Tally, patience: nat, from: nat, k: nat)
      reads this, cluster
    {
      || tally.leasesFailed > was.leasesFailed || tally.misses > was.misses + patience || tally.moves > was.moves
      || (from <= k < cluster.Moment() && cluster.StoreAt(k).None?)
    }

    /** One attempt of refreshLink; Elsewhere is the link another process wrote
        meanwhile, for the next attempt. */
    method RefreshOnce(link: Link, patience: nat) returns (r: RequestResult, ghost m: nat, ghost k: nat)
      requires Valid() && At() == Loaded(link)
      modifies cluster, this`links, this`requests, this`tally
      ensures Kept() && old(requests) <= requests <= old(requests) + 1
      ensures At() == if r.Elsewhere? then Loaded(r.link) else Idle
      ensures r.Fetched? ==> r.idToken != "" && Bears(Copy(), r.idToken, r.expiry) && requests > old(requests)
      ensures r.Fetched? ==> Copy().value.refreshed == Some(Now())
      ensures r.Fetched? ==> old(cluster.Moment()) <= m && cluster.BroughtAt(name, m, r.idToken, r.expiry)
      ensures NoLess(old(tally), tally) && tally.moves == old(tally).moves + (if r.Elsewhere? then 1 else 0)
      ensures r.RequestNotLinked? ==> NotThere(old(tally), old(cluster.Moment()), k)
      ensures r.RequestFailed? ==> Hindered(old(tally), tally, patience)
      ensures requests > old(requests) || NoLease(old(tally), patience, old(cluster.Moment()), k)
      ensures r.Elsewhere? ==> Bears(Copy(), r.link.idToken, r.link.expiry)
    {
      m := 0;
      var lease;
      lease, k := AcquireRefreshLease(link, patience);
      if lease.LeaseHeld? || lease.LeaseSkipped? {
        ghost var answer;
        r, answer, k, m := SendRefreshRequest(link, lease.LeaseHeld?);
      } else {
        r := if lease.LeaseAdopted? then Elsewhere(lease.link)
             else if lease.LeaseNotLinked? then RequestNotLinked
             else RequestFailed;
      }
    }

    /** A served token is the one in the copy: as muster brought it at moment m of
        this very call and stamped so, or long enough lived. */
    twostate predicate Serves(r: TokenResult, m: nat)
      reads this, cluster
    {
      r.Served? ==>
        && r.idToken != "" && Bears(Copy(), r.idToken, r.expiry)
        && (if r.fetched then
              && requests > old(requests) && Copy().value.refreshed == Some(Now())
              && old(cluster.Moment()) <= m && cluster.BroughtAt(name, m, r.idToken, r.expiry)
            else
              && Covers(r.expiry, minLifetime, Now())
              && (r.expiry.value - Now() >= minLifetime || JustRefreshed(Copy(), Now())))
    }

    /** refreshLink: takes the lease, presents the token, and starts over with
        the link another process wrote meanwhile, a bounded number of times. */
    method RefreshLink(start: Link, patience: nat) returns (r: TokenResult, ghost m: nat, ghost k: nat)
      requires Valid() && At() == Loaded(start)
      modifies cluster, this`links, this`requests, this`tally
      ensures Kept() && At().Idle?
      ensures old(requests) <= requests <= old(requests) + REFRESH_ATTEMPTS
      ensures Serves(r, m) && NoLess(old(tally), tally)
      ensures r.NotLinked? ==> NotThere(old(tally), old(cluster.Moment()), k)
      ensures r.Retry? ==> Hindered(old(tally), tally, patience) || tally.moves >= old(tally).moves + REFRESH_ATTEMPTS
      ensures requests > old(requests) || NoLease(old(tally), patience, old(cluster.Moment()), k)
    {
      m, k := 0, 0;
      var link, attempt := start, 1;
      while true
        invariant Kept() && At() == Loaded(link)
        invariant 1 <= attempt <= REFRESH_ATTEMPTS
        invariant NoLess(old(tally), tally) && tally.moves == old(tally).moves + attempt - 1
        invariant old(requests) <= requests <= old(requests) + attempt - 1
        decreases REFRESH_ATTEMPTS - attempt
      {
        var answer;
        answer, link, m, k := Attempt(link, patience);
        if answer.Some? {
          return answer.value, m, k;
        }
        if attempt == REFRESH_ATTEMPTS {
          Section(GiveUp);
          return Retry, m, k;
        }
        attempt := attempt + 1;
      }
    }

    /** One attempt, and whether the link another process wrote meanwhile will do: no
        answer, and that link, when it is to be refreshed in its turn. */
    method Attempt(link: Link, patience: nat)
      returns (answer: Option<TokenResult>, next: Link, ghost m: nat, ghost k: nat)
      requires Valid() && At() == Loaded(link)
      modifies cluster, this`links, this`requests, this`tally
      ensures Kept() && old(requests) <= requests <= old(requests) + 1 && NoLess(old(tally), tally)
      ensures At() == if answer.Some? then Idle else Loaded(next)
      ensures answer.None? ==> tally.moves == old(tally).moves + 1
      ensures answer.Some? ==> Serves(answer.value, m)
      ensures answer == Some(NotLinked) ==> NotThere(old(tally), old(cluster.Moment()), k)
      ensures answer == Some(Retry) ==> Hindered(old(tally), tally, patience)
      ensures requests > old(requests) || NoLease(old(tally), patience, old(cluster.Moment()), k)
    {
      next := link;
      var r;
      r, m, k := RefreshOnce(link, patience);
      match r
      case Fetched(idToken, expiry) => answer := Some(Served(idToken, expiry, true));
      case RequestNotLinked => answer := Some(NotLinked);
      case RequestFailed => answer := Some(Retry);
      case Elsewhere(stored) =>
        next := stored;
        var cached := Reuse(stored);
        answer := if cached.Some? then Some(Served(cached.value, stored.expiry, false)) else None;
    }

    /** TokenFor, from where it holds the user's lock. Only a token that muster's
        answer brought in this very call, handed on with the expiry it came with,
        can have less than the skew left. */
    method TokenForLocked(patience: nat) returns (r: TokenResult, ghost m: nat, ghost k: nat)
      requires Valid() && At().Idle?
      modifies cluster, this`links, this`requests, this`tally
      ensures Kept() && At().Idle?
      ensures old(requests) <= requests <= old(requests) + REFRESH_ATTEMPTS
      ensures Serves(r, m)
      ensures r.NotLinked? ==> NotThere(old(tally), old(cluster.Moment()), k)
      ensures r.Retry? ==>
        || tally.readsFailed > old(tally).readsFailed || Hindered(old(tally), tally, patience)
        || tally.moves >= old(tally).moves + REFRESH_ATTEMPTS
      ensures r.Served? && (r.expiry.None? || r.expiry.value - Now() < TOKEN_REFRESH_SKEW) ==> r.fetched
      ensures
        (&& NeedsNoRead(old(Copy()), old(Now()))
         && Reusable(old(Copy()).value.link, old(Copy()).value.refreshed, minLifetime, old(Now()))) ==>
        r.Served? && !r.fetched && requests == old(requests)
    {
      m := 0;
      var loaded;
      loaded, k := LoadLocked();
      if !loaded.Got? {
        return if loaded.LoadNotLinked? then NotLinked else Retry, m, k;
      }
      r, m, k := Renew(loaded.link, patience);
    }

    /** The loaded link's token when a turn can go on with it, a fresh one otherwise. */
    method Renew(link: Link, patience: nat) returns (r: TokenResult, ghost m: nat, ghost k: nat)
      requires Valid() && At() == Loaded(link) && Bears(Copy(), link.idToken, link.expiry)
      modifies cluster, this`links, this`requests, this`tally
      ensures Kept() && At().Idle?
      ensures old(requests) <= requests <= old(requests) + REFRESH_ATTEMPTS
      ensures Serves(r, m) && NoLess(old(tally), tally)
      ensures r.NotLinked? ==> NotThere(old(tally), old(cluster.Moment()), k)
      ensures r.Retry? ==> Hindered(old(tally), tally, patience) || tally.moves >= old(tally).moves + REFRESH_ATTEMPTS
      ensures Reusable(link, old(Copy()).value.refreshed, minLifetime, old(Now())) ==>
        r.Served? && !r.fetched && requests == old(requests)
    {
      m, k := 0, 0;
      var cached := Reuse(link);
      if cached.Some? {
        r := Served(cached.value, link.expiry, false);
      } else {
        r, m, k := RefreshLink(link, patience);
      }
      if r.Served? { NoteServed(); }
    }

    /** At moment k this process's entry was due. */
    ghost predicate WasDue(k: nat)
      reads this, cluster
    {
      && k <= cluster.Moment()
      && var s := cluster.history.run[k];
         name in s.procs && s.procs[name].entry.Some? && DueAt(s.procs[name].entry.value, minLifetime, s.w.now)
    }

    /** refreshAheadOfExpiry, the second actor that refreshes beside the turns: when
        its entry, looked at under the lock at moment k, is due, and only then. */
    method RefreshAheadOfExpiry(patience: nat) returns (refreshed: bool, ghost k: nat, ghost j: nat)
      requires Valid() && At().Idle?
      modifies cluster, this`links, this`requests, this`tally
      ensures Kept() && At().Idle? && old(cluster.Moment()) <= k
      ensures old(requests) <= requests <= old(requests) + REFRESH_ATTEMPTS
      ensures refreshed || requests > old(requests) ==> WasDue(k)
      ensures WasDue(k) ==> requests > old(requests) || NoLease(old(tally), patience, old(cluster.Moment()), j)
      ensures refreshed ==> Copy().Some? && Copy().value.link.idToken != ""
    {
      var loaded, _ := LoadLocked();
      k, j := cluster.Moment(), 0;
      assert cluster.history.run[k] == cluster.state;
      if !loaded.Got? {
        return false, k, j;
      }
      if !(user in links && DueAt(links[user], minLifetime, Now())) {
        Section(GiveUp);
        return false, k, j;
      }
      var r;
      ghost var m;
      r, m, j := RefreshLink(loaded.link, patience);
      refreshed := r.Served?;
    }

    /** HandleCallback's save of a completed sign-in, under the user's lock. */
    method CompleteSignIn(link: Link) returns (r: SaveResult)
      requires Valid() && At().Idle?
      requires link.refreshToken !in cluster.state.w.issued && link.lease.None?
      modifies cluster, this`links, this`requests
      ensures Kept() && At().Idle? && requests == old(requests)
      ensures r.Stored? || (r.KeptDirty? && IsDirty(Copy()) && Copy().value.link == link
                            && Copy().value.stored == Inherited(old(Copy())))
    {
      ghost var k;
      r, k := Save(link, SignIn(link));
    }

    // --- without the user's lock ---------------------------------------------------------

    /** Everything else goes on, the thread that holds the user's lock included. */
    method InterleaveAll(read: Read)
      requires Valid() && read in cluster.state.procs[name].loads
      modifies cluster, this`links, this`requests
      ensures Kept() && read in cluster.state.procs[name].loads
    {
    }

    /** The copy has the link, unsaved; or the store held it, or failed a read of this
        process, with the clock at from or later. */
    ghost predicate Recent(link: Link, from: Time)
      reads this, cluster
    {
      && Copy().Some? && Copy().value.link.refreshToken == link.refreshToken
      && (Copy().value.dirty
          || (Copy().value.checked >= from
              && Staleness.Vouched(cluster.history.run, cluster.history.acts, cluster.Moment(), name, link.refreshToken, from)))
    }

    lemma CheckedIsRecent(link: Link, from: Time)
      requires Valid() && Copy().Some? && Copy().value.link.refreshToken == link.refreshToken
      requires Copy().value.dirty || Copy().value.checked >= from
      ensures Recent(link, from)
    {
      if !Copy().value.dirty {
        var h := cluster.history;
        Staleness.CleanIsVouched(h.run, h.acts, |h.acts|, name);
        Staleness.VouchedSince(h.run, h.acts, |h.acts|, name, link.refreshToken, Copy().value.checked, from);
      }
    }

    /** load, outside the user's lock. */
    method Load() returns (r: LoadResult, ghost k: nat)
      requires Valid()
      modifies cluster, this`links, this`requests, this`tally
      ensures Kept()
      ensures r.LoadNotLinked? ==>
        old(cluster.Moment()) <= k < cluster.Moment() && cluster.StoreAt(k).None?
      ensures tally == old(tally) || tally == old(tally).(readsFailed := old(tally).readsFailed + 1)
      ensures r.LoadFailed? ==> tally.readsFailed > old(tally).readsFailed
      ensures NeedsNoRead(old(Copy()), old(Now())) ==> r == Got(old(Copy()).value.link) && cluster.Moment() == old(cluster.Moment())
      ensures !NeedsNoRead(old(Copy()), old(Now())) && r.Got? ==>
        || (old(cluster.Moment()) <= k < cluster.Moment() && cluster.StoreAt(k) == Some(r.link))
        || tally.readsFailed > old(tally).readsFailed || NotedSince(r.link, old(Now()))
      ensures r.Got? ==> Bears(Copy(), r.link.idToken, r.link.expiry) && Recent(r.link, old(Now()) - 29_999)
    {
      k := cluster.Moment();
      var now := Now();
      if Fresh(Copy(), now) {
        CheckedIsRecent(links[user].link, now - 29_999);
        return Got(links[user].link), k;
      }
      r, k := LoadStored();
    }

    /** load's way to the store: the copy follows, unless it is newer by then. */
    method LoadStored() returns (r: LoadResult, ghost k: nat)
      requires Valid()
      modifies cluster, this`links, this`requests, this`tally
      ensures Kept()
      ensures old(cluster.Moment()) <= k < cluster.Moment()
      ensures r.LoadNotLinked? ==> cluster.StoreAt(k).None?
      ensures tally == old(tally) || tally == old(tally).(readsFailed := old(tally).readsFailed + 1)
      ensures r.LoadFailed? ==> tally.readsFailed > old(tally).readsFailed
      ensures r.Got? ==>
        cluster.StoreAt(k) == Some(r.link) || tally.readsFailed > old(tally).readsFailed || NotedSince(r.link, old(Now()))
      ensures r.Got? ==> Bears(Copy(), r.link.idToken, r.link.expiry) && Recent(r.link, old(Now()))
    {
      var now := Now();
      BeginLoad();
      InterleaveAll(Read(now, None));
      var answer;
      answer, k := AnswerLoad(now);
      InterleaveAll(Read(now, Some(answer)));
      r := EndLoad(now, answer);
      if r.Got? { CheckedIsRecent(r.link, now); }
    }

    method BeginLoad()
      requires Valid()
      modifies cluster, this`requests
      ensures Kept() && Read(old(Now()), None) in cluster.state.procs[name].loads
    {
      ghost var loads := cluster.state.procs[name].loads;
      Section(LoadBegin);
      assert cluster.state.procs[name].loads[|loads|] == Read(old(Now()), None);
    }

    method AnswerLoad(start: Time) returns (answer: Fetched, ghost k: nat)
      requires Valid() && Read(start, None) in cluster.state.procs[name].loads
      modifies cluster, this`requests, this`tally
      ensures Kept() && Read(start, Some(answer)) in cluster.state.procs[name].loads
      ensures k == old(cluster.Moment()) < cluster.Moment()
      ensures tally == if answer.Broken? then old(tally).(readsFailed := old(tally).readsFailed + 1) else old(tally)
      ensures answer.Missing? ==> cluster.StoreAt(k).None?
      ensures answer.Found? ==> cluster.StoreAt(k) == Some(answer.link)
    {
      k := cluster.Moment();
      var loads := cluster.state.procs[name].loads;
      var i :| 0 <= i < |loads| && loads[i] == Read(start, None);
      var failed: bool := *;
      answer := Fetch(Store(), failed);
      Section(LoadAnswer(i, failed));
      if failed { tally := tally.(readsFailed := tally.readsFailed + 1); }
      assert cluster.state.procs[name].loads[i] == Read(start, Some(answer));
    }

    method EndLoad(start: Time, answer: Fetched) returns (r: LoadResult)
      requires Valid() && Read(start, Some(answer)) in cluster.state.procs[name].loads
      modifies cluster, this`links, this`requests
      ensures Kept()
      ensures Copy() == Commit(old(Copy()), Read(start, Some(answer)))
      ensures r.LoadNotLinked? ==> answer.Missing?
      ensures r.LoadFailed? ==> answer.Broken?
      ensures r.Got? ==> answer == Found(r.link) || answer.Broken? || NotedSince(r.link, start)
      ensures r.Got? ==> Bears(Copy(), r.link.idToken, r.link.expiry)
      ensures r.Got? ==>
        Copy().value.link.refreshToken == r.link.refreshToken && (Copy().value.dirty || Copy().value.checked >= start)
    {
      var loads := cluster.state.procs[name].loads;
      var i :| 0 <= i < |loads| && loads[i] == Read(start, Some(answer));
      Section(LoadCommit(i));
      r := Settle(start, answer);
    }

    /** TokenFor's fast path: the copy's id_token when it covers a turn. */
    method TokenForFast() returns (idToken: Option<string>, expiry: Option<Time>)
      requires Valid()
      modifies cluster, this`links, this`requests, this`tally
      ensures Kept()
      ensures idToken.Some? ==>
        && idToken.value != "" && Bears(Copy(), idToken.value, expiry) && Covers(expiry, minLifetime, Now())
        && (expiry.value - Now() >= minLifetime || JustRefreshed(Copy(), Now()))
        && Recent(Copy().value.link, old(Now()) - 29_999)
      ensures
        (&& NeedsNoRead(old(Copy()), old(Now()))
         && Reusable(old(Copy()).value.link, old(Copy()).value.refreshed, minLifetime, old(Now()))) ==>
        idToken == Some(old(Copy()).value.link.idToken) && expiry == old(Copy()).value.link.expiry
    {
      ghost var since := Now() - 29_999;
      var loaded, _ := Load();
      if !loaded.Got? {
        return None, None;
      }
      idToken := ReusableToken(loaded.link);
      expiry := loaded.link.expiry;
      if idToken.Some? {
        NoteServed();
        CheckedIsRecent(loaded.link, since);
      }
    }
  }

  /** Whatever the gateway processes of a cluster did, in any order, muster has
      seen no replay, as long as the work was done within the leases. */
  lemma ClusterNeverReplays(c: Cluster)
    requires c.Valid() && AllTimely(c.history.run)
    ensures c.state.w.replayed == {}
    ensures forall t :: t in c.state.w.issued ==>
      Carried(c.state, t) || exists k: nat :: k < c.Moment() && GivenUp(c.history.run, c.history.acts, k, t)
  {
    var h := c.history;
    NoReplay(h.run, h.acts, |h.acts|);
    forall t | t in c.state.w.issued
      ensures Carried(c.state, t) || exists k: nat :: k < c.Moment() && GivenUp(h.run, h.acts, k, t)
    {
      NoTokenLost(h.run, h.acts, |h.acts|, t);
    }
  }
}
