/** The refresh protocol over whole runs: no token is replayed, and no write
    undoes a sign-in or a sign-out. */
module RefreshRuns {
  import opened LinkModel
  import opened RefreshProtocol
  import opened RefreshSafety

  /** No process runs yet; the store may hold a link from before. */
  ghost predicate Init(s: State) {
    && s.procs == map[]
    && s.w.rotated == {} && s.w.replayed == {}
    && s.w.issued == (if s.w.store.Some? then {s.w.store.value.refreshToken} else {})
  }

  /** run[i + 1] is run[i] after acts[i]. */
  ghost predicate StepAt(run: seq<State>, acts: seq<Action>, i: nat)
    requires i < |acts| && |run| == |acts| + 1
  {
    Enabled(run[i], acts[i]) && run[i + 1] == Do(run[i], acts[i])
  }

  ghost predicate Steps(run: seq<State>, acts: seq<Action>) {
    && |run| == |acts| + 1
    && forall i :: 0 <= i < |acts| ==> StepAt(run, acts, i)
  }

  lemma Extended(run: seq<State>, acts: seq<Action>, a: Action)
    requires Steps(run, acts) && Enabled(run[|acts|], a)
    ensures Steps(run + [Do(run[|acts|], a)], acts + [a])
  {
    var run', acts' := run + [Do(run[|acts|], a)], acts + [a];
    forall i | 0 <= i < |acts'| ensures StepAt(run', acts', i) {
      assert i < |acts| ==> StepAt(run, acts, i);
    }
  }

  ghost predicate IsRun(run: seq<State>, acts: seq<Action>) {
    Steps(run, acts) && Init(run[0])
  }

  ghost predicate AllTimely(run: seq<State>) {
    forall i :: 0 <= i < |run| ==> Timely(run[i])
  }

  lemma {:induction false} RunInv(run: seq<State>, acts: seq<Action>, i: nat)
    requires IsRun(run, acts) && AllTimely(run) && i < |run|
    ensures Inv(run[i])
  {
    if i > 0 {
      RunInv(run, acts, i - 1);
      assert StepAt(run, acts, i - 1);
      StepKeepsInv(run[i - 1], acts[i - 1]);
    }
  }

  /** In a timely run no process ever presents a rotated token, and whenever the
      store holds one, its lease is unexpired and belongs to the one process
      that carries the successor or is removing the link. */
  lemma NoReplay(run: seq<State>, acts: seq<Action>, i: nat)
    requires IsRun(run, acts) && AllTimely(run) && i < |run|
    ensures run[i].w.replayed == {}
    ensures forall p :: p in run[i].procs && run[i].procs[p].pc.InFlight? ==>
      run[i].procs[p].pc.link.refreshToken !in run[i].w.rotated
    ensures var w := run[i].w;
      w.store.Some? && w.store.value.refreshToken in w.rotated ==>
        && w.store.value.lease.Some?
        && w.now < w.store.value.lease.value.until
        && w.store.value.lease.value.holder in run[i].procs
        && Heir(run[i].procs[w.store.value.lease.value.holder], w.store.value.refreshToken)
  {
    RunInv(run, acts, i);
    forall p | p in run[i].procs && run[i].procs[p].pc.InFlight?
      ensures run[i].procs[p].pc.link.refreshToken !in run[i].w.rotated
    {
      Grants(run[i], p);
      PresentedIsUnspent(run[i].w, p, run[i].procs[p]);
    }
  }

  /** At most one process has a request in flight for a token. One presented
      without a lease is not in the store and no other process knows it. */
  lemma MutualExclusion(run: seq<State>, acts: seq<Action>, i: nat, p: Holder, q: Holder)
    requires IsRun(run, acts) && AllTimely(run) && i < |run|
    requires p in run[i].procs && q in run[i].procs && p != q
    requires run[i].procs[p].pc.InFlight?
    ensures var pr, qr := run[i].procs[p], run[i].procs[q];
      && (qr.pc.InFlight? ==> qr.pc.link.refreshToken != pr.pc.link.refreshToken)
      && (!pr.pc.leased ==> !Knows(qr, pr.pc.link.refreshToken) && !Holds(run[i].w.store, pr.pc.link.refreshToken))
      && (pr.pc.leased && Holds(run[i].w.store, pr.pc.link.refreshToken) ==>
            LeasedBy(run[i].w.store, p) && run[i].w.now < run[i].w.store.value.lease.value.until)
  {
    RunInv(run, acts, i);
    var pr, qr := run[i].procs[p], run[i].procs[q];
    var t := pr.pc.link.refreshToken;
    assert t in Claim(pr) || t in Secret(pr);
    assert qr.pc.InFlight? ==> Knows(qr, qr.pc.link.refreshToken);
    if qr.pc.InFlight? && !qr.pc.leased { assert qr.pc.link.refreshToken in Secret(qr); assert Knows(pr, t); }
  }

  // --- the assumption on time is needed ------------------------------------------------

  /** A run from s on that ends in s'. */
  ghost predicate Leads(s: State, s': State) {
    exists run: seq<State>, acts: seq<Action> ::
      Steps(run, acts) && run[0] == s && run[|acts|] == s'
  }

  lemma LeadsOn(s: State, s': State, a: Action)
    requires Leads(s, s') && Enabled(s', a)
    ensures Leads(s, Do(s', a))
  {
    var run: seq<State>, acts: seq<Action> :| Steps(run, acts) && run[0] == s && run[|acts|] == s';
    var run', acts' := run + [Do(s', a)], acts + [a];
    Extended(run, acts, a);
    assert Steps(run', acts') && run'[0] == s && run'[|acts'|] == Do(s', a);
  }

  lemma LeadsNowhere(s: State)
    ensures Leads(s, s)
  {
    var acts: seq<Action> := [];
    assert Steps([s], acts) && [s][0] == s && [s][|acts|] == s;
  }

  lemma Next(s: State, s': State, a: Action) returns (s'': State)
    requires Leads(s, s') && Enabled(s', a)
    ensures Leads(s, s'') && s'' == Do(s', a)
  {
    LeadsOn(s, s', a);
    s'' := Do(s', a);
  }

  lemma NewcomerLoads(s: State, q: Holder) returns (s': State)
    requires q !in s.used && q !in s.procs && s.w.store.Some?
    ensures Leads(s, s') && q in s'.procs && CanDo(s'.w, s'.procs[q], TryLease)
    ensures s'.procs[q].pc.link == s.w.store.value && !IsDirty(s'.procs[q].entry)
    ensures s'.w == s.w && forall p :: p in s.procs ==> p in s'.procs && s'.procs[p] == s.procs[p]
  {
    LeadsNowhere(s);
    s' := Next(s, s, Start(q));
    s' := Next(s, s', Act(q, LockedLoad));
    s' := Next(s, s', Act(q, LockedAnswer(false)));
    s' := Next(s, s', Act(q, LockedCommit));
  }

  /** A process that starts while no unexpired lease stands on the stored link
      gets to present its token. */
  lemma NewcomerPresents(s: State, q: Holder) returns (s': State)
    requires q !in s.used && q !in s.procs
    requires s.w.store.Some?
    requires s.w.store.value.lease.Some? ==> s.w.store.value.lease.value.until <= s.w.now
    ensures Leads(s, s')
    ensures q in s'.procs && s'.procs[q].pc.InFlight? && s'.procs[q].pc.leased
    ensures s'.procs[q].pc.link.refreshToken == s.w.store.value.refreshToken
    ensures s'.w == s.w.(store := s'.w.store)
    ensures forall p :: p in s.procs ==> p in s'.procs && s'.procs[p] == s.procs[p]
  {
    s' := NewcomerLoads(s, q);
    s' := Next(s, s', Act(q, TryLease));
    s' := Next(s, s', Act(q, LeaseWrite(false)));
    s' := Next(s, s', Act(q, Send));
  }

  /** The assumption is exact: from any state that breaks it, a process that
      starts next can bring about a replay. q and unused are any name and any
      token not used before. */
  lemma LapseReplays(s: State, q: Holder, unused: Token) returns (s': State)
    requires Inv(s) && !Timely(s) && q !in s.used && unused !in s.w.issued
    ensures Leads(s, s') && s'.w.replayed != {}
  {
    var p :| p in s.procs && !WithinLease(s.w, p, s.procs[p]);
    var s1 := NewcomerPresents(s, q);
    if s.w.store.value.refreshToken in s.w.rotated {
      s' := Next(s, s1, Act(q, Refuse));
    } else {
      s' := Next(s, s1, Act(q, Rotate(unused, "", None)));
      s' := ClaimReplays(s, s', p);
    }
  }

  /** p presents the token it claims although muster has rotated it since. */
  lemma ClaimReplays(s: State, s1: State, p: Holder) returns (s': State)
    requires Leads(s, s1) && p in s1.procs && Claim(s1.procs[p]) != {} && s1.procs[p].pc.link.refreshToken in s1.w.rotated
    ensures Leads(s, s') && s'.w.replayed != {}
  {
    s' := s1;
    if s1.procs[p].pc.Ready? { s' := Next(s, s', Act(p, Send)); }
    s' := Next(s, s', Act(p, Refuse));
  }

  // --- sign-ins and sign-outs ---------------------------------------------------------------

  /** Sections that write the store without comparing: a sign-in, the save of an
      unleased refresh, a flush of either, and a sign-out. */
  predicate Unconditional(pr: Proc, op: Op) {
    op.SaveWrite? || op.UnlinkDelete? || (op.FlushWrite? && pr.pc.Flushing? && pr.pc.stored.None?)
  }

  /** The section may take t out of the store unspent: a write that does not
      compare, or the removal of t because muster refused it. */
  predicate MayRemove(pr: Proc, op: Op, t: Token) {
    Unconditional(pr, op) || (op.DropWrite? && pr.pc.Dropping? && pr.pc.refused == t)
  }

  predicate Forces(s: State, a: Action) {
    a.Act? && a.p in s.procs && Unconditional(s.procs[a.p], a.op)
  }

  predicate Removes(s: State, a: Action, t: Token) {
    a.Act? && a.p in s.procs && MayRemove(s.procs[a.p], a.op, t)
  }

  /** A leased or flushed rotation replaces the store's link only when the store
      still holds the spent token the link was rotated from. */
  lemma CompareBeforeWrite(w: World, p: Holder, pr: Proc, op: Op)
    requires CanDo(w, pr, op) && Granted(w, p, pr)
    requires op.RecordWrite? || (op.FlushWrite? && pr.pc.stored.Some?)
    ensures var w' := Section(w, p, pr, op).0;
      var from := if op.RecordWrite? then pr.pc.presented else pr.pc.stored.value;
      var next := if op.RecordWrite? then pr.pc.next else pr.pc.link;
      && (w'.store != w.store ==> Holds(w.store, from) && from in w.rotated && w'.store == Some(next))
      && (!op.failed && Holds(w.store, from) ==> w'.store == Some(next))
      && next.refreshToken !in w.rotated
  {
  }

  lemma SectionSurvives(w: World, p: Holder, pr: Proc, op: Op, t: Token)
    requires CanDo(w, pr, op) && Granted(w, p, pr) && !MayRemove(pr, op, t)
    requires Holds(w.store, t) && t !in w.rotated
    ensures Holds(Section(w, p, pr, op).0.store, t)
  {
  }

  lemma SectionStaysOut(w: World, p: Holder, pr: Proc, op: Op)
    requires CanDo(w, pr, op) && w.store.None? && !Unconditional(pr, op)
    ensures Section(w, p, pr, op).0.store.None?
  {
  }

  lemma RotatedGrows(s: State, a: Action)
    requires Enabled(s, a)
    ensures s.w.rotated <= Do(s, a).w.rotated && s.w.issued <= Do(s, a).w.issued
  {
  }

  /** A sign-in in the store stays there until muster rotates its token, through
      any leased refreshes and flushes of any process and through any removal of
      another token that muster refused. */
  lemma {:induction false} SignInsSurvive(run: seq<State>, acts: seq<Action>, i: nat, j: nat, t: Token)
    requires IsRun(run, acts) && AllTimely(run) && i <= j < |run|
    requires forall k :: i <= k < j ==> !Removes(run[k], acts[k], t)
    ensures Holds(run[i].w.store, t) && t !in run[j].w.rotated ==> Holds(run[j].w.store, t)
    decreases j - i
  {
    if i < j {
      SignInsSurvive(run, acts, i, j - 1, t);
      RunInv(run, acts, j - 1);
      var s, a := run[j - 1], acts[j - 1];
      assert StepAt(run, acts, j - 1);
      RotatedGrows(s, a);
      if a.Act? && Holds(s.w.store, t) && t !in s.w.rotated {
        Grants(s, a.p);
        SectionSurvives(s.w, a.p, s.procs[a.p], a.op, t);
      }
    }
  }

  /** A sign-out stays until somebody signs in or saves an unleased refresh. */
  lemma {:induction false} SignOutsSurvive(run: seq<State>, acts: seq<Action>, i: nat, j: nat)
    requires IsRun(run, acts) && i <= j < |run| && run[i].w.store.None?
    requires forall k :: i <= k < j ==> !Forces(run[k], acts[k])
    ensures run[j].w.store.None?
    decreases j - i
  {
    if i < j {
      SignOutsSurvive(run, acts, i, j - 1);
      var s, a := run[j - 1], acts[j - 1];
      assert StepAt(run, acts, j - 1);
      if a.Act? { SectionStaysOut(s.w, a.p, s.procs[a.p], a.op); }
    }
  }

  /** A process whose leased request got no answer gives the lease back: once the
      store has taken that, no lease of the process stands on the token. Another
      process's lease, and every link, stays as it was. */
  lemma ReleaseFrees(w: World, p: Holder, pr: Proc)
    requires pr.pc.Unanswered? && pr.pc.leased
    ensures var store' := Section(w, p, pr, Release(false)).0.store;
      && !(Holds(store', pr.pc.link.refreshToken) && LeasedBy(store', p))
      && (store' != w.store ==> Holds(w.store, pr.pc.link.refreshToken) && LeasedBy(w.store, p))
      && store'.Some? == w.store.Some?
      && (w.store.Some? ==> store'.value.(lease := None) == w.store.value.(lease := None))
  {
  }

  // --- the process-local copy -----------------------------------------------------------------

  /** However the copy's link is replaced, when its token was last served and
      refreshed is remembered for as long as there is a copy. */
  lemma StampsStay(w: World, p: Holder, pr: Proc, op: Op)
    requires CanDo(w, pr, op) && pr.entry.Some? && Section(w, p, pr, op).1.entry.Some? && !op.Stamp?
    ensures var e, e' := pr.entry.value, Section(w, p, pr, op).1.entry.value;
      e'.served == e.served && e'.refreshed == e.refreshed
  {
  }

  /** Nothing in a process is stamped with a time still to come. */
  ghost predicate ClockInv(now: Time, pr: Proc) {
    && (pr.entry.Some? ==> pr.entry.value.checked <= now)
    && (pr.pc.Loading? ==> pr.pc.read.start <= now)
    && (forall i :: 0 <= i < |pr.loads| ==> pr.loads[i].start <= now)
  }

  /** Neither the clock nor the time the entry was checked at goes back. */
  ghost predicate ClockGoesOn(pr: Proc, w': World, pr': Proc) {
    && ClockInv(w'.now, pr')
    && (pr.entry.Some? && pr'.entry.Some? ==> pr.entry.value.checked <= pr'.entry.value.checked)
  }

  lemma LoadClock(w: World, p: Holder, pr: Proc, op: Op)
    requires CanDo(w, pr, op) && ClockInv(w.now, pr) && IsLoad(op)
    ensures ClockGoesOn(pr, w, LoadOp(w, pr, op))
  {
  }

  lemma SectionClock(w: World, p: Holder, pr: Proc, op: Op)
    requires CanDo(w, pr, op) && ClockInv(w.now, pr)
    ensures ClockGoesOn(pr, Section(w, p, pr, op).0, Section(w, p, pr, op).1)
  {
    if IsLoad(op) {
      LoadClock(w, p, pr, op);
    } else {
      assert Section(w, p, pr, op).1.loads == pr.loads;
    }
  }

  lemma {:induction false} RunClock(run: seq<State>, acts: seq<Action>, i: nat, p: Holder)
    requires IsRun(run, acts) && i < |run| && p in run[i].procs
    ensures ClockInv(run[i].w.now, run[i].procs[p])
  {
    if i > 0 {
      var a := acts[i - 1];
      assert StepAt(run, acts, i - 1);
      if p in run[i - 1].procs { RunClock(run, acts, i - 1, p); }
      if a.Act? && a.p == p { SectionClock(run[i - 1].w, p, run[i - 1].procs[p], a.op); }
    }
  }

  lemma {:induction false} CheckedGrows(run: seq<State>, acts: seq<Action>, i: nat, j: nat, p: Holder)
    requires IsRun(run, acts) && i <= j < |run|
    requires forall k :: i <= k <= j ==> p in run[k].procs && run[k].procs[p].entry.Some?
    ensures run[i].procs[p].entry.value.checked <= run[j].procs[p].entry.value.checked
    decreases j - i
  {
    if i < j {
      CheckedGrows(run, acts, i, j - 1, p);
      RunClock(run, acts, j - 1, p);
      var a := acts[j - 1];
      assert StepAt(run, acts, j - 1);
      if a.Act? && a.p == p { SectionClock(run[j - 1].w, p, run[j - 1].procs[p], a.op); }
    }
  }

  /** A store read that began before this process's own write finished, however
      late its answer comes, leaves the copy as it is for as long as there has
      been one. */
  lemma SlowReadKeepsNewer(run: seq<State>, acts: seq<Action>, i: nat, j: nat, p: Holder, op: Op)
    requires IsRun(run, acts) && i < j < |acts|
    requires acts[i] == Act(p, MarkClean) || acts[i] == Act(p, Adopt)
    requires forall k :: i < k <= j ==> p in run[k].procs && run[k].procs[p].entry.Some?
    requires StepAt(run, acts, j) && acts[j] == Act(p, op) && (op.LoadCommit? || op.LockedCommit?)
    requires (if op.LoadCommit? then run[j].procs[p].loads[op.i].start else run[j].procs[p].pc.read.start) <= run[i].w.now
    ensures run[j + 1].procs[p].entry == run[j].procs[p].entry
  {
    assert StepAt(run, acts, i) && StepAt(run, acts, j);
    CheckedGrows(run, acts, i + 1, j, p);
  }

  /** A read that fails leaves a process that has a copy with it, and serves it. */
  lemma FailedReadServesCopy(w: World, p: Holder, pr: Proc, op: Op)
    requires CanDo(w, pr, op) && pr.entry.Some? && (op.LoadCommit? || op.LockedCommit?)
    requires (if op.LoadCommit? then pr.loads[op.i] else pr.pc.read).answer == Some(Fetched.Broken)
    ensures var pr' := Section(w, p, pr, op).1;
      && pr'.entry.Some? && pr'.entry.value.link == pr.entry.value.link && pr'.entry.value.dirty == pr.entry.value.dirty
      && (op.LockedCommit? ==> pr'.pc == Loaded(pr.entry.value.link))
  {
  }

  /** load never replaces or deletes a dirty entry. */
  lemma LoadKeepsDirty(w: World, p: Holder, pr: Proc, op: Op)
    requires CanDo(w, pr, op) && IsDirty(pr.entry)
    requires op.LoadBegin? || op.LoadAnswer? || op.LoadCommit? || op.LockedLoad? || op.LockedAnswer? || op.LockedCommit?
    ensures Section(w, p, pr, op).1.entry == pr.entry
  {
  }
}
