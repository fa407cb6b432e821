/** Runs in which the refresh protocol gives up what it should rather have kept:
    the inputs behind the conditions of RefreshLedger. */
module RefreshScenarios {
  import opened LinkModel
  import opened RefreshProtocol
  import opened RefreshSafety
  import opened RefreshRuns
  import opened RefreshLedger
  import opened Staleness
  import LinkManager

  function SignedIn(token: Token): Link { Link("", "", 0, token, "", None, None) }

  /** A process between two operations, with the copy e. */
  function Resting(e: Option<Entry>): Proc { Proc(e, [], Idle) }

  function Kept(token: Token, stored: Option<Token>): Entry { Entry(SignedIn(token), 0, true, None, None, stored) }
  function Synced(token: Token): Entry { Entry(SignedIn(token), 0, false, None, None, None) }

  /** Every lease in the store is unexpired. */
  predicate Unexpired(s: State) {
    s.w.store.Some? && s.w.store.value.lease.Some? ==> s.w.now < s.w.store.value.lease.value.until
  }

  /** A timely run that has come to s. */
  ghost predicate Reached(run: seq<State>, acts: seq<Action>, s: State) {
    IsRun(run, acts) && AllTimely(run) && run[|acts|] == s
  }

  lemma Go(run: seq<State>, acts: seq<Action>, a: Action) returns (longer: seq<State>, done: seq<Action>)
    requires IsRun(run, acts) && AllTimely(run) && Enabled(run[|acts|], a) && Unexpired(Do(run[|acts|], a))
    ensures done == acts + [a] && longer == run + [Do(run[|acts|], a)] && Reached(longer, done, Do(run[|acts|], a))
  {
    Extended(run, acts, a);
    longer, done := run + [Do(run[|acts|], a)], acts + [a];
    assert Timely(Do(run[|acts|], a));
  }

  /** One section of p, and where it leads. */
  lemma Does(run: seq<State>, acts: seq<Action>, s: State, p: Holder, op: Op, w: World, pr: Proc)
    returns (longer: seq<State>, done: seq<Action>, s': State)
    requires Reached(run, acts, s) && p in s.procs && CanDo(s.w, s.procs[p], op)
    requires Section(s.w, p, s.procs[p], op) == (w, pr)
    requires w.store.Some? && w.store.value.lease.Some? ==> w.now < w.store.value.lease.value.until
    ensures s' == State(w, s.procs[p := pr], s.used) && Reached(longer, done, s')
    ensures done == acts + [Act(p, op)] && longer == run + [s']
  {
    s' := State(w, s.procs[p := pr], s.used);
    longer, done := Go(run, acts, Act(p, op));
  }

  lemma SetUp(p: Holder, q: Holder) returns (run: seq<State>, acts: seq<Action>)
    requires p != q
    ensures Reached(run, acts, State(World(0, None, {}, {}, {}), map[p := Resting(None), q := Resting(None)], {p, q}))
  {
    run, acts := [State(World(0, None, {}, {}, {}), map[], {})], [];
    run, acts := Go(run, acts, Start(p));
    run, acts := Go(run, acts, Start(q));
    assert {p} + {q} == {p, q};
  }

  /** p can sign in with token. */
  predicate MaySignIn(s: State, p: Holder, token: Token) {
    && Unexpired(s) && s.w.now == 0 && token !in s.w.issued && p in s.procs && s.procs[p] == Resting(s.procs[p].entry)
    && (s.procs[p].entry.Some? ==> s.procs[p].entry.value.served.None? && s.procs[p].entry.value.refreshed.None?)
  }

  /** p signs in, and the store does not take it. */
  lemma SignsInKept(run: seq<State>, acts: seq<Action>, s: State, p: Holder, token: Token)
    returns (longer: seq<State>, done: seq<Action>)
    requires Reached(run, acts, s) && MaySignIn(s, p, token)
    ensures Reached(longer, done, State(s.w.(issued := s.w.issued + {token}),
                                        s.procs[p := Resting(Some(Kept(token, Inherited(s.procs[p].entry))))], s.used))
    ensures done == acts + [Act(p, SignIn(SignedIn(token))), Act(p, SaveWrite(true))]
    ensures run <= longer && forall j :: |acts| < j < |longer| ==>
      p in longer[j].procs && longer[j].procs[p].entry == Some(Kept(token, Inherited(s.procs[p].entry)))
  {
    var w, e, s' := s.w.(issued := s.w.issued + {token}), Some(Kept(token, Inherited(s.procs[p].entry))), s;
    longer, done, s' := Does(run, acts, s', p, SignIn(SignedIn(token)), w, Proc(e, [], Saving(SignedIn(token))));
    longer, done, s' := Does(longer, done, s', p, SaveWrite(true), w, Resting(e));
  }

  /** p signs in over a clean copy or none, and the store takes it. */
  lemma SignsInStored(run: seq<State>, acts: seq<Action>, s: State, p: Holder, token: Token)
    returns (longer: seq<State>, done: seq<Action>)
    requires Reached(run, acts, s) && MaySignIn(s, p, token) && !IsDirty(s.procs[p].entry)
    ensures Reached(longer, done, State(s.w.(issued := s.w.issued + {token}, store := Some(SignedIn(token))),
                                        s.procs[p := Resting(Some(Synced(token)))], s.used))
    ensures run <= longer
  {
    var w, e, s' := s.w.(issued := s.w.issued + {token}), Some(Kept(token, None)), s;
    longer, done, s' := Does(run, acts, s', p, SignIn(SignedIn(token)), w, Proc(e, [], Saving(SignedIn(token))));
    w := w.(store := Some(SignedIn(token)));
    longer, done, s' := Does(longer, done, s', p, SaveWrite(false), w, Proc(e, [], Written));
    longer, done, s' := Does(longer, done, s', p, MarkClean, w, Resting(Some(Synced(token))));
  }

  /** p refreshes the token the store holds into next, and the store refuses the write. */
  lemma RotatesKept(run: seq<State>, acts: seq<Action>, s: State, p: Holder, token: Token, next: Token)
    returns (longer: seq<State>, done: seq<Action>)
    requires Reached(run, acts, s) && s.w.now == 0 && s.w.store == Some(SignedIn(token))
    requires p in s.procs && s.procs[p] == Resting(Some(Synced(token)))
    requires token !in s.w.rotated && next !in s.w.issued
    ensures Reached(longer, done, State(
      s.w.(issued := s.w.issued + {next}, rotated := s.w.rotated + {token},
           store := Some(SignedIn(token).(lease := Some(Lease(p, LEASE_TTL))))),
      s.procs[p := Resting(Some(Kept(next, Some(token))))], s.used))
    ensures run <= longer
  {
    var e, link, s' := Some(Synced(token)), SignedIn(token), s;
    var w := s.w.(store := Some(link.(lease := Some(Lease(p, LEASE_TTL)))));
    longer, done, s' := Does(run, acts, s', p, LockedLoad, s.w, Proc(e, [], Loaded(link)));
    longer, done, s' := Does(longer, done, s', p, TryLease, s.w, Proc(e, [], Trying(link, 0)));
    longer, done, s' := Does(longer, done, s', p, LeaseWrite(false), w, Proc(e, [], Ready(link, true)));
    longer, done := LeaseIsUsed(longer, done, s', p, token, next);
  }

  /** p presents the token it leased, and records muster's answer. */
  lemma AnswerIsRecorded(run: seq<State>, acts: seq<Action>, s: State, p: Holder, token: Token, succ: Link)
    returns (longer: seq<State>, done: seq<Action>)
    requires Reached(run, acts, s) && Unexpired(s) && s.w.now == 0
    requires p in s.procs && s.procs[p] == Proc(Some(Synced(token)), [], Ready(SignedIn(token), true))
    requires token !in s.w.rotated && succ.refreshToken !in s.w.issued
    requires succ == SignedIn(succ.refreshToken).(idToken := succ.idToken, expiry := succ.expiry)
    ensures Reached(longer, done, State(
      s.w.(issued := s.w.issued + {succ.refreshToken}, rotated := s.w.rotated + {token}),
      s.procs[p := Proc(Some(Kept(succ.refreshToken, Some(token)).(link := succ)), [], Recording(token, succ))], s.used))
    ensures done == acts + [Act(p, Send), Act(p, Rotate(succ.refreshToken, succ.idToken, succ.expiry)), Act(p, RecordPut)]
    ensures run <= longer
  {
    var e, link, next, s' := Some(Synced(token)), SignedIn(token), succ.refreshToken, s;
    var w := s.w.(issued := s.w.issued + {next}, rotated := s.w.rotated + {token});
    var kept := Some(Kept(next, Some(token)).(link := succ));
    longer, done, s' := Does(run, acts, s', p, Send, s.w, Proc(e, [], InFlight(link, true)));
    longer, done, s' := Does(longer, done, s', p, Rotate(next, succ.idToken, succ.expiry), w, Proc(e, [], Rotated(link, succ, true)));
    longer, done, s' := Does(longer, done, s', p, RecordPut, w, Proc(kept, [], Recording(token, succ)));
  }

  lemma LeaseIsUsed(run: seq<State>, acts: seq<Action>, s: State, p: Holder, token: Token, next: Token)
    returns (longer: seq<State>, done: seq<Action>)
    requires Reached(run, acts, s) && Unexpired(s) && s.w.now == 0
    requires p in s.procs && s.procs[p] == Proc(Some(Synced(token)), [], Ready(SignedIn(token), true))
    requires token !in s.w.rotated && next !in s.w.issued
    ensures Reached(longer, done, State(s.w.(issued := s.w.issued + {next}, rotated := s.w.rotated + {token}),
                                        s.procs[p := Resting(Some(Kept(next, Some(token))))], s.used))
    ensures run <= longer
  {
    longer, done := AnswerIsRecorded(run, acts, s, p, token, SignedIn(next));
    var s' := longer[|done|];
    longer, done, s' := Does(longer, done, s', p, RecordWrite(true), s'.w, Resting(Some(Kept(next, Some(token)))));
  }

  /** The flush of a kept sign-in goes over whatever the store holds. */
  lemma FlushesOver(run: seq<State>, acts: seq<Action>, s: State, q: Holder, token: Token)
    returns (longer: seq<State>, done: seq<Action>, k: nat)
    requires Reached(run, acts, s) && Unexpired(s) && s.w.now == 0
    requires q in s.procs && s.procs[q] == Resting(Some(Kept(token, None)))
    ensures Reached(longer, done, State(s.w.(store := Some(SignedIn(token))), s.procs[q := Resting(Some(Synced(token)))], s.used))
    ensures run <= longer && k == |acts| + 1
    ensures done == acts + [Act(q, FlushStart), Act(q, FlushWrite(false)), Act(q, MarkClean)]
    ensures q in longer[k].procs && longer[k].procs[q].pc == Flushing(SignedIn(token), None) && longer[k].w == s.w
    ensures longer[k + 1].w.store == Some(SignedIn(token))
  {
    var e, link, s' := Some(Kept(token, None)), SignedIn(token), s;
    var w := s.w.(store := Some(link));
    longer, done, s' := Does(run, acts, s', q, FlushStart, s.w, Proc(e, [], Flushing(link, None)));
    k := |done|;
    longer, done, s' := Does(longer, done, s', q, FlushWrite(false), w, Proc(e, [], Written));
    longer, done, s' := Does(longer, done, s', q, MarkClean, w, Resting(Some(Synced(token))));
  }

  /** A process with a rotated link whose flush has come to pc. */
  function Pending(token: Token, from: Token, pc: PC): Proc { Proc(Some(Kept(token, Some(from))), [], pc) }

  function Turned(store: Option<Link>): PC { if store.Some? then Adopting(store.value) else Forgetting }

  /** The flush of a rotated link finds that the store moved on. */
  lemma FlushTurns(run: seq<State>, acts: seq<Action>, s: State, p: Holder, token: Token, from: Token)
    returns (longer: seq<State>, done: seq<Action>)
    requires Reached(run, acts, s) && Unexpired(s) && s.w.now == 0
    requires p in s.procs && s.procs[p] == Resting(Some(Kept(token, Some(from))))
    requires !Holds(s.w.store, from) && !Holds(s.w.store, token)
    ensures done == acts + [Act(p, FlushStart), Act(p, FlushWrite(false))]
    ensures Reached(longer, done, State(s.w, s.procs[p := Pending(token, from, Turned(s.w.store))], s.used))
    ensures run <= longer
    ensures longer[|acts| + 1] == State(s.w, s.procs[p := Pending(token, from, Flushing(SignedIn(token), Some(from)))], s.used)
  {
    var s' := s;
    longer, done, s' := Does(run, acts, s', p, FlushStart, s.w, Pending(token, from, Flushing(SignedIn(token), Some(from))));
    longer, done, s' := Does(longer, done, s', p, FlushWrite(false), s.w, Pending(token, from, Turned(s.w.store)));
  }

  /** The flush of a rotated link finds another one, and it is given up. */
  lemma FlushFollows(run: seq<State>, acts: seq<Action>, s: State, p: Holder, token: Token, from: Token)
    returns (longer: seq<State>, done: seq<Action>, m: nat)
    requires Reached(run, acts, s) && Unexpired(s) && s.w.now == 0
    requires p in s.procs && s.procs[p] == Resting(Some(Kept(token, Some(from))))
    requires !Holds(s.w.store, from) && !Holds(s.w.store, token)
    ensures run <= longer && m == |acts| + 1 && IsRun(longer, done) && AllTimely(longer)
    ensures done == acts + [Act(p, FlushStart), Act(p, FlushWrite(false)), Act(p, if s.w.store.Some? then Adopt else Forget)]
    ensures p in longer[m].procs && longer[m].w == s.w
    ensures longer[m].procs[p] == Pending(token, from, Flushing(SignedIn(token), Some(from)))
    ensures p in longer[m + 1].procs && longer[m + 1].procs[p] == Pending(token, from, Turned(s.w.store))
    ensures longer[|done|] == State(s.w, s.procs[p := Followed(s.w.store)], s.used)
  {
    m := |acts| + 1;
    longer, done := FlushTurns(run, acts, s, p, token, from);
    var s', op := longer[|done|], if s.w.store.Some? then Adopt else Forget;
    longer, done, s' := Does(longer, done, s', p, op, s.w, Followed(s.w.store));
  }

  /** A process that has just followed the store. */
  function Followed(store: Option<Link>): Proc {
    if store.None? then Resting(None)
    else Proc(Some(Entry(store.value.(lease := None), 0, false, None, None, None)), [], Loaded(store.value))
  }

  /** q has a sign-in kept back, and p a token rotated from the link it stored since. */
  function TwoPending(p: Holder, q: Holder, early: Token, late: Token, next: Token): State {
    State(World(0, Some(SignedIn(late).(lease := Some(Lease(p, LEASE_TTL)))), {early, late, next}, {late}, {}),
          map[p := Resting(Some(Kept(next, Some(late)))), q := Resting(Some(Kept(early, None)))], {p, q})
  }

  lemma BothPending(p: Holder, q: Holder, early: Token, late: Token, next: Token)
    returns (run: seq<State>, acts: seq<Action>, b: nat)
    requires p != q && early != late && early != next && late != next
    ensures Reached(run, acts, TwoPending(p, q, early, late, next))
    ensures b <= |acts| && q in run[b].procs && early in Secret(run[b].procs[q]) && late !in run[b].w.issued
  {
    run, acts := SetUp(p, q);
    run, acts := SignsInKept(run, acts, run[|acts|], q, early);
    b := |acts|;
    run, acts := SignsInStored(run, acts, run[|acts|], p, late);
    assert run[|acts|].procs[p] == Resting(Some(Synced(late)));
    run, acts := RotatesKept(run, acts, run[|acts|], p, late, next);
    assert run[|acts|] == TwoPending(p, q, early, late, next);
  }

  /** An older link is adopted, and the newer token given up for it: q's sign-in
      is kept back, p signs in later and refreshes, p's write fails, q's flush
      goes over p's link, and p's flush follows it. */
  lemma OlderLinkAdopted(p: Holder, q: Holder, early: Token, late: Token, next: Token)
    returns (run: seq<State>, acts: seq<Action>, m: nat)
    requires p != q && early != late && early != next && late != next
    ensures IsRun(run, acts) && AllTimely(run)
    ensures FoundAt(run, acts, m, m + 1, p, next, Some(SignedIn(early))) && LetsGo(run, acts, m + 1, p, next)
    ensures !Carried(run[|acts|], next)
    ensures KeptBack(run, acts, m, late, early) && !IssuedAfter(run, late, early)
  {
    var b, k;
    run, acts, b, k := EarlyLands(p, q, early, late, next);
    var run0, acts0 := run, acts;
    run, acts, m := FlushFollows(run, acts, run[|acts|], p, next, late);
    StillLate(run0, acts0, run, acts, m, late, early, k, b, q);
    LateIsOlder(run, acts, m, late, early);
    GivenUpFor(run, acts, m, p, next, SignedIn(early), late);
    NobodyCarries(run[|acts|], p, q, early, next);
  }

  lemma NobodyCarries(s: State, p: Holder, q: Holder, early: Token, next: Token)
    requires s.procs == map[q := Resting(Some(Synced(early))), p := Followed(s.w.store)] && s.w.store == Some(SignedIn(early))
    requires early != next && next !in s.w.rotated
    ensures !Carried(s, next)
  {
  }

  lemma StillLate(run: seq<State>, acts: seq<Action>, longer: seq<State>, done: seq<Action>, m: nat,
                  from: Token, u: Token, k: nat, b: nat, q: Holder)
    requires LandedLate(run, acts, |acts|, from, u, k, b, q) && run <= longer && acts <= done
    requires |acts| <= m < |longer| == |done| + 1
    ensures LandedLate(longer, done, m, from, u, k, b, q)
  {
    assert longer[b] == run[b] && longer[k] == run[k] && longer[k + 1] == run[k + 1] && done[k] == acts[k];
  }

  /** q's flush then goes over p's link. */
  lemma EarlyLands(p: Holder, q: Holder, early: Token, late: Token, next: Token)
    returns (run: seq<State>, acts: seq<Action>, b: nat, k: nat)
    requires p != q && early != late && early != next && late != next
    ensures Reached(run, acts, State(World(0, Some(SignedIn(early)), {early, late, next}, {late}, {}),
      map[p := Resting(Some(Kept(next, Some(late)))), q := Resting(Some(Synced(early)))], {p, q}))
    ensures LandedLate(run, acts, |acts|, late, early, k, b, q)
  {
    run, acts, b := BothPending(p, q, early, late, next);
    var run0 := run;
    run, acts, k := FlushesOver(run, acts, run[|acts|], q, early);
    assert run[b] == run0[b];
  }

  lemma GivenUpFor(run: seq<State>, acts: seq<Action>, m: nat, p: Holder, t: Token, link: Link, from: Token)
    requires m + 2 < |run| == |acts| + 1 && acts[m] == Act(p, FlushWrite(false)) && acts[m + 1] == Act(p, Adopt)
    requires p in run[m].procs && p in run[m + 1].procs && run[m].w.store == Some(link)
    requires link.refreshToken != t && link.refreshToken != from
    requires run[m].procs[p].entry == Some(Kept(t, Some(from))) && run[m + 1].procs[p].entry == Some(Kept(t, Some(from)))
    requires run[m + 1].procs[p].pc == Adopting(link)
    ensures FoundAt(run, acts, m, m + 1, p, t, Some(link)) && LetsGo(run, acts, m + 1, p, t)
  {
    assert LastOf(run, acts, m, m + 1, p);
    assert FoundAt(run, acts, m, m + 1, p, t, Some(link));
  }

  lemma SignsOut(run: seq<State>, acts: seq<Action>, s: State, q: Holder)
    returns (longer: seq<State>, done: seq<Action>)
    requires Reached(run, acts, s) && Unexpired(s) && q in s.procs && s.procs[q] == Resting(None)
    ensures Reached(longer, done, State(s.w.(store := None), s.procs, s.used))
  {
    longer, done := Go(run, acts, Act(q, UnlinkForget));
    longer, done := Go(longer, done, Act(q, UnlinkDelete(false)));
    assert s.procs[q := Resting(None)] == s.procs;
  }

  /** p has a rotated link the store has not taken when the person signs out elsewhere. */
  lemma SignedOutMeanwhile(p: Holder, q: Holder, first: Token, next: Token) returns (run: seq<State>, acts: seq<Action>)
    requires p != q && first != next
    ensures Reached(run, acts, State(World(0, None, {first, next}, {first}, {}),
                                     map[p := Resting(Some(Kept(next, Some(first)))), q := Resting(None)], {p, q}))
  {
    run, acts := SetUp(p, q);
    run, acts := SignsInStored(run, acts, run[|acts|], p, first);
    assert run[|acts|].procs[p] == Resting(Some(Synced(first)));
    run, acts := RotatesKept(run, acts, run[|acts|], p, first, next);
    run, acts := SignsOut(run, acts, run[|acts|], q);
  }

  /** A sign-in is lost though nobody signed out after it: p keeps a rotated link,
      the person signs out through q and signs in again through p, p's save
      fails, and p's own flush takes the earlier sign-out for a later one. */
  lemma KeptSignInLost(p: Holder, q: Holder, first: Token, next: Token, again: Token)
    returns (run: seq<State>, acts: seq<Action>, i: nat, m: nat)
    requires p != q && first != next && first != again && next != again
    ensures IsRun(run, acts) && AllTimely(run)
    ensures KeepsSignIn(run, acts, i, m, p, SignedIn(again)) && m < |acts| && acts[m] == Act(p, FlushWrite(false))
    ensures forall k :: i <= k < |acts| ==> !(acts[k].Act? && (acts[k].op.UnlinkForget? || acts[k].op.UnlinkDelete?))
    ensures run[|acts|].w.store.None? && !Carried(run[|acts|], again) && again in run[|acts|].w.issued
  {
    run, acts := SignedOutMeanwhile(p, q, first, next);
    i := |acts|;
    run, acts := SignsInKept(run, acts, run[|acts|], p, again);
    var run0, acts0 := run, acts;
    run, acts, m := FlushFollows(run, acts, run[|acts|], p, again, first);
    assert forall j :: 0 <= j < |run0| ==> run[j] == run0[j];
    assert forall k :: 0 <= k < |acts0| ==> acts[k] == acts0[k];
  }

  /** The store takes the answer, and the entry is stamped. */
  lemma AnswerIsStored(run: seq<State>, acts: seq<Action>, s: State, p: Holder, token: Token, succ: Link)
    returns (longer: seq<State>, done: seq<Action>)
    requires Reached(run, acts, s) && s.w.now == 0 && Holds(s.w.store, token) && Unexpired(s) && succ.lease.None?
    requires p in s.procs
    requires s.procs[p] == Proc(Some(Kept(succ.refreshToken, Some(token)).(link := succ)), [], Recording(token, succ))
    ensures Reached(longer, done, State(s.w.(store := Some(succ)),
      s.procs[p := Resting(Some(Kept(succ.refreshToken, Some(token)).(link := succ, dirty := false, refreshed := Some(0))))], s.used))
    ensures acts <= done
  {
    var kept, s' := Kept(succ.refreshToken, Some(token)).(link := succ), s;
    var w := s.w.(store := Some(succ));
    longer, done, s' := Does(run, acts, s', p, RecordWrite(false), w, Proc(Some(kept), [], Written));
    var clean := kept.(dirty := false);
    longer, done, s' := Does(longer, done, s', p, MarkClean, w, Resting(Some(clean)));
    longer, done, s' := Does(longer, done, s', p, Stamp(None, Some(0)), w, Resting(Some(clean.(refreshed := Some(0)))));
  }

  /** p signs in and takes the refresh lease. */
  lemma LeaseTaken(p: Holder, q: Holder, first: Token) returns (run: seq<State>, acts: seq<Action>)
    requires p != q
    ensures Reached(run, acts, State(
      World(0, Some(SignedIn(first).(lease := Some(Lease(p, LEASE_TTL)))), {first}, {}, {}),
      map[p := Proc(Some(Synced(first)), [], Ready(SignedIn(first), true)), q := Resting(None)], {p, q}))
  {
    run, acts := SetUp(p, q);
    run, acts := SignsInStored(run, acts, run[|acts|], p, first);
    var s', e, link := run[|acts|], Some(Synced(first)), SignedIn(first);
    var w := s'.w.(store := Some(link.(lease := Some(Lease(p, LEASE_TTL)))));
    run, acts, s' := Does(run, acts, s', p, LockedLoad, s'.w, Proc(e, [], Loaded(link)));
    run, acts, s' := Does(run, acts, s', p, TryLease, s'.w, Proc(e, [], Trying(link, 0)));
    run, acts, s' := Does(run, acts, s', p, LeaseWrite(false), w, Proc(e, [], Ready(link, true)));
    assert {first} == {} + {first};
  }

  /** A token with less than the skew left is handed out when muster brings it:
      the sections of one TokenFor, from the copy to the stamp, with the answer
      it returns. No process would reuse that token, refreshed when it may. */
  lemma ShortTokenServed(p: Holder, q: Holder, first: Token, next: Token, idToken: string, expiry: Option<Time>)
    returns (run: seq<State>, acts: seq<Action>, i: nat)
    requires p != q && first != next && idToken != ""
    requires expiry.None? || expiry.value < LinkManager.TOKEN_REFRESH_SKEW
    ensures IsRun(run, acts) && AllTimely(run) && i + 1 < |acts| && acts[i] == Act(p, Send)
    ensures acts[i + 1] == Act(p, Rotate(next, idToken, expiry))
    ensures LinkManager.Brought(LinkManager.Renewed(next, idToken, expiry)) == Some((idToken, expiry))
    ensures var s := run[|acts|];
      && s.w.now == 0 && p in s.procs && s.procs[p].pc.Idle? && LinkManager.Bears(s.procs[p].entry, idToken, expiry)
      && s.procs[p].entry.value.refreshed == Some(s.w.now)
    ensures forall least :: least >= LinkManager.TOKEN_REFRESH_SKEW ==> !LinkManager.Covers(expiry, least, 0)
  {
    run, acts := LeaseTaken(p, q, first);
    var s' := run[|acts|];
    i := |acts|;
    var succ := SignedIn(next).(idToken := idToken, expiry := expiry);
    run, acts := AnswerIsRecorded(run, acts, s', p, first, succ);
    var acts0 := acts;
    run, acts := AnswerIsStored(run, acts, run[|acts|], p, first, succ);
    assert acts[i] == acts0[i] && acts[i + 1] == acts0[i + 1];
  }

  // --- a write noted late ---------------------------------------------------------------------

  /** So far the store held token at time 0 alone, no read of p failed, and p had a write
      to note only up to lag. */
  ghost predicate HeldAtFirst(run: seq<State>, acts: seq<Action>, p: Holder, token: Token, lag: Time) {
    && (forall n :: 0 <= n < |run| ==>
          && (Holds(run[n].w.store, token) ==> run[n].w.now == 0)
          && (ToNote(run[n].procs, p) ==> 0 <= run[n].w.now <= lag))
    && (forall n :: 0 <= n < |acts| ==> !FailedRead(acts[n], p))
  }

  /** The clock moves on, or a process starts. */
  lemma GoesOn(run: seq<State>, acts: seq<Action>, s: State, a: Action, p: Holder, token: Token, lag: Time)
    returns (longer: seq<State>, done: seq<Action>, s': State)
    requires Reached(run, acts, s) && HeldAtFirst(run, acts, p, token, lag)
    requires Enabled(s, a) && !a.Act? && !Holds(s.w.store, token) && !ToNote(Do(s, a).procs, p) && Unexpired(Do(s, a))
    ensures s' == Do(s, a) && done == acts + [a] && longer == run + [s'] && Reached(longer, done, s')
    ensures HeldAtFirst(longer, done, p, token, lag)
  {
    s' := Do(s, a);
    longer, done := Go(run, acts, a);
  }

  /** One section of q, none of them a read. */
  lemma DoesOn(run: seq<State>, acts: seq<Action>, s: State, q: Holder, op: Op, w: World, pr: Proc,
               p: Holder, token: Token, lag: Time)
    returns (longer: seq<State>, done: seq<Action>, s': State)
    requires Reached(run, acts, s) && HeldAtFirst(run, acts, p, token, lag)
    requires q in s.procs && CanDo(s.w, s.procs[q], op) && Section(s.w, q, s.procs[q], op) == (w, pr)
    requires w.store.Some? ==> w.store.value.lease.None? && w.now == 0
    requires !op.LoadAnswer? && !op.LockedAnswer? && (q == p || !pr.pc.Written?) && 0 <= w.now
    requires (pr.pc.Written? || pr.pc.Adopting? ==> q == p && w.now <= lag) && (q != p ==> ToNote(s.procs, p) ==> w.now <= lag)
    ensures s' == State(w, s.procs[q := pr], s.used) && Reached(longer, done, s')
    ensures done == acts + [Act(q, op)] && longer == run + [s'] && HeldAtFirst(longer, done, p, token, lag)
  {
    longer, done, s' := Does(run, acts, s, q, op, w, pr);
  }

  /** p signs in, and the store takes it. */
  lemma SignedInUnnoted(p: Holder, q: Holder, token: Token, lag: Time)
    returns (run: seq<State>, acts: seq<Action>, s: State)
    requires p != q && lag >= 0
    ensures HeldAtFirst(run, acts, p, token, lag) && Reached(run, acts, s)
    ensures s == State(World(0, Some(SignedIn(token)), {token}, {}, {}),
                       map[p := Proc(Some(Kept(token, None)), [], Written), q := Resting(None)], {p, q})
  {
    s := State(World(0, None, {}, {}, {}), map[], {});
    run, acts := [s], [];
    run, acts, s := GoesOn(run, acts, s, Start(p), p, token, lag);
    run, acts, s := GoesOn(run, acts, s, Start(q), p, token, lag);
    var e, w := Some(Kept(token, None)), s.w.(issued := {token});
    assert {} + {token} == {token} && {p} + {q} == {p, q};
    run, acts, s := DoesOn(run, acts, s, p, SignIn(SignedIn(token)), w, Proc(e, [], Saving(SignedIn(token))), p, token, lag);
    w := w.(store := Some(SignedIn(token)));
    run, acts, s := DoesOn(run, acts, s, p, SaveWrite(false), w, Proc(e, [], Written), p, token, lag);
  }

  /** q signs out before p has noted that. */
  lemma SignedOutUnnoted(p: Holder, q: Holder, token: Token, lag: Time)
    returns (run: seq<State>, acts: seq<Action>, s: State)
    requires p != q && lag >= 0
    ensures HeldAtFirst(run, acts, p, token, lag) && Reached(run, acts, s)
    ensures s == State(World(0, None, {token}, {}, {}),
                       map[p := Proc(Some(Kept(token, None)), [], Written), q := Resting(None)], {p, q})
  {
    run, acts, s := SignedInUnnoted(p, q, token, lag);
    var w := s.w;
    run, acts, s := DoesOn(run, acts, s, q, UnlinkForget, w, Proc(None, [], Unlinking(None, false)), p, token, lag);
    w := w.(store := None);
    run, acts, s := DoesOn(run, acts, s, q, UnlinkDelete(false), w, Resting(None), p, token, lag);
  }

  /** The time a process takes to note a write counts in full: a link the store gave up
      as soon as it had taken it is served the cache's lifetime from the note on. */
  lemma NotedLateServedLong(p: Holder, q: Holder, token: Token, lag: nat) returns (run: seq<State>, acts: seq<Action>, i: nat)
    requires p != q && lag > 0
    ensures IsRun(run, acts) && AllTimely(run) && NotesWithin(run, p, lag)
    ensures i < |acts| && acts[i] == Act(p, LockedLoad) && p in run[i].procs && !IsDirty(run[i].procs[p].entry)
    ensures p in run[i + 1].procs && run[i + 1].procs[p].pc == Loaded(SignedIn(token))
    ensures !HeldOrFailed(run, acts, i, p, token, run[i].w.now - LINK_CACHE_TTL - lag + 2)
  {
    var s;
    run, acts, s := SignedOutUnnoted(p, q, token, lag);
    run, acts := NotesLate(run, acts, s, p, token, lag);
    i := |acts|;
    s := run[i];
    run, acts, s := DoesOn(run, acts, s, p, LockedLoad, s.w, s.procs[p].(pc := Loaded(SignedIn(token))), p, token, lag);
  }

  /** p notes the write when lag has gone by, and as good as the cache's lifetime passes. */
  lemma NotesLate(run: seq<State>, acts: seq<Action>, s: State, p: Holder, token: Token, lag: nat)
    returns (longer: seq<State>, done: seq<Action>)
    requires Reached(run, acts, s) && HeldAtFirst(run, acts, p, token, lag) && s.w.now == 0 && s.w.store.None?
    requires p in s.procs && s.procs[p] == Proc(Some(Kept(token, None)), [], Written)
    ensures HeldAtFirst(longer, done, p, token, lag)
    ensures Reached(longer, done, State(s.w.(now := lag + LINK_CACHE_TTL - 1),
                                        s.procs[p := Resting(Some(Synced(token).(checked := lag)))], s.used))
  {
    var s';
    longer, done := Go(run, acts, Tick(lag));
    s' := longer[|done|];
    longer, done, s' := DoesOn(longer, done, s', p, MarkClean, s'.w, Resting(Some(Synced(token).(checked := lag))), p, token, lag);
    longer, done, s' := GoesOn(longer, done, s', Tick(LINK_CACHE_TTL - 1), p, token, lag);
  }
}
