/** Why a lease outlasts the work under it: from the bounds on its parts. */
module LeaseTiming {
  import opened LinkModel
  import opened RefreshProtocol
  import opened RefreshSafety
  import opened RefreshRuns

  // --- no process carries a lease ------------------------------------------------------

  /** No link that a process may write has a lease on it. */
  predicate Unleased(pr: Proc) {
    && (pr.entry.Some? ==> pr.entry.value.link.lease.None?)
    && match pr.pc
       case Rotated(_, next, _) => next.lease.None?
       case Recording(_, next) => next.lease.None?
       case Saving(next) => next.lease.None?
       case Flushing(link, _) => link.lease.None?
       case _ => true
  }

  lemma SectionUnleased(w: World, p: Holder, pr: Proc, op: Op)
    requires CanDo(w, pr, op) && Unleased(pr)
    ensures Unleased(Section(w, p, pr, op).1)
  {
  }

  /** The process takes the lease by this section. */
  predicate Takes(w: World, p: Holder, pr: Proc, op: Op) {
    && op == LeaseWrite(false) && CanDo(w, pr, op) && Holds(w.store, pr.pc.link.refreshToken)
    && !HeldByOther(w.store.value, p, pr.pc.at)
  }

  /** A lease in the store stands there from the section that took it. */
  lemma LeaseStands(w: World, q: Holder, pr: Proc, op: Op, p: Holder)
    requires CanDo(w, pr, op) && Unleased(pr) && !(q == p && Takes(w, q, pr, op))
    requires LeasedBy(Section(w, q, pr, op).0.store, p)
    ensures Section(w, q, pr, op).0.store == w.store
  {
  }

  /** p is to present t under its lease, or has what t was rotated into. */
  predicate Carries(pr: Proc, t: Token) { t in Claim(pr) || Heir(pr, t) }

  /** What a section leaves the process carrying, it carried before, a rotation of
      its claim apart. */
  predicate CarriedOn(pr: Proc, op: Op, pr': Proc, t: Token) {
    && (t in Claim(pr') ==> t in Claim(pr))
    && (Heir(pr', t) ==> Heir(pr, t) || (op.Rotate? && t in Claim(pr)))
  }

  lemma StoredCarries(w: World, p: Holder, pr: Proc, op: Op, t: Token)
    requires CanDo(w, pr, op) && IsStoreOp(op) && !Takes(w, p, pr, op) && Holds(w.store, t)
    ensures CarriedOn(pr, op, Section(w, p, pr, op).1, t)
  {
  }

  lemma LoadCarries(w: World, p: Holder, pr: Proc, op: Op, t: Token)
    requires CanDo(w, pr, op) && (IsLoad(op) || op.LockedLoad? || op.LockedAnswer? || op.LockedCommit?)
    ensures CarriedOn(pr, op, Section(w, p, pr, op).1, t)
  {
  }

  lemma LocalCarries(w: World, p: Holder, pr: Proc, op: Op, t: Token)
    requires CanDo(w, pr, op) && !IsStoreOp(op) && !IsLoad(op) && !op.LockedLoad? && !op.LockedAnswer? && !op.LockedCommit?
    requires Holds(w.store, t) && Coherent(pr) && forall u :: u in Secret(pr) ==> !Holds(w.store, u)
    ensures CarriedOn(pr, op, Section(w, p, pr, op).1, t)
  {
  }

  lemma CarriedBefore(w: World, p: Holder, pr: Proc, op: Op, t: Token)
    requires CanDo(w, pr, op) && !Takes(w, p, pr, op) && Holds(w.store, t) && Coherent(pr)
    requires forall u :: u in Secret(pr) ==> !Holds(w.store, u)
    ensures CarriedOn(pr, op, Section(w, p, pr, op).1, t)
  {
    if IsStoreOp(op) {
      StoredCarries(w, p, pr, op, t);
    } else if IsLoad(op) || op.LockedLoad? || op.LockedAnswer? || op.LockedCommit? {
      LoadCarries(w, p, pr, op, t);
    } else {
      LocalCarries(w, p, pr, op, t);
    }
  }

  // --- one step, seen from a process that carries a token ------------------------------------

  ghost predicate NoLeases(s: State) { forall p :: p in s.procs ==> Unleased(s.procs[p]) }

  lemma StepKeepsNoLeases(s: State, a: Action)
    requires Enabled(s, a) && NoLeases(s)
    ensures NoLeases(Do(s, a))
  {
    if a.Act? {
      SectionUnleased(s.w, a.p, s.procs[a.p], a.op);
    }
  }

  predicate TakesLease(s: State, a: Action, p: Holder) {
    a.Act? && a.p == p && p in s.procs && Takes(s.w, p, s.procs[p], a.op)
  }

  /** The store holds t under p's lease, and p carries t. */
  predicate Works(s: State, p: Holder, t: Token) {
    p in s.procs && Holds(s.w.store, t) && LeasedBy(s.w.store, p) && Carries(s.procs[p], t)
  }

  lemma WorksBefore(s: State, a: Action, p: Holder, t: Token)
    requires Inv(s) && NoLeases(s) && Enabled(s, a) && Works(Do(s, a), p, t) && !TakesLease(s, a, p)
    ensures var n := Do(s, a);
      && Works(s, p, t) && n.w.store == s.w.store
      && (t in Claim(n.procs[p]) ==> t in Claim(s.procs[p]))
      && (Heir(n.procs[p], t) ==> Heir(s.procs[p], t) || (a.Act? && a.p == p && a.op.Rotate? && t in Claim(s.procs[p])))
  {
    if a.Act? {
      LeaseStands(s.w, a.p, s.procs[a.p], a.op, p);
      if a.p == p {
        assert LocalInv(s.w, p, s.procs[p]);
        CarriedBefore(s.w, p, s.procs[p], a.op, t);
      }
    }
  }

  // --- the parts of the work, over runs --------------------------------------------------------

  /** p took the lease on t at step j and has been about to present t since. */
  ghost predicate Presents(run: seq<State>, acts: seq<Action>, p: Holder, t: Token, j: nat, i: nat)
    requires |run| == |acts| + 1
  {
    && j < i < |run| && TakesLease(run[j], acts[j], p) && run[j].procs[p].pc.link.refreshToken == t
    && forall m :: j < m <= i ==> p in run[m].procs && t in Claim(run[m].procs[p])
  }

  /** Muster rotated t for p at step k, and the store has held t under p's lease since. */
  ghost predicate Records(run: seq<State>, acts: seq<Action>, p: Holder, t: Token, k: nat, i: nat)
    requires |run| == |acts| + 1
  {
    && k < i < |run| && acts[k].Act? && acts[k].p == p && acts[k].op.Rotate?
    && forall m :: k < m <= i ==> Works(run[m], p, t) && Heir(run[m].procs[p], t)
  }

  /** Every lease is written within acquire of the clock reading it is dated from,
      muster answers within the bound on a request, and a rotated token is out of
      the store within record of its rotation. */
  ghost predicate Prompt(run: seq<State>, acts: seq<Action>, acquire: Time, record: Time)
    requires |run| == |acts| + 1
  {
    && (forall p, j: nat :: j < |acts| && TakesLease(run[j], acts[j], p) ==> run[j].w.now - run[j].procs[p].pc.at <= acquire)
    && (forall p, t, j: nat, i: nat :: Presents(run, acts, p, t, j, i) ==> run[i].w.now - run[j].w.now <= REFRESH_TIMEOUT)
    && (forall p, t, k: nat, i: nat :: Records(run, acts, p, t, k, i) ==> run[i].w.now - run[k].w.now <= record)
  }

  /** The lease p works under at i is from step j, and the work since is the
      presenting of t and then, from step k on, the recording of its successor. */
  ghost predicate Since(run: seq<State>, acts: seq<Action>, p: Holder, t: Token, j: nat, i: nat)
    requires |run| == |acts| + 1 && i < |run| && Works(run[i], p, t)
  {
    && j < i && TakesLease(run[j], acts[j], p)
    && run[i].w.store.value.lease.value.until == run[j].procs[p].pc.at + LEASE_TTL
    && (t in Claim(run[i].procs[p]) ==> Presents(run, acts, p, t, j, i))
    && (Heir(run[i].procs[p], t) ==> exists k: nat :: Presents(run, acts, p, t, j, k) && Records(run, acts, p, t, k, i))
  }

  lemma TakenNow(run: seq<State>, acts: seq<Action>, p: Holder, t: Token, i: nat)
    requires Steps(run, acts) && 0 < i < |run| && Inv(run[i - 1]) && Works(run[i], p, t) && TakesLease(run[i - 1], acts[i - 1], p)
    ensures Since(run, acts, p, t, i - 1, i)
  {
    assert StepAt(run, acts, i - 1);
    assert LocalInv(run[i - 1].w, p, run[i - 1].procs[p]);
  }

  lemma PresentsOn(run: seq<State>, acts: seq<Action>, p: Holder, t: Token, j: nat, i: nat)
    requires |run| == |acts| + 1 && 0 < i < |run| && Presents(run, acts, p, t, j, i - 1)
    requires p in run[i].procs && t in Claim(run[i].procs[p])
    ensures Presents(run, acts, p, t, j, i)
  {
  }

  lemma HeirGoesOn(run: seq<State>, acts: seq<Action>, p: Holder, t: Token, j: nat, i: nat)
    requires |run| == |acts| + 1 && 0 < i < |run| && Works(run[i], p, t) && Heir(run[i].procs[p], t)
    requires Works(run[i - 1], p, t) && Since(run, acts, p, t, j, i - 1)
    requires Heir(run[i - 1].procs[p], t)
      || (t in Claim(run[i - 1].procs[p]) && acts[i - 1].Act? && acts[i - 1].p == p && acts[i - 1].op.Rotate?)
    ensures exists k: nat :: Presents(run, acts, p, t, j, k) && Records(run, acts, p, t, k, i)
  {
    if Heir(run[i - 1].procs[p], t) {
      var k: nat :| Presents(run, acts, p, t, j, k) && Records(run, acts, p, t, k, i - 1);
      assert Records(run, acts, p, t, k, i);
    } else {
      assert Presents(run, acts, p, t, j, i - 1) && Records(run, acts, p, t, i - 1, i);
    }
  }

  lemma SinceGoesOn(run: seq<State>, acts: seq<Action>, p: Holder, t: Token, j: nat, i: nat)
    requires Steps(run, acts) && 0 < i < |run| && Inv(run[i - 1]) && NoLeases(run[i - 1])
    requires Works(run[i], p, t) && !TakesLease(run[i - 1], acts[i - 1], p)
    requires Works(run[i - 1], p, t) && Since(run, acts, p, t, j, i - 1)
    ensures Since(run, acts, p, t, j, i)
  {
    assert StepAt(run, acts, i - 1);
    WorksBefore(run[i - 1], acts[i - 1], p, t);
    if t in Claim(run[i].procs[p]) { PresentsOn(run, acts, p, t, j, i); }
    if Heir(run[i].procs[p], t) { HeirGoesOn(run, acts, p, t, j, i); }
  }

  /** Work under a lease goes back to the step that took it. */
  lemma {:induction false} WorkHasALease(run: seq<State>, acts: seq<Action>, p: Holder, t: Token, i: nat) returns (j: nat)
    requires IsRun(run, acts) && i < |run| && Works(run[i], p, t)
    requires forall m :: 0 <= m < i ==> Inv(run[m]) && NoLeases(run[m])
    ensures Since(run, acts, p, t, j, i)
    decreases i
  {
    assert i > 0;
    assert StepAt(run, acts, i - 1);
    if TakesLease(run[i - 1], acts[i - 1], p) {
      TakenNow(run, acts, p, t, i);
      j := i - 1;
    } else {
      WorksBefore(run[i - 1], acts[i - 1], p, t);
      j := WorkHasALease(run, acts, p, t, i - 1);
      SinceGoesOn(run, acts, p, t, j, i);
    }
  }

  lemma WithinBounds(run: seq<State>, acts: seq<Action>, acquire: Time, record: Time, p: Holder, t: Token, j: nat, i: nat)
    requires |run| == |acts| + 1 && i < |run| && Works(run[i], p, t) && Since(run, acts, p, t, j, i)
    requires Prompt(run, acts, acquire, record) && 0 <= record && acquire + REFRESH_TIMEOUT + record < LEASE_TTL
    ensures run[i].w.now < run[i].w.store.value.lease.value.until
  {
    if Heir(run[i].procs[p], t) {
      var k: nat :| Presents(run, acts, p, t, j, k) && Records(run, acts, p, t, k, i);
    }
  }

  lemma TimelyAt(run: seq<State>, acts: seq<Action>, acquire: Time, record: Time, i: nat)
    requires IsRun(run, acts) && Prompt(run, acts, acquire, record)
    requires 0 <= record && acquire + REFRESH_TIMEOUT + record < LEASE_TTL && i < |run|
    requires forall m :: 0 <= m < i ==> Inv(run[m]) && NoLeases(run[m])
    ensures Timely(run[i])
  {
    forall p | p in run[i].procs ensures WithinLease(run[i].w, p, run[i].procs[p]) {
      var w := run[i].w;
      if w.store.Some? && LeasedBy(w.store, p) && Covered(w, run[i].procs[p], w.store.value.refreshToken) {
        var j := WorkHasALease(run, acts, p, w.store.value.refreshToken, i);
        WithinBounds(run, acts, acquire, record, p, w.store.value.refreshToken, j, i);
      }
    }
  }

  lemma StaysGood(run: seq<State>, acts: seq<Action>, i: nat)
    requires Steps(run, acts) && 0 < i < |run| && Timely(run[i - 1]) && Inv(run[i - 1]) && NoLeases(run[i - 1])
    ensures Inv(run[i]) && NoLeases(run[i])
  {
    assert StepAt(run, acts, i - 1);
    StepKeepsInv(run[i - 1], acts[i - 1]);
    StepKeepsNoLeases(run[i - 1], acts[i - 1]);
  }

  /** What the protocol's comment relies on: a lease of twice the bound on a request
      outlasts the work under it as long as writing the lease and recording the
      rotation together take less than the other half. */
  lemma {:induction false} PromptIsTimely(run: seq<State>, acts: seq<Action>, acquire: Time, record: Time, i: nat)
    requires IsRun(run, acts) && Prompt(run, acts, acquire, record)
    requires 0 <= record && acquire + REFRESH_TIMEOUT + record < LEASE_TTL && i < |run|
    ensures forall m :: 0 <= m <= i ==> Timely(run[m]) && Inv(run[m]) && NoLeases(run[m])
    decreases i
  {
    if i > 0 {
      PromptIsTimely(run, acts, acquire, record, i - 1);
      StaysGood(run, acts, i);
    }
    TimelyAt(run, acts, acquire, record, i);
  }

  /** So no process then ever presents a rotated token. */
  lemma PromptNeverReplays(run: seq<State>, acts: seq<Action>, acquire: Time, record: Time, i: nat)
    requires IsRun(run, acts) && Prompt(run, acts, acquire, record)
    requires 0 <= record && acquire + REFRESH_TIMEOUT + record < LEASE_TTL && i < |run|
    ensures AllTimely(run) && run[i].w.replayed == {}
  {
    PromptIsTimely(run, acts, acquire, record, |acts|);
    NoReplay(run, acts, i);
  }
}
