/** Where every refresh token goes: who carries it, and how and upon what it is
    given up. */
module RefreshLedger {
  import opened LinkModel
  import opened RefreshProtocol
  import opened RefreshSafety
  import opened RefreshRuns

  // --- what happened before ---------------------------------------------------------

  /** The lock holder's place and the link of a dirty entry are the same. */
  predicate SamePlace(a: Proc, b: Proc) {
    && a.pc == b.pc && (IsDirty(a.entry) <==> IsDirty(b.entry))
    && (IsDirty(b.entry) ==> a.entry.value.link == b.entry.value.link && a.entry.value.stored == b.entry.value.stored)
  }

  lemma LoadKeepsPlace(w: World, pr: Proc, op: Op)
    requires CanDo(w, pr, op) && IsLoad(op)
    ensures SamePlace(pr, LoadOp(w, pr, op))
  {
  }

  /** Action m of p's lock holder was its last before moment k. */
  ghost predicate LastOf(run: seq<State>, acts: seq<Action>, m: nat, k: nat, p: Holder) {
    && |run| == |acts| + 1 && m < k < |run| && acts[m].Act? && acts[m].p == p && !IsLoad(acts[m].op)
    && p in run[m].procs && p in run[m + 1].procs && p in run[k].procs && SamePlace(run[m + 1].procs[p], run[k].procs[p])
  }

  lemma {:induction false} PlaceSince(run: seq<State>, acts: seq<Action>, k: nat, p: Holder) returns (m: nat)
    requires IsRun(run, acts) && k < |run| && p in run[k].procs && !run[k].procs[p].pc.Idle?
    ensures LastOf(run, acts, m, k, p)
  {
    assert k > 0;
    m := k - 1;
    var a := acts[m];
    assert StepAt(run, acts, m);
    if a.Act? && a.p == p {
      if IsLoad(a.op) {
        LoadKeepsPlace(run[m].w, run[m].procs[p], a.op);
        m := PlaceSince(run, acts, k - 1, p);
      }
    } else {
      m := PlaceSince(run, acts, k - 1, p);
    }
  }

  lemma {:induction false} IssuedGrows(run: seq<State>, acts: seq<Action>, i: nat, j: nat)
    requires IsRun(run, acts) && i <= j < |run|
    ensures run[i].w.issued <= run[j].w.issued
    decreases j - i
  {
    if i < j {
      IssuedGrows(run, acts, i, j - 1);
      assert StepAt(run, acts, j - 1);
      RotatedGrows(run[j - 1], acts[j - 1]);
    }
  }

  // --- giving a token up ---------------------------------------------------------------

  /** Somewhere: spent, in the store, or in the hands of a live process. */
  ghost predicate Carried(s: State, t: Token) {
    t in s.w.rotated || Holds(s.w.store, t) || exists p :: p in s.procs && t in Secret(s.procs[p])
  }

  /** At moment m this process tried to write t over the token it was rotated
      from, and found the store to hold found instead. */
  ghost predicate FoundAt(run: seq<State>, acts: seq<Action>, m: nat, k: nat, p: Holder, t: Token, found: Option<Link>) {
    && LastOf(run, acts, m, k, p)
    && (acts[m].op == RecordWrite(false) || acts[m].op == FlushWrite(false))
    && run[m].w.store == found && !Holds(found, t)
    && var e := run[m].procs[p].entry;
       IsDirty(e) && e.value.link.refreshToken == t && e.value.stored.Some? && !Holds(found, e.value.stored.value)
  }

  /** At moment m muster refused t in the request this process had in flight. */
  ghost predicate RefusedAt(run: seq<State>, acts: seq<Action>, m: nat, k: nat, p: Holder, t: Token) {
    && LastOf(run, acts, m, k, p) && acts[m].op == Refuse
    && run[m].procs[p].pc.InFlight? && run[m].procs[p].pc.link.refreshToken == t
  }

  /** The process p carries t and step k ends that: by a sign-in of its own, by
      the person's sign-out here, upon muster's refusal of t, or upon what a
      conditional write of t found in the store. */
  ghost predicate LetsGo(run: seq<State>, acts: seq<Action>, k: nat, p: Holder, t: Token) {
    && k < |acts| && |run| == |acts| + 1 && acts[k].Act? && acts[k].p == p && p in run[k].procs
    && t in Secret(run[k].procs[p])
    && match acts[k].op
       case SignIn(link) => link.refreshToken != t
       case UnlinkForget => true
       case DropForget => exists m :: RefusedAt(run, acts, m, k, p, t)
       case Forget => exists m :: FoundAt(run, acts, m, k, p, t, None)
       case Adopt => run[k].procs[p].pc.Adopting? && exists m :: FoundAt(run, acts, m, k, p, t, Some(run[k].procs[p].pc.link))
       case _ => false
  }

  /** The store holds t and step k ends that unspent: an unconditional write of
      another link, a sign-out, or the removal of t because muster refused it. */
  ghost predicate TakesOut(run: seq<State>, acts: seq<Action>, k: nat, t: Token) {
    && k < |acts| && |run| == |acts| + 1 && Holds(run[k].w.store, t)
    && Removes(run[k], acts[k], t) && !acts[k].op.failed
  }

  ghost predicate GivenUp(run: seq<State>, acts: seq<Action>, k: nat, t: Token) {
    (exists p :: LetsGo(run, acts, k, p, t)) || TakesOut(run, acts, k, t)
  }

  predicate Located(w: World, pr: Proc, t: Token) {
    t in w.rotated || Holds(w.store, t) || t in Secret(pr)
  }

  /** Sections that can end a process's carrying of t, or take it out of the store. */
  predicate Ends(w: World, pr: Proc, op: Op, t: Token) {
    || (t in Secret(pr) && (op.SignIn? || op.UnlinkForget? || op.DropForget? || op.Forget? || op.Adopt?))
    || (Holds(w.store, t) && MayRemove(pr, op, t) && !op.failed)
  }

  lemma SectionLocates(w: World, p: Holder, pr: Proc, op: Op, t: Token)
    requires CanDo(w, pr, op) && Granted(w, p, pr)
    requires Located(w, pr, t) || t in Issues(op)
    ensures var (w', pr') := Section(w, p, pr, op); Located(w', pr', t) || Ends(w, pr, op, t)
  {
  }

  /** A process that follows the store with a dirty entry does so after a
      conditional write of that entry. */
  lemma FollowsAWrite(w: World, p: Holder, pr: Proc, op: Op, t: Token)
    requires CanDo(w, pr, op) && Granted(w, p, pr) && !IsLoad(op)
    requires var pr' := Section(w, p, pr, op).1; t in Secret(pr') && (pr'.pc.Adopting? || pr'.pc.Forgetting?)
    ensures op == RecordWrite(false) || op == FlushWrite(false)
    ensures w.store == (var pr' := Section(w, p, pr, op).1; if pr'.pc.Adopting? then Some(pr'.pc.link) else None)
    ensures !Holds(w.store, t) && IsDirty(pr.entry) && pr.entry.value.link.refreshToken == t
    ensures pr.entry.value.stored.Some? && !Holds(w.store, pr.entry.value.stored.value)
  {
    assert Coherent(pr);
  }

  lemma FollowsARefusal(w: World, p: Holder, pr: Proc, op: Op, t: Token)
    requires CanDo(w, pr, op) && Coherent(pr) && !IsLoad(op)
    requires var pr' := Section(w, p, pr, op).1; t in Secret(pr') && pr'.pc.Refused?
    ensures op.Refuse? && pr.pc.InFlight? && pr.pc.link.refreshToken == t
  {
  }

  lemma SameSecret(a: Proc, b: Proc)
    requires SamePlace(a, b)
    ensures Secret(a) == Secret(b)
  {
  }

  /** What a process lets go of, it lets go of for a fact about the store, muster
      or the person. */
  lemma LettingGo(run: seq<State>, acts: seq<Action>, k: nat, p: Holder, t: Token)
    requires IsRun(run, acts) && AllTimely(run) && k < |acts| && acts[k].Act? && acts[k].p == p && p in run[k].procs
    requires t in Secret(run[k].procs[p]) && CanDo(run[k].w, run[k].procs[p], acts[k].op)
    requires acts[k].op.SignIn? || acts[k].op.UnlinkForget? || acts[k].op.DropForget? || acts[k].op.Forget? || acts[k].op.Adopt?
    ensures LetsGo(run, acts, k, p, t)
  {
    RunInv(run, acts, k);
    var pr, op := run[k].procs[p], acts[k].op;
    assert LocalInv(run[k].w, p, pr);
    if op.SignIn? {
      assert Knows(pr, t);
    } else if !op.UnlinkForget? {
      var m := PlaceSince(run, acts, k, p);
      RunInv(run, acts, m);
      Grants(run[m], p);
      assert StepAt(run, acts, m);
      SameSecret(run[m + 1].procs[p], pr);
      if op.DropForget? {
        FollowsARefusal(run[m].w, p, run[m].procs[p], acts[m].op, t);
        assert RefusedAt(run, acts, m, k, p, t);
      } else {
        FollowsAWrite(run[m].w, p, run[m].procs[p], acts[m].op, t);
        assert FoundAt(run, acts, m, k, p, t, if op.Adopt? then Some(pr.pc.link) else None);
      }
    }
  }

  lemma Elsewhere(s: State, a: Action, q: Holder, t: Token)
    requires Enabled(s, a) && q in s.procs && t in Secret(s.procs[q]) && a.Act? && a.p != q
    ensures Carried(Do(s, a), t)
  {
    var procs' := Do(s, a).procs;
    assert q in procs' && procs'[q] == s.procs[q];
  }

  lemma ActCarries(run: seq<State>, acts: seq<Action>, k: nat, t: Token)
    requires IsRun(run, acts) && AllTimely(run) && k < |acts| && acts[k].Act?
    requires Carried(run[k], t) || t in Issues(acts[k].op)
    ensures Carried(run[k + 1], t) || GivenUp(run, acts, k, t)
  {
    var s, p, op := run[k], acts[k].p, acts[k].op;
    assert StepAt(run, acts, k);
    var pr := s.procs[p];
    if Located(s.w, pr, t) || t in Issues(op) {
      RunInv(run, acts, k);
      Grants(s, p);
      SectionLocates(s.w, p, pr, op, t);
      var s' := run[k + 1];
      assert p in s'.procs && s'.procs[p] == Section(s.w, p, pr, op).1;
      if !Located(s'.w, s'.procs[p], t) {
        if t in Secret(pr) && !(Holds(s.w.store, t) && MayRemove(pr, op, t)) { LettingGo(run, acts, k, p, t); }
      }
    } else {
      var q :| q in s.procs && t in Secret(s.procs[q]);
      Elsewhere(s, acts[k], q, t);
    }
  }

  lemma SectionIssues(w: World, p: Holder, pr: Proc, op: Op)
    requires CanDo(w, pr, op)
    ensures Section(w, p, pr, op).0.issued == w.issued + Issues(op)
  {
  }

  /** Every refresh token muster ever issued is spent, in the store, in the hands
      of a live process, or was given up at a moment of the run at which the
      store, muster or the person gave cause to. */
  lemma {:induction false} NoTokenLost(run: seq<State>, acts: seq<Action>, i: nat, t: Token)
    requires IsRun(run, acts) && AllTimely(run) && i < |run| && t in run[i].w.issued
    ensures Carried(run[i], t) || exists k: nat :: k < i && GivenUp(run, acts, k, t)
  {
    if i > 0 {
      var s, a := run[i - 1], acts[i - 1];
      RunInv(run, acts, i - 1);
      assert StepAt(run, acts, i - 1);
      if t in s.w.issued { NoTokenLost(run, acts, i - 1, t); }
      if a.Act? {
        SectionIssues(s.w, a.p, s.procs[a.p], a.op);
        if Carried(s, t) || t in Issues(a.op) { ActCarries(run, acts, i - 1, t); }
      } else if q :| q in s.procs && t in Secret(s.procs[q]) {
        if a.Crash? && a.p == q { assert false; }
        var procs' := run[i].procs;
        assert q in procs' && procs'[q] == s.procs[q];
      }
    }
  }

  lemma SectionKeepsSecret(w: World, p: Holder, pr: Proc, op: Op, t: Token)
    requires CanDo(w, pr, op) && Granted(w, p, pr) && t in Secret(pr)
    ensures var (w', pr') := Section(w, p, pr, op);
      || t in Secret(pr')
      || (pr'.pc.Written? && Holds(w'.store, t))
      || (pr'.pc.Rotated? && t in w'.rotated && pr'.pc.link.refreshToken == t && pr'.pc.next.refreshToken in Secret(pr'))
      || op.SignIn? || op.UnlinkForget? || op.DropForget? || op.Forget? || op.Adopt?
  {
  }

  /** A process stops carrying a token in these ways only: the store took it,
      muster rotated it and the process carries the successor, or it lets go. */
  lemma SecretLeaves(run: seq<State>, acts: seq<Action>, k: nat, p: Holder, t: Token)
    requires IsRun(run, acts) && AllTimely(run) && k < |acts| && acts[k].Act? && acts[k].p == p
    requires p in run[k].procs && t in Secret(run[k].procs[p])
    ensures p in run[k + 1].procs
    ensures var s', pr' := run[k + 1], run[k + 1].procs[p];
      || t in Secret(pr')
      || (pr'.pc.Written? && Holds(s'.w.store, t))
      || (pr'.pc.Rotated? && t in s'.w.rotated && pr'.pc.link.refreshToken == t && pr'.pc.next.refreshToken in Secret(pr'))
      || LetsGo(run, acts, k, p, t)
  {
    RunInv(run, acts, k);
    Grants(run[k], p);
    assert StepAt(run, acts, k);
    var op := acts[k].op;
    SectionKeepsSecret(run[k].w, p, run[k].procs[p], op, t);
    if op.SignIn? || op.UnlinkForget? || op.DropForget? || op.Forget? || op.Adopt? { LettingGo(run, acts, k, p, t); }
  }

  // --- whether what is adopted is newer -------------------------------------------------

  /** Muster had issued from when it had not issued u yet. */
  ghost predicate IssuedAfter(run: seq<State>, from: Token, u: Token) {
    exists b :: 0 <= b < |run| && from in run[b].w.issued && u !in run[b].w.issued
  }

  /** The store held from at a moment at which t was not issued yet. */
  ghost predicate Since(run: seq<State>, i: nat, from: Token, t: Token) {
    exists b :: 0 <= b < i <= |run| && Holds(run[b].w.store, from) && t !in run[b].w.issued
  }

  /** Everything a process carries over a stored token came after the store held it. */
  ghost predicate Successor(run: seq<State>, i: nat, pr: Proc) {
    && (pr.entry.Some? && pr.entry.value.stored.Some? ==>
          Since(run, i, pr.entry.value.stored.value, pr.entry.value.link.refreshToken))
    && ((pr.pc.Ready? || pr.pc.InFlight?) && pr.pc.leased ==>
          exists b :: 0 <= b < i <= |run| && Holds(run[b].w.store, pr.pc.link.refreshToken))
    && (pr.pc.Rotated? ==>
          if pr.pc.leased then Since(run, i, pr.pc.link.refreshToken, pr.pc.next.refreshToken)
          else pr.entry.Some? && pr.entry.value.stored.Some? ==>
            Since(run, i, pr.entry.value.stored.value, pr.pc.next.refreshToken))
  }

  lemma SinceFresh(run: seq<State>, acts: seq<Action>, i: nat, from: Token, t: Token, next: Token)
    requires IsRun(run, acts) && i < |run| && Since(run, i, from, t) && next !in run[i].w.issued
    ensures Since(run, i + 1, from, next)
  {
    var b :| 0 <= b < i <= |run| && Holds(run[b].w.store, from) && t !in run[b].w.issued;
    IssuedGrows(run, acts, b, i);
  }

  lemma SuccessorLater(run: seq<State>, i: nat, pr: Proc)
    requires Successor(run, i, pr) && i < |run|
    ensures Successor(run, i + 1, pr)
  {
  }

  lemma SuccessorLoads(run: seq<State>, i: nat, w: World, pr: Proc, op: Op)
    requires Successor(run, i, pr) && CanDo(w, pr, op) && IsLoad(op)
    ensures Successor(run, i, LoadOp(w, pr, op))
  {
  }

  /** A locked section's own contribution. */
  lemma SuccessorSteps(run: seq<State>, acts: seq<Action>, i: nat, p: Holder, op: Op)
    requires IsRun(run, acts) && i < |acts| && acts[i] == Act(p, op) && p in run[i].procs && StepAt(run, acts, i)
    requires Successor(run, i, run[i].procs[p]) && Coherent(run[i].procs[p]) && !IsLoad(op)
    ensures Successor(run, i + 1, Section(run[i].w, p, run[i].procs[p], op).1)
  {
    var w, pr := run[i].w, run[i].procs[p];
    var pr' := Section(w, p, pr, op).1;
    SuccessorLater(run, i, pr);
    if op.Rotate? {
      if pr.pc.leased {
        var b :| 0 <= b < i <= |run| && Holds(run[b].w.store, pr.pc.link.refreshToken);
        IssuedGrows(run, acts, b, i);
        assert Since(run, i + 1, pr.pc.link.refreshToken, op.token);
      } else if pr.entry.Some? && pr.entry.value.stored.Some? {
        SinceFresh(run, acts, i, pr.entry.value.stored.value, pr.entry.value.link.refreshToken, op.token);
      }
    } else if op.SignIn? {
      if IsDirty(pr.entry) && pr.entry.value.stored.Some? {
        SinceFresh(run, acts, i, pr.entry.value.stored.value, pr.entry.value.link.refreshToken, op.link.refreshToken);
      }
    } else if op.LeaseWrite? && pr'.pc.Ready? {
      assert Holds(run[i].w.store, pr'.pc.link.refreshToken);
    }
  }

  lemma {:induction false} RunSuccessor(run: seq<State>, acts: seq<Action>, i: nat, p: Holder)
    requires IsRun(run, acts) && AllTimely(run) && i < |run| && p in run[i].procs
    ensures Successor(run, i, run[i].procs[p])
  {
    if i > 0 {
      var a := acts[i - 1];
      assert StepAt(run, acts, i - 1);
      RunInv(run, acts, i - 1);
      if p in run[i - 1].procs {
        RunSuccessor(run, acts, i - 1, p);
        if a.Act? && a.p == p && !IsLoad(a.op) {
          assert LocalInv(run[i - 1].w, p, run[i - 1].procs[p]);
          SuccessorSteps(run, acts, i - 1, p, a.op);
        } else {
          if a.Act? && a.p == p { SuccessorLoads(run, i - 1, run[i - 1].w, run[i - 1].procs[p], a.op); }
          SuccessorLater(run, i - 1, run[i].procs[p]);
        }
      }
    }
  }

  /** A token only its process knows has never been in the store. */
  lemma {:induction false} SecretNeverStored(run: seq<State>, acts: seq<Action>, i: nat, p: Holder, t: Token, j: nat)
    requires IsRun(run, acts) && AllTimely(run) && j <= i < |run| && p in run[i].procs && t in Secret(run[i].procs[p])
    ensures !Holds(run[j].w.store, t)
  {
    RunInv(run, acts, i);
    assert LocalInv(run[i].w, p, run[i].procs[p]);
    if j < i {
      var a := acts[i - 1];
      assert StepAt(run, acts, i - 1);
      RunInv(run, acts, i - 1);
      if p in run[i - 1].procs && t in Secret(run[i - 1].procs[p]) {
        SecretNeverStored(run, acts, i - 1, p, t, j);
      } else {
        assert a.Act? && a.p == p && p in run[i - 1].procs;
        Grants(run[i - 1], p);
        NewSecret(run[i - 1].w, p, run[i - 1].procs[p], a.op, t);
        assert t !in run[i - 1].w.issued;
        IssuedGrows(run, acts, j, i - 1);
        RunInv(run, acts, j);
      }
    }
  }

  /** When its process came by a token only it knows: muster issued it then. */
  lemma {:induction false} SecretSince(run: seq<State>, acts: seq<Action>, i: nat, p: Holder, t: Token) returns (b: nat)
    requires IsRun(run, acts) && AllTimely(run) && i < |run| && p in run[i].procs && t in Secret(run[i].procs[p])
    ensures 0 < b <= i && p in run[b].procs && t in Secret(run[b].procs[p])
    ensures t !in run[b - 1].w.issued && run[b].w.issued == run[b - 1].w.issued + {t}
  {
    assert i > 0;
    var a := acts[i - 1];
    assert StepAt(run, acts, i - 1);
    RunInv(run, acts, i - 1);
    if p in run[i - 1].procs && t in Secret(run[i - 1].procs[p]) {
      b := SecretSince(run, acts, i - 1, p, t);
    } else {
      b := i;
      assert a.Act? && a.p == p && p in run[i - 1].procs;
      Grants(run[i - 1], p);
      NewSecret(run[i - 1].w, p, run[i - 1].procs[p], a.op, t);
      SectionIssues(run[i - 1].w, p, run[i - 1].procs[p], a.op);
    }
  }

  /** The moment u came into the store, given that it was not there at moment i. */
  lemma {:induction false} EntersAfter(run: seq<State>, acts: seq<Action>, i: nat, m: nat, u: Token) returns (k: nat)
    requires IsRun(run, acts) && i <= m < |run| && !Holds(run[i].w.store, u) && Holds(run[m].w.store, u)
    ensures i <= k < m && !Holds(run[k].w.store, u) && Holds(run[k + 1].w.store, u)
    decreases m - i
  {
    k := m - 1;
    if Holds(run[m - 1].w.store, u) { k := EntersAfter(run, acts, i, m - 1, u); }
  }

  /** A section that brings u into the store writes the process's own secret,
      over the stored token it carries when it compares. */
  lemma Enters(w: World, p: Holder, pr: Proc, op: Op, u: Token)
    requires CanDo(w, pr, op) && Granted(w, p, pr) && !Holds(w.store, u) && Holds(Section(w, p, pr, op).0.store, u)
    ensures u in Secret(pr) && !op.Rotate?
    ensures Unconditional(pr, op) || (IsDirty(pr.entry) && pr.entry.value.link.refreshToken == u
                                      && pr.entry.value.stored.Some? && Holds(w.store, pr.entry.value.stored.value))
  {
    assert Coherent(pr);
  }

  /** u came into the store by a write that does not compare, of a process that
      carried it when muster had not issued from yet. */
  ghost predicate KeptBack(run: seq<State>, acts: seq<Action>, m: nat, from: Token, u: Token) {
    exists k: nat, b: nat, q :: LandedLate(run, acts, m, from, u, k, b, q)
  }

  ghost predicate LandedLate(run: seq<State>, acts: seq<Action>, m: nat, from: Token, u: Token, k: nat, b: nat, q: Holder) {
    && b <= k < m < |run| == |acts| + 1
    && acts[k].Act? && acts[k].p == q && q in run[k].procs && Unconditional(run[k].procs[q], acts[k].op)
    && !Holds(run[k].w.store, u) && Holds(run[k + 1].w.store, u)
    && q in run[b].procs && u in Secret(run[b].procs[q]) && from !in run[b].w.issued
  }

  lemma LateIsOlder(run: seq<State>, acts: seq<Action>, m: nat, from: Token, u: Token)
    requires IsRun(run, acts) && AllTimely(run) && KeptBack(run, acts, m, from, u)
    ensures !IssuedAfter(run, from, u)
  {
    var k: nat, b: nat, q :| LandedLate(run, acts, m, from, u, k, b, q);
    RunInv(run, acts, b);
    assert LocalInv(run[b].w, q, run[b].procs[q]);
    assert Knows(run[b].procs[q], u);
    forall c | 0 <= c < |run| && from in run[c].w.issued ensures u in run[c].w.issued {
      if c < b { IssuedGrows(run, acts, c, b); } else { IssuedGrows(run, acts, b, c); }
    }
  }

  /** A conditional write brings in a token issued after the one it replaces,
      and so after every token the store held before that one. */
  lemma ConditionalIsNewer(run: seq<State>, acts: seq<Action>, l: nat, k: nat, q: Holder, from: Token, u: Token)
    requires IsRun(run, acts) && AllTimely(run) && l <= k < |acts| && Holds(run[l].w.store, from)
    requires q in run[k].procs
    requires var e := run[k].procs[q].entry;
      IsDirty(e) && e.value.link.refreshToken == u && e.value.stored.Some? && Holds(run[k].w.store, e.value.stored.value)
    ensures IssuedAfter(run, from, u)
  {
    var over := run[k].procs[q].entry.value.stored.value;
    RunSuccessor(run, acts, k, q);
    var b :| 0 <= b < k <= |run| && Holds(run[b].w.store, over) && u !in run[b].w.issued;
    RunInv(run, acts, l);
    if over != from && b < l {
      var j := EntersAfter(run, acts, l, k, over);
      var a := acts[j];
      assert StepAt(run, acts, j);
      RunInv(run, acts, j);
      Grants(run[j], a.p);
      Enters(run[j].w, a.p, run[j].procs[a.p], a.op, over);
      SecretNeverStored(run, acts, j, a.p, over, b);
      assert false;
    }
    RunInv(run, acts, b);
    if b >= l { IssuedGrows(run, acts, l, b); }
    assert from in run[b].w.issued;
  }

  /** A link a process adopts because it found it in place of the token its own
      was rotated from is the newer one, exactly unless it came into the store
      by a write that does not compare, of a process that had kept it back since
      before muster issued that token. */
  lemma AdoptedIsNewer(run: seq<State>, acts: seq<Action>, m: nat, k: nat, p: Holder, t: Token, found: Link)
    requires IsRun(run, acts) && AllTimely(run) && FoundAt(run, acts, m, k, p, t, Some(found))
    ensures var from := run[m].procs[p].entry.value.stored.value;
      IssuedAfter(run, from, found.refreshToken) <==> !KeptBack(run, acts, m, from, found.refreshToken)
  {
    var from, u := run[m].procs[p].entry.value.stored.value, found.refreshToken;
    if KeptBack(run, acts, m, from, u) {
      LateIsOlder(run, acts, m, from, u);
    } else if !IssuedAfter(run, from, u) {
      RunSuccessor(run, acts, m, p);
      var l :| 0 <= l < m <= |run| && Holds(run[l].w.store, from) && t !in run[l].w.issued;
      var j := EntersAfter(run, acts, l, m, u);
      var a := acts[j];
      assert StepAt(run, acts, j);
      RunInv(run, acts, j);
      Grants(run[j], a.p);
      Enters(run[j].w, a.p, run[j].procs[a.p], a.op, u);
      if Unconditional(run[j].procs[a.p], a.op) {
        var b := SecretSince(run, acts, j, a.p, u);
        assert from !in run[b - 1].w.issued;
        assert LandedLate(run, acts, m, from, u, j, b, a.p);
      } else {
        ConditionalIsNewer(run, acts, l, j, a.p, from, u);
      }
    }
  }

  // --- a sign-in the store has not taken ------------------------------------------------

  /** The process has kept the sign-in it recorded in step i. */
  ghost predicate KeepsSignIn(run: seq<State>, acts: seq<Action>, i: nat, m: nat, p: Holder, link: Link) {
    && i < m < |run| == |acts| + 1 && acts[i] == Act(p, SignIn(link)) && p in run[i].procs
    && forall j :: i < j <= m ==> p in run[j].procs && IsDirty(run[j].procs[p].entry) && run[j].procs[p].entry.value.link == link
  }

  /** The stored token a sign-in's entry goes on carrying. */
  function Inherited(e: Option<Entry>): Option<Token> { if IsDirty(e) then e.value.stored else None }

  lemma KeepsInherited(w: World, p: Holder, pr: Proc, op: Op)
    requires CanDo(w, pr, op) && Coherent(pr) && IsDirty(pr.entry)
    requires pr.pc.Rotated? ==> pr.pc.next.refreshToken != pr.entry.value.link.refreshToken
    requires op.SignIn? ==> op.link.refreshToken != pr.entry.value.link.refreshToken
    ensures var e := Section(w, p, pr, op).1.entry;
      IsDirty(e) && e.value.link.refreshToken == pr.entry.value.link.refreshToken ==> e.value.stored == pr.entry.value.stored
  {
  }

  lemma {:induction false} SignInInherits(run: seq<State>, acts: seq<Action>, i: nat, m: nat, p: Holder, link: Link)
    requires IsRun(run, acts) && AllTimely(run) && KeepsSignIn(run, acts, i, m, p, link)
    ensures run[m].procs[p].entry.value.stored == Inherited(run[i].procs[p].entry)
    decreases m - i
  {
    assert StepAt(run, acts, m - 1);
    if i + 1 < m {
      SignInInherits(run, acts, i, m - 1, p, link);
      RunInv(run, acts, m - 1);
      var pr, a := run[m - 1].procs[p], acts[m - 1];
      assert LocalInv(run[m - 1].w, p, pr);
      assert Knows(pr, link.refreshToken);
      if a.Act? && a.p == p {
        if pr.pc.Rotated? { NextIsNew(run, acts, m - 1, p); }
        KeepsInherited(run[m - 1].w, p, pr, a.op);
      }
    }
  }

  /** The successor muster answered with is not the token of the entry. */
  lemma NextIsNew(run: seq<State>, acts: seq<Action>, i: nat, p: Holder)
    requires IsRun(run, acts) && AllTimely(run) && i < |run| && p in run[i].procs && run[i].procs[p].pc.Rotated?
    requires IsDirty(run[i].procs[p].entry)
    ensures run[i].procs[p].pc.next.refreshToken != run[i].procs[p].entry.value.link.refreshToken
  {
    RunInv(run, acts, i);
    var pr := run[i].procs[p];
    assert LocalInv(run[i].w, p, pr);
    assert pr.pc.next.refreshToken in Secret(pr);
  }

  /** A sign-in is kept here until the store takes it, but for one case: the
      flush gives it up exactly when the entry it took the place of was dirty
      over a stored token, and the store holds neither that token nor the
      sign-in. */
  lemma FlushOfKeptSignIn(run: seq<State>, acts: seq<Action>, i: nat, m: nat, p: Holder, link: Link)
    requires IsRun(run, acts) && AllTimely(run) && KeepsSignIn(run, acts, i, m, p, link)
    requires m < |acts| && acts[m] == Act(p, FlushWrite(false))
    ensures p in run[m + 1].procs
    ensures var pr', from := run[m + 1].procs[p], Inherited(run[i].procs[p].entry);
      var lost := from.Some? && !Holds(run[m].w.store, from.value) && !Holds(run[m].w.store, link.refreshToken);
      && (lost <==> pr'.pc.Forgetting? || pr'.pc.Adopting?)
      && (!lost <==> pr'.pc.Written? && Holds(run[m + 1].w.store, link.refreshToken))
  {
    SignInInherits(run, acts, i, m, p, link);
    RunInv(run, acts, m);
    assert StepAt(run, acts, m);
    assert LocalInv(run[m].w, p, run[m].procs[p]);
  }
}
