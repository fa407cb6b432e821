/** When the row of a thread keeps a share that was revoked: row writes that fail
    leave a turn's share out of the row, and the turn revokes the one it read. */
module RowShares {
  import opened LinkModel
  import opened ThreadRow
  import opened ShareProtocol

  predicate Pending(s: State, t: nat, id: ShareID) {
    t in s.turns && s.turns[t].stage.Revoking? && id in s.turns[t].stage.ids
  }

  /** A turn has revoked the share or is about to. */
  ghost predicate Given(s: State, id: ShareID) { id in s.revoked || exists t :: Pending(s, t, id) }

  /** The turn's row write failed, and the share it had read does not open any
      more: it revokes that one, though nothing took its place in the row. */
  predicate RevokesUnreplaced(s: State, a: Action, id: ShareID) {
    && a.Settle? && Enabled(s, a)
    && var turn := s.turns[a.t];
       turn.stage.share.id in s.unrecorded && id in IDs(turn.stage.held) && !StillValid(s, turn)
  }

  /** The share a turn minted and has not answered with. */
  predicate HasShare(turn: Turn) { turn.stage.Holding? || turn.stage.Storing? }

  ghost predicate DistinctShares(s: State) {
    forall t, u :: t in s.turns && u in s.turns && t != u && HasShare(s.turns[t]) && HasShare(s.turns[u]) ==>
      s.turns[t].stage.share.id != s.turns[u].stage.share.id
  }

  /** What a stored share displaced is not the row's, and a share whose write
      failed displaced nothing. */
  predicate StoresApart(s: State, turn: Turn) {
    turn.stage.Storing? ==>
      if turn.stage.share.id in s.unrecorded then turn.stage.displaced.None? else Owes(turn) !! IDs(RowShare(s.row))
  }

  /** Of the row's share, only one that was so revoked is given up. */
  ghost predicate RowInv(s: State, bad: set<ShareID>) {
    && DistinctShares(s)
    && (forall t :: t in s.turns ==> StoresApart(s, s.turns[t]))
    && (forall id :: id in IDs(RowShare(s.row)) && Given(s, id) ==> id in bad)
  }

  function BadAfter(s: State, a: Action, bad: set<ShareID>): set<ShareID>
    requires Enabled(s, a)
  {
    if a.Settle? && s.turns[a.t].stage.share.id in s.unrecorded && !StillValid(s, s.turns[a.t])
    then bad + IDs(s.turns[a.t].stage.held) else bad
  }

  predicate TurnAction(a: Action) { !a.Tick? && !a.Other? && !a.Begin? }

  lemma OneTurnMoves(s: State, a: Action)
    requires Enabled(s, a) && TurnAction(a)
    ensures var n := Do(s, a);
      && a.t in s.turns && n.turns == s.turns[a.t := s.turns[a.t].(stage := n.turns[a.t].stage)]
      && (HasShare(n.turns[a.t]) ==>
           if a.Mint? then n.turns[a.t].stage.share.id == a.id && a.id !in s.minted
           else HasShare(s.turns[a.t]) && n.turns[a.t].stage.share.id == s.turns[a.t].stage.share.id)
  {
  }

  lemma ShareIsMinted(s: State, t: nat)
    requires Inv(s) && t in s.turns && HasShare(s.turns[t])
    ensures s.turns[t].stage.share.id in s.minted
  {
    assert TurnInv(s, s.turns[t]);
  }

  lemma PairStaysDistinct(s: State, a: Action, t: nat, u: nat)
    requires Inv(s) && Enabled(s, a) && TurnAction(a) && DistinctShares(s) && t != u && t != a.t
    requires t in Do(s, a).turns && u in Do(s, a).turns && HasShare(Do(s, a).turns[t]) && HasShare(Do(s, a).turns[u])
    ensures Do(s, a).turns[t].stage.share.id != Do(s, a).turns[u].stage.share.id
  {
    OneTurnMoves(s, a);
    ShareIsMinted(s, t);
  }

  lemma StaysDistinct(s: State, a: Action)
    requires Inv(s) && Enabled(s, a) && DistinctShares(s)
    ensures DistinctShares(Do(s, a))
  {
    var n := Do(s, a);
    if TurnAction(a) {
      forall t, u | t in n.turns && u in n.turns && t != u && HasShare(n.turns[t]) && HasShare(n.turns[u])
        ensures n.turns[t].stage.share.id != n.turns[u].stage.share.id
      {
        if t != a.t { PairStaysDistinct(s, a, t, u); } else { PairStaysDistinct(s, a, u, t); }
      }
    }
  }

  /** The row gains a share only by a turn's compare-and-set, and then that turn's. */
  lemma RowGains(s: State, a: Action, id: ShareID)
    requires Inv(s) && Enabled(s, a) && id in IDs(RowShare(Do(s, a).row)) && id !in IDs(RowShare(s.row))
    ensures a.Put? && id == s.turns[a.t].stage.share.id && Do(s, a).turns[a.t].stage.Storing?
  {
    match a {
      case Other(w) => OthersKeepOrDrop(s.threadTTL, w, s.row, s.now);
      case Put(t) =>
        assert TurnInv(s, s.turns[t]);
        var (row, stage) := AfterPut(s, s.turns[t]);
        PutDecides(s, s.turns[t], row, stage);
      case _ =>
    }
  }

  /** The share a turn is about to store has no place and no other turn yet. */
  lemma UnstoredIsApart(s: State, t: nat)
    requires Inv(s) && t in s.turns && s.turns[t].stage.Holding?
    ensures var id := s.turns[t].stage.share.id;
      && id !in s.unrecorded && !Ended(s, id) && !Given(s, id) && id !in IDs(s.turns[t].stage.held)
      && forall u :: u in s.turns && u != t ==> id !in Knows(s.turns[u])
  {
    var id := s.turns[t].stage.share.id;
    assert TurnInv(s, s.turns[t]) && id in Knows(s.turns[t]);
    assert forall u :: Pending(s, u, id) ==> id in Knows(s.turns[u]);
  }

  lemma OthersStoreApart(s: State, a: Action, u: nat)
    requires Inv(s) && Enabled(s, a) && DistinctShares(s) && u in s.turns && (TurnAction(a) ==> u != a.t)
    requires StoresApart(s, s.turns[u])
    ensures StoresApart(Do(s, a), s.turns[u])
  {
    var n, turn := Do(s, a), s.turns[u];
    if turn.stage.Storing? {
      forall id | id in IDs(RowShare(n.row)) && id !in IDs(RowShare(s.row)) ensures id !in Owes(turn) {
        RowGains(s, a, id);
        UnstoredIsApart(s, a.t);
      }
      if a.PutFails? { assert HasShare(s.turns[a.t]) && HasShare(turn); }
      assert turn.stage.share.id in n.unrecorded <==> turn.stage.share.id in s.unrecorded;
    }
  }

  lemma MoverStoresApart(s: State, a: Action)
    requires Inv(s) && Enabled(s, a) && TurnAction(a)
    ensures StoresApart(Do(s, a), Do(s, a).turns[a.t])
  {
    if a.Put? {
      var (row, stage) := AfterPut(s, s.turns[a.t]);
      assert TurnInv(s, s.turns[a.t]);
      PutDecides(s, s.turns[a.t], row, stage);
      UnstoredIsApart(s, a.t);
    }
  }

  /** What the step leaves its own turn to revoke, newly: what a settling turn's
      share leaves, or a share its own turn did not store. */
  lemma NewlyPending(s: State, a: Action, id: ShareID)
    requires Inv(s) && Enabled(s, a) && TurnAction(a) && Pending(Do(s, a), a.t, id) && !Pending(s, a.t, id)
    ensures GivesUp(s, a, id)
  {
    if a.Put? {
      var (row, stage) := AfterPut(s, s.turns[a.t]);
      assert TurnInv(s, s.turns[a.t]);
      PutDecides(s, s.turns[a.t], row, stage);
    }
  }

  predicate GivesUp(s: State, a: Action, id: ShareID)
    requires Enabled(s, a)
  {
    || (a.Settle? && id in Superseded(s, s.turns[a.t]))
    || ((a.SealFails? || (a.Put? && Do(s, a).turns[a.t].stage.Revoking?)) && id == s.turns[a.t].stage.share.id)
  }

  lemma GivenGains(s: State, a: Action, id: ShareID)
    requires Inv(s) && Enabled(s, a) && Given(Do(s, a), id) && !Given(s, id)
    ensures GivesUp(s, a, id)
  {
    var n := Do(s, a);
    if a.Revoke? && s.turns[a.t].stage.ids != [] { assert Pending(s, a.t, s.turns[a.t].stage.ids[0]); }
    if id !in n.revoked {
      var t :| Pending(n, t, id);
      assert !Pending(s, t, id);
      assert TurnAction(a) && t == a.t by { if TurnAction(a) { OneTurnMoves(s, a); } }
      NewlyPending(s, a, id);
    }
  }

  lemma RowStaysGood(s: State, a: Action, bad: set<ShareID>, id: ShareID)
    requires Inv(s) && Enabled(s, a) && RowInv(s, bad) && id in IDs(RowShare(Do(s, a).row)) && Given(Do(s, a), id)
    ensures id in BadAfter(s, a, bad)
  {
    var n := Do(s, a);
    if id !in IDs(RowShare(s.row)) {
      RowGains(s, a, id);
      UnstoredIsApart(s, a.t);
      GivenGains(s, a, id);
      assert false;
    } else if !Given(s, id) {
      GivenGains(s, a, id);
      if a.Settle? {
        assert StoresApart(s, s.turns[a.t]);
      } else {
        UnstoredIsApart(s, a.t);
        assert false;
      }
    }
  }

  lemma StepKeepsRowInv(s: State, a: Action, bad: set<ShareID>)
    requires Inv(s) && Enabled(s, a) && RowInv(s, bad)
    ensures RowInv(Do(s, a), BadAfter(s, a, bad))
  {
    var n := Do(s, a);
    StaysDistinct(s, a);
    forall t | t in n.turns ensures StoresApart(n, n.turns[t]) {
      if TurnAction(a) && t == a.t {
        MoverStoresApart(s, a);
      } else if t in s.turns {
        OthersStoreApart(s, a, t);
      }
    }
    forall id | id in IDs(RowShare(n.row)) && Given(n, id) ensures id in BadAfter(s, a, bad) {
      RowStaysGood(s, a, bad, id);
    }
  }

  // --- whole runs ---------------------------------------------------------------------------

  /** The shares so revoked in the first i steps. */
  ghost predicate Unreplaced(run: seq<State>, acts: seq<Action>, i: nat, id: ShareID)
    requires |run| == |acts| + 1
  {
    exists j :: 0 <= j < i && j < |acts| && RevokesUnreplaced(run[j], acts[j], id)
  }

  lemma {:induction false} RunKeepsRowInv(run: seq<State>, acts: seq<Action>, i: nat) returns (bad: set<ShareID>)
    requires IsRun(run, acts) && i < |run|
    ensures RowInv(run[i], bad) && forall id :: id in bad ==> Unreplaced(run, acts, i, id)
  {
    bad := {};
    if i > 0 {
      var bad0 := RunKeepsRowInv(run, acts, i - 1);
      assert StepAt(run, acts, i - 1);
      RunInv(run, acts, i - 1);
      bad := BadAfter(run[i - 1], acts[i - 1], bad0);
      StepKeepsRowInv(run[i - 1], acts[i - 1], bad0);
      forall id | id in bad ensures Unreplaced(run, acts, i, id) {
        if id in bad0 {
          assert Unreplaced(run, acts, i - 1, id);
        } else {
          assert RevokesUnreplaced(run[i - 1], acts[i - 1], id);
        }
      }
    }
  }

  lemma StaysGiven(s: State, a: Action, id: ShareID)
    requires Enabled(s, a) && Given(s, id)
    ensures Given(Do(s, a), id)
  {
    var n := Do(s, a);
    if id !in s.revoked {
      var t :| Pending(s, t, id);
      var ids := s.turns[t].stage.ids;
      if a == Revoke(t) {
        assert ids[0] in n.revoked && (id == ids[0] || id in ids[1..]);
        assert id == ids[0] || Pending(n, t, id);
      } else {
        assert Pending(n, t, id);
      }
    }
  }

  lemma {:induction false} GivenSince(run: seq<State>, acts: seq<Action>, j: nat, i: nat, id: ShareID)
    requires IsRun(run, acts) && j < i < |run| && RevokesUnreplaced(run[j], acts[j], id)
    ensures Given(run[i], id)
    decreases i
  {
    assert StepAt(run, acts, i - 1);
    if i - 1 == j {
      assert id in Superseded(run[j], run[j].turns[acts[j].t]);
      assert Pending(run[i], acts[j].t, id);
    } else {
      GivenSince(run, acts, j, i - 1, id);
      StaysGiven(run[i - 1], acts[i - 1], id);
    }
  }

  /** The row keeps a share that a turn has revoked or is about to exactly when a
      turn whose row write failed had read that share, and found when it revoked
      what it takes its own to have replaced that it opens no longer. */
  lemma RowShareRevoked(run: seq<State>, acts: seq<Action>, i: nat, id: ShareID)
    requires IsRun(run, acts) && i < |run| && id in IDs(RowShare(run[i].row))
    ensures Given(run[i], id) <==> Unreplaced(run, acts, i, id)
  {
    if Given(run[i], id) {
      var bad := RunKeepsRowInv(run, acts, i);
    } else if Unreplaced(run, acts, i, id) {
      var j :| 0 <= j < i && j < |acts| && RevokesUnreplaced(run[j], acts[j], id);
      GivenSince(run, acts, j, i, id);
      assert false;
    }
  }
}
