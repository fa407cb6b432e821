/** shareFor as the gateway runs it: a turn's reads, mint, compare-and-set and
    revokes, with anything other turns and writers may do in between. Each of
    its moves is a step of ShareProtocol. */
module ShareFacade {
  import opened LinkModel
  import opened ThreadRow
  import opened ShareProtocol

  /** A thread's row in the store and its session's shares at the controller,
      with the run so far. */
  class Sharing {
    const threadTTL: Time
    var row: Option<Entry>
    var clock: Time
    var shares: map<ShareID, Share>
    var revoked: set<ShareID>
    ghost var run: seq<State>
    ghost var acts: seq<Action>

    ghost predicate Valid()
      reads this
    {
      IsRun(run, acts) && Matches(run[|acts|])
    }

    ghost predicate Matches(s: State)
      reads this
    {
      s.threadTTL == threadTTL && s.row == row && s.now == clock && s.minted == shares && s.revoked == revoked
    }

    ghost function Now(): State
      requires Valid()
      reads this
    {
      run[|acts|]
    }

    constructor (threadTTL: Time, clock: Time, row: Option<Entry>)
      requires RowShare(row).None?
      ensures Valid() && acts == []
    {
      this.threadTTL := threadTTL;
      this.row := row;
      this.clock := clock;
      shares := map[];
      revoked := {};
      run := [State(threadTTL, clock, row, map[], {}, map[], {}, {}, map[])];
      acts := [];
    }

    /** The fields now are what action a makes of the state before. */
    ghost method Took(a: Action)
      requires IsRun(run, acts) && Enabled(run[|acts|], a) && Matches(Do(run[|acts|], a))
      modifies this`run, this`acts
      ensures Valid() && acts == old(acts) + [a] && Now() == Do(old(run[|acts|]), a)
    {
      var longer, done := Extend(run, acts, a);
      run, acts := longer, done;
    }

    /** Time passes, and other turns and other writers of the row get in between. */
    method Meanwhile(ghost t: nat)
      requires Valid()
      modifies this
      ensures Valid() && clock >= old(clock)
      ensures old(revoked) <= revoked
      ensures old(acts) <= acts && forall i :: |old(acts)| <= i < |acts| ==> !OfTurn(acts[i], t)
      ensures t in old(Now()).turns ==> t in Now().turns && Now().turns[t] == old(Now()).turns[t]
    {
    }

    method Open(key: string, share: Option<Share>, session: SessionID, margin: Time)
      returns (token: string, opens: bool)
      ensures opens == Opens(key, share, session, margin, clock)
      ensures opens ==> token == share.value.secret.token
    {
      token, opens := "", false;
      if share.None? || session == "" || share.value.session != session {
        return;
      }
      if share.value.expiresAt != 0 && !(clock + margin < share.value.expiresAt) {
        return;
      }
      var secret := share.value.secret;
      if secret.key == key && secret.session == session {
        token, opens := secret.token, true;
      }
    }

    /** revokeShare, for the first share the turn still owes a revoke. */
    method RevokeNext(t: nat, ghost owed: seq<ShareID>, id: ShareID, ghost answer: Reply)
      requires Valid() && t in Now().turns && Now().turns[t].stage == Revoking(owed, answer) && owed != [] && owed[0] == id
      modifies this
      ensures Valid() && old(revoked) <= revoked && id in revoked && clock >= old(clock)
      ensures t in Now().turns && Now().turns[t] == old(Now()).turns[t].(stage := Revoking(owed[1..], answer))
    {
      Meanwhile(t);
      revoked := revoked + {id};
      Took(Revoke(t));
    }

    /** The turn has nothing left to do. */
    ghost method Finish(t: nat, answer: Reply)
      requires Valid() && t in Now().turns && Now().turns[t].stage == Revoking([], answer)
      modifies this`run, this`acts
      ensures Valid() && t in Now().turns && Now().turns[t] == old(Now()).turns[t].(stage := Finished(answer))
    {
      Took(Revoke(t));
    }

    /** The turn's own share is not stored: it is revoked, and answer stands. */
    method Withdraw(t: nat, id: ShareID, answer: Reply)
      requires Valid() && t in Now().turns && Now().turns[t].stage == Revoking([id], answer)
      modifies this
      ensures Valid() && old(revoked) <= revoked && id in revoked
      ensures t in Now().turns && Now().turns[t] == old(Now()).turns[t].(stage := Finished(answer))
    {
      RevokeNext(t, [id], id, answer);
      Finish(t, answer);
    }

    /** shareFor: the token of the thread's share of session for turn t. */
    method ShareFor(t: nat, key: string, session: SessionID, sender: User, owner: bool) returns (answer: Reply)
      requires Valid() && t !in Now().turns && session != ""
      modifies this
      ensures Valid() && t in Now().turns
      ensures Now().turns[t] == Turn(key, session, sender, owner, Finished(answer))
    {
      ghost var turn := Turn(key, session, sender, owner, Reading);
      Took(Begin(t, turn));
      Meanwhile(t);
      var readFails: bool := *;
      if readFails {
        Took(ReadFails(t));
        return NoToken;
      }
      var entry := Visible(row, clock);
      var held := None;
      if entry.Some? {
        if entry.value.session == session && sender != "" && sender == entry.value.creator {
          Took(Read(t));
          return NoToken;
        }
        if entry.value.refusal.Some? && entry.value.refusal.value.session == session {
          Took(Read(t));
          return Refused(entry.value.refusal.value.reason);
        }
        held := entry.value.share;
        var margin := ExpiryMargin(threadTTL);
        if owner {
          margin := Renewal(threadTTL);
        }
        var token, opens := Open(key, held, session, margin);
        if opens {
          Took(Read(t));
          return Token(token);
        }
      }
      Took(Read(t));
      if !owner {
        return Unavailable;
      }
      assert Now().turns[t] == turn.(stage := Minting(held));
      answer := MintAndStore(t, key, session, sender, held);
    }

    /** The rest of shareFor, for a turn that has the creator's token and read held. */
    method MintAndStore(t: nat, key: string, session: SessionID, sender: User, held: Option<Share>)
      returns (answer: Reply)
      requires Valid() && t in Now().turns && Now().turns[t] == Turn(key, session, sender, true, Minting(held))
      modifies this
      ensures Valid() && t in Now().turns
      ensures Now().turns[t] == Turn(key, session, sender, true, Finished(answer))
    {
      var share, reply := CreateShare(t, key, session, sender, held);
      if share.None? {
        return reply;
      }
      Meanwhile(t);
      var sealFails: bool := *;
      if sealFails {
        Took(SealFails(t));
        Withdraw(t, share.value.id, NoToken);
        return NoToken;
      }
      var writeFails: bool := *;
      if writeFails {
        Took(PutFails(t));
        ghost var looked;
        answer, looked := Settle(t, key, session, sender, held, None, share.value);
        return;
      }
      var moved, winner, displaced := StoreShare(t, key, session, held, share.value);
      if winner.Some? {
        Withdraw(t, share.value.id, Token(winner.value));
        return Token(winner.value);
      }
      if moved {
        Withdraw(t, share.value.id, NoToken);
        return NoToken;
      }
      ghost var looked;
      answer, looked := Settle(t, key, session, sender, held, displaced, share.value);
    }

    /** The controller mints a share, refuses to share the session, or fails. */
    method CreateShare(t: nat, key: string, session: SessionID, sender: User, held: Option<Share>)
      returns (share: Option<Share>, reply: Reply)
      requires Valid() && t in Now().turns && Now().turns[t] == Turn(key, session, sender, true, Minting(held))
      modifies this
      ensures Valid() && t in Now().turns
      ensures share.None? ==> Now().turns[t] == Turn(key, session, sender, true, Finished(reply))
      ensures share.Some? ==> Now().turns[t] == Turn(key, session, sender, true, Holding(held, share.value))
                              && share.value.session == session
                              && share.value.secret == SealedToken(key, session, share.value.secret.token)
    {
      Meanwhile(t);
      share, reply := None, NoToken;
      var refusal: Option<string> := *;
      if refusal.Some? {
        row := Update(threadTTL, Refuse(session, refusal.value), row, clock);
        Took(MintRefused(t, refusal.value));
        return None, Refused(refusal.value);
      }
      var id: ShareID, token: string, expiresAt: Time := *, *, *;
      var minted: bool := *;
      if !minted || id in shares {
        Took(MintFails(t));
        return;
      }
      share := Some(Share(id, session, SealedToken(key, session, token), expiresAt));
      shares := shares[id := share.value];
      Took(Mint(t, id, token, expiresAt));
    }

    /** The atomic write that races the minted share in. */
    method StoreShare(t: nat, key: string, session: SessionID, held: Option<Share>, share: Share)
      returns (moved: bool, winner: Option<string>, displaced: Option<Share>)
      requires Valid() && t in Now().turns && Now().turns[t].stage == Holding(held, share)
      requires Now().turns[t].key == key && Now().turns[t].session == session && share.session == session
      modifies this
      ensures Valid() && t in Now().turns && acts == old(acts) + [Put(t)] && clock == old(clock)
      ensures Now().turns[t] == old(Now()).turns[t].(stage :=
        if winner.Some? then Revoking([share.id], Token(winner.value))
        else if moved then Revoking([share.id], NoToken)
        else Storing(held, displaced, share))
      ensures moved || winner.Some? ==> row == old(row)
      ensures !moved && winner.None? ==> RowShare(row) == Some(share)
    {
      moved, winner, displaced := false, None, None;
      var seen := Visible(row, clock);
      if seen.None? || seen.value.session != session {
        moved := true;
        Took(Put(t));
        return;
      }
      var e := seen.value;
      if e.share.Some? && (held.None? || e.share.value.id != held.value.id) {
        var token, opens := Open(key, e.share, session, 0);
        if opens {
          winner := Some(token);
          Took(Put(t));
          return;
        }
        displaced := e.share;
      }
      row := Some(e.(share := Some(share)));
      assert row == Update(threadTTL, PutShare(session, share.id, share.secret, share.expiresAt), old(row), clock);
      Took(Put(t));
    }

    /** The share is stored, or could not be: what it supersedes is revoked, but
        for a share replaced only for renewal, still valid when looked at. */
    method Settle(t: nat, key: string, session: SessionID, sender: User,
                  held: Option<Share>, displaced: Option<Share>, share: Share) returns (answer: Reply, ghost looked: Time)
      requires Valid() && t in Now().turns
      requires Now().turns[t] == Turn(key, session, sender, true, Storing(held, displaced, share))
      modifies this
      ensures Valid() && t in Now().turns && answer == Token(share.secret.token)
      ensures Now().turns[t] == Turn(key, session, sender, true, Finished(answer))
      ensures old(clock) <= looked <= clock
      ensures held.Some? && !Opens(key, held, session, 0, looked) ==> held.value.id in revoked
      ensures displaced.Some? ==> displaced.value.id in revoked
    {
      answer := Token(share.secret.token);
      Meanwhile(t);
      looked := clock;
      var _, stillValid := Open(key, held, session, 0);
      Took(ShareProtocol.Settle(t));
      ghost var owed := Now().turns[t].stage.ids;
      if held.Some? && !stillValid {
        RevokeNext(t, owed, held.value.id, answer);
        owed := owed[1..];
      }
      if displaced.Some? {
        RevokeNext(t, owed, displaced.value.id, answer);
        owed := owed[1..];
      }
      Finish(t, answer);
    }
  }

  predicate OfTurn(a: Action, t: nat) { !a.Tick? && !a.Other? && a.t == t }

  /** Whatever turns run these methods, in whatever order: once all are done,
      a share the controller minted is the row's, revoked, replaced for renewal
      or gone with its binding, unless its row write failed. */
  lemma NoShareLost(thread: Sharing, id: ShareID)
    requires thread.Valid() && Quiet(thread.Now()) && id in thread.shares
    ensures id !in thread.Now().unrecorded ==>
      id in IDs(RowShare(thread.row)) || id in thread.revoked || id in thread.Now().renewed || id in thread.Now().gone
  {
    SharesConserved(thread.run, thread.acts, id);
  }
}
