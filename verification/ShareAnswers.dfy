/** What a collaborator's turn is answered with, and upon what. */
module ShareAnswers {
  import opened LinkModel
  import opened ThreadRow
  import opened ShareProtocol
  import ShareFacade

  /** d, or half the thread's lifetime if that is less. */
  function AtMostHalf(threadTTL: Time, d: Time): Time { if threadTTL > 0 && threadTTL / 2 < d then threadTTL / 2 else d }

  /** A share of session, sealed for it under key, that outlives now by more than d. */
  predicate Outlives(share: Option<Share>, key: string, session: SessionID, d: Time, now: Time) {
    && share.Some? && share.value.session == session
    && share.value.secret.key == key && share.value.secret.session == session
    && (share.value.expiresAt == 0 || share.value.expiresAt - now > d)
  }

  /** The turn's sender created the session the row is bound to. */
  predicate OwnSession(row: Option<Entry>, turn: Turn) {
    row.Some? && row.value.session == turn.session && turn.sender != "" && turn.sender == row.value.creator
  }

  /** The row records that the controller refused to share the session. */
  predicate RefusedFor(row: Option<Entry>, turn: Turn) {
    row.Some? && row.value.refusal.Some? && row.value.refusal.value.session == turn.session
  }

  /** How long a share must last for the turn to use it: an hour when the turn may
      mint the next one, five minutes when it may not. */
  function Needed(threadTTL: Time, turn: Turn): Time { AtMostHalf(threadTTL, if turn.owner then 3_600_000 else 300_000) }

  /** The row, as read, makes answer the turn's. */
  predicate ReadAnswers(s: State, turn: Turn, answer: Reply) {
    var row := Visible(s.row, s.now);
    var usable := Outlives(RowShare(row), turn.key, turn.session, Needed(s.threadTTL, turn), s.now);
    match answer
    case NoToken => OwnSession(row, turn)
    case Refused(reason) => !OwnSession(row, turn) && RefusedFor(row, turn) && reason == row.value.refusal.value.reason
    case Token(token) =>
      && !OwnSession(row, turn) && !RefusedFor(row, turn)
      && usable && token == RowShare(row).value.secret.token
    case Unavailable =>
      !OwnSession(row, turn) && !RefusedFor(row, turn) && !usable && !turn.owner
  }

  /** The row, as read, makes the turn mint a share. */
  predicate ReadMints(s: State, turn: Turn) {
    var row := Visible(s.row, s.now);
    && turn.owner && !OwnSession(row, turn) && !RefusedFor(row, turn)
    && !Outlives(RowShare(row), turn.key, turn.session, Needed(s.threadTTL, turn), s.now)
  }

  /** The share a race was lost to: stored meanwhile, not the one read, and good. */
  predicate Won(s: State, turn: Turn, token: string)
    requires turn.stage.Holding?
  {
    var stored := RowShare(Visible(s.row, s.now));
    && Outlives(stored, turn.key, turn.session, 0, s.now) && token == stored.value.secret.token
    && stored.value.id !in IDs(turn.stage.held)
  }

  /** Step a decided the turn's answer, and this is why. */
  predicate Decides(s: State, a: Action, t: nat, answer: Reply)
  {
    && t in s.turns && Enabled(s, a)
    && var turn, row := s.turns[t], Visible(s.row, s.now);
    match a
    case Read(u) => u == t && ReadAnswers(s, turn, answer)
    case ReadFails(u) => u == t && answer.NoToken?
    case MintRefused(u, reason) => u == t && answer == Refused(reason)
    case MintFails(u) => u == t && answer.NoToken?
    case SealFails(u) => u == t && answer.NoToken?
    case Put(u) =>
      u == t && if row.None? || row.value.session != turn.session then answer.NoToken?
                else answer.Token? && Won(s, turn, answer.token)
    case Settle(u) => u == t && answer == Token(turn.stage.share.secret.token)
    case _ => false
  }

  lemma ReadDecides(s: State, t: nat)
    requires Enabled(s, Read(t)) && s.turns[t].session != ""
    ensures var stage := Do(s, Read(t)).turns[t].stage;
      match stage
      case Finished(answer) => ReadAnswers(s, s.turns[t], answer)
      case Minting(held) => ReadMints(s, s.turns[t]) && held == RowShare(Visible(s.row, s.now))
      case _ => false
  {
  }

  /** The answer the turn's stage carries. */
  predicate Carries(turn: Turn, answer: Reply) { turn.stage == Finished(answer) || (turn.stage.Revoking? && turn.stage.answer == answer) }

  predicate IsOf(a: Action, t: nat) { !a.Tick? && !a.Other? && a.t == t }

  lemma OthersKeepTurn(s: State, a: Action, n: State, t: nat)
    requires Enabled(s, a) && n == Do(s, a) && t in s.turns && !IsOf(a, t)
    ensures t in n.turns && n.turns[t] == s.turns[t]
  {
  }

  lemma PutDecidesSo(s: State, t: nat, n: State, answer: Reply)
    requires Enabled(s, Put(t)) && n == Do(s, Put(t)) && Carries(n.turns[t], answer)
    ensures Decides(s, Put(t), t, answer)
  {
  }

  lemma EndDecides(s: State, a: Action, n: State, answer: Reply)
    requires Enabled(s, a) && (a.SealFails? || a.Settle? || a.Revoke? || a.Mint?) && n == Do(s, a) && Carries(n.turns[a.t], answer)
    ensures Carries(s.turns[a.t], answer) || Decides(s, a, a.t, answer)
  {
  }

  lemma StepDecides(s: State, a: Action, n: State, t: nat, answer: Reply)
    requires Enabled(s, a) && n == Do(s, a) && t in s.turns && s.turns[t].session != "" && t in n.turns && Carries(n.turns[t], answer)
    ensures Carries(s.turns[t], answer) || Decides(s, a, t, answer)
  {
    if !IsOf(a, t) {
      OthersKeepTurn(s, a, n, t);
    } else if a.Read? {
      ReadDecides(s, t);
    } else if a.Put? {
      PutDecidesSo(s, t, n, answer);
    } else if a.SealFails? || a.Settle? || a.Revoke? || a.Mint? {
      EndDecides(s, a, n, answer);
    }
  }

  /** Every answer a turn comes to was decided at one of its steps, and what held
      at that moment is its reason. */
  lemma {:induction false} AnswerIsDecided(run: seq<State>, acts: seq<Action>, i: nat, t: nat, answer: Reply) returns (j: nat)
    requires IsRun(run, acts) && i < |run| && t in run[i].turns && Carries(run[i].turns[t], answer)
    ensures j < i && Decides(run[j], acts[j], t, answer)
  {
    j := i - 1;
    assert StepAt(run, acts, j);
    RunInv(run, acts, j);
    assert t in run[j].turns;
    assert TurnInv(run[j], run[j].turns[t]);
    StepDecides(run[j], acts[j], run[i], t, answer);
    if !Decides(run[j], acts[j], t, answer) { j := AnswerIsDecided(run, acts, j, t, answer); }
  }

  predicate MayMint(stage: Stage) { stage.Minting? || stage.Holding? || stage.Storing? }

  lemma StepMints(s: State, a: Action, n: State, t: nat)
    requires Enabled(s, a) && n == Do(s, a) && t in s.turns && s.turns[t].session != ""
    requires t in n.turns && MayMint(n.turns[t].stage) && !MayMint(s.turns[t].stage)
    ensures a == Read(t) && ReadMints(s, s.turns[t])
  {
    if !IsOf(a, t) {
      OthersKeepTurn(s, a, n, t);
    } else if a.Read? {
      ReadDecides(s, t);
    }
  }

  /** A turn mints only with the creator's token, and only where the row it read
      held no share of the session that lasts another hour, or half the lifetime. */
  lemma {:induction false} MintIsNeeded(run: seq<State>, acts: seq<Action>, i: nat, t: nat) returns (j: nat)
    requires IsRun(run, acts) && i < |run| && t in run[i].turns && MayMint(run[i].turns[t].stage)
    ensures j < i && acts[j] == Read(t) && t in run[j].turns && ReadMints(run[j], run[j].turns[t])
  {
    j := i - 1;
    assert StepAt(run, acts, j);
    RunInv(run, acts, j);
    assert t in run[j].turns;
    if MayMint(run[j].turns[t].stage) {
      j := MintIsNeeded(run, acts, j, t);
    } else {
      assert TurnInv(run[j], run[j].turns[t]);
      StepMints(run[j], acts[j], run[i], t);
    }
  }

  /** What the controller refused is answered from the row, without asking it again. */
  lemma RefusalIsRemembered(s: State, n: State, t: nat, reason: string, u: nat)
    requires Enabled(s, MintRefused(t, reason)) && n == Do(s, MintRefused(t, reason))
    requires var row := Visible(s.row, s.now); row.Some? && row.value.session == s.turns[t].session
    requires u in n.turns && n.turns[u].stage.Reading? && n.turns[u].session == s.turns[t].session
    requires !OwnSession(Visible(n.row, n.now), n.turns[u])
    ensures Do(n, Read(u)).turns[u].stage == Finished(Refused(reason))
  {
    assert Visible(n.row, n.now).value.refusal == Some(ShareRefusal(s.turns[t].session, reason));
  }

  /** So it is with the answer of shareFor, whatever other turns did meanwhile. */
  lemma ShareForAnswers(thread: ShareFacade.Sharing, t: nat, answer: Reply) returns (j: nat)
    requires thread.Valid() && t in thread.Now().turns && thread.Now().turns[t].stage == Finished(answer)
    ensures j < |thread.acts| && Decides(thread.run[j], thread.acts[j], t, answer)
  {
    j := AnswerIsDecided(thread.run, thread.acts, |thread.acts|, t, answer);
  }
}
