/** Collaborator turns of one thread minting, storing, racing and revoking the
    shares of its session, as a step relation over any number of turns. */
module ShareProtocol {
  import opened LinkModel
  import opened ThreadRow

  type ShareID = string

  const HOUR: Time := 3_600_000
  const MINUTE: Time := 60_000

  function Min(a: Time, b: Time): Time { if a < b then a else b }

  /** How long before its expiry a share is replaced when a next one can be minted. */
  function Renewal(threadTTL: Time): Time { if threadTTL > 0 then Min(HOUR, threadTTL / 2) else HOUR }

  /** How long a share must stay valid for a turn to start on it when none can. */
  function ExpiryMargin(threadTTL: Time): Time { Min(5 * MINUTE, Renewal(threadTTL)) }

  /** openShare under a process's key. */
  predicate Opens(key: string, share: Option<Share>, session: SessionID, margin: Time, now: Time) {
    && share.Some? && session != "" && share.value.session == session
    && (share.value.expiresAt == 0 || now + margin < share.value.expiresAt)
    && share.value.secret.key == key && share.value.secret.session == session
  }

  datatype Reply = Token(token: string) | NoToken | Refused(reason: string) | Unavailable

  /** Where a turn stands in shareFor. */
  datatype Stage =
    | Reading
    | Minting(held: Option<Share>)
    | Holding(held: Option<Share>, share: Share)
    | Storing(held: Option<Share>, displaced: Option<Share>, share: Share) // row written, nothing revoked yet
    | Revoking(ids: seq<ShareID>, answer: Reply)
    | Finished(answer: Reply)

  /** A collaborator's turn: its process's key, the thread's session as the turn
      knows it, its sender, and whether it has the session creator's token. */
  datatype Turn = Turn(key: string, session: SessionID, sender: User, owner: bool, stage: Stage)

  datatype State = State(
    threadTTL: Time, now: Time, row: Option<Entry>,
    minted: map<ShareID, Share>,
    revoked: set<ShareID>,
    renewed: map<ShareID, Time>,   // replaced while still valid, and when
    gone: set<ShareID>,            // the row dropped it with its binding
    unrecorded: set<ShareID>,      // the row write failed
    turns: map<nat, Turn>)

  datatype Action =
    | Tick(ms: nat)
    | Other(w: Write)              // any other writer of the row
    | Begin(t: nat, turn: Turn)
    | Read(t: nat)
    | ReadFails(t: nat)
    | Mint(t: nat, id: ShareID, token: string, expiresAt: Time)
    | MintRefused(t: nat, reason: string)
    | MintFails(t: nat)
    | SealFails(t: nat)
    | Put(t: nat)
    | PutFails(t: nat)
    | Settle(t: nat)
    | Revoke(t: nat)

  predicate Enabled(s: State, a: Action) {
    match a
    case Tick(_) => true
    case Other(w) => !w.PutShare?
    case Begin(t, turn) => t !in s.turns && turn.stage.Reading? && turn.session != ""
    case Read(t) => t in s.turns && s.turns[t].stage.Reading?
    case ReadFails(t) => t in s.turns && s.turns[t].stage.Reading?
    case Mint(t, id, _, _) => t in s.turns && s.turns[t].stage.Minting? && id !in s.minted
    case MintRefused(t, _) => t in s.turns && s.turns[t].stage.Minting?
    case MintFails(t) => t in s.turns && s.turns[t].stage.Minting?
    case SealFails(t) => t in s.turns && s.turns[t].stage.Holding?
    case Put(t) => t in s.turns && s.turns[t].stage.Holding?
    case PutFails(t) => t in s.turns && s.turns[t].stage.Holding?
    case Settle(t) => t in s.turns && s.turns[t].stage.Storing?
    case Revoke(t) => t in s.turns && s.turns[t].stage.Revoking?
  }

  function RowShare(row: Option<Entry>): Option<Share> {
    if row.Some? then row.value.share else None
  }

  function IDs(share: Option<Share>): set<ShareID> {
    if share.Some? then {share.value.id} else {}
  }

  function At(s: State, t: nat, stage: Stage): State
    requires t in s.turns
  {
    s.(turns := s.turns[t := s.turns[t].(stage := stage)])
  }

  /** What a turn's read of the row decides. */
  function AfterRead(s: State, turn: Turn): Stage {
    var seen := Visible(s.row, s.now);
    var held := RowShare(seen);
    var margin := if turn.owner then Renewal(s.threadTTL) else ExpiryMargin(s.threadTTL);
    if seen.Some? && seen.value.session == turn.session && turn.sender != "" && turn.sender == seen.value.creator
    then Finished(NoToken)
    else if seen.Some? && seen.value.refusal.Some? && seen.value.refusal.value.session == turn.session
    then Finished(Refused(seen.value.refusal.value.reason))
    else if Opens(turn.key, held, turn.session, margin, s.now) then Finished(Token(held.value.secret.token))
    else if !turn.owner then Finished(Unavailable)
    else Minting(held)
  }

  /** The compare-and-set that stores a minted share. */
  function AfterPut(s: State, turn: Turn): (Option<Entry>, Stage)
    requires turn.stage.Holding?
  {
    var held, share := turn.stage.held, turn.stage.share;
    var seen := Visible(s.row, s.now);
    var stored := RowShare(seen);
    if seen.None? || seen.value.session != turn.session then (s.row, Revoking([share.id], NoToken))
    else
      var raced := stored.Some? && (held.None? || stored.value.id != held.value.id);
      if raced && Opens(turn.key, stored, turn.session, 0, s.now)
      then (s.row, Revoking([share.id], Token(stored.value.secret.token)))
      else (Update(s.threadTTL, PutShare(turn.session, share.id, share.secret, share.expiresAt), s.row, s.now),
            Storing(held, if raced then stored else None, share))
  }

  /** The held share stays valid until its expiry: it was replaced for renewal. */
  predicate StillValid(s: State, turn: Turn)
    requires turn.stage.Storing?
  {
    Opens(turn.key, turn.stage.held, turn.session, 0, s.now)
  }

  /** The shares the stored one leaves to be revoked. */
  function Superseded(s: State, turn: Turn): (ids: seq<ShareID>)
    requires turn.stage.Storing?
    ensures forall id :: id in ids <==>
      (id in IDs(turn.stage.held) && !StillValid(s, turn)) || id in IDs(turn.stage.displaced)
  {
    var held, displaced := turn.stage.held, turn.stage.displaced;
    (if held.Some? && !StillValid(s, turn) then [held.value.id] else [])
    + (if displaced.Some? then [displaced.value.id] else [])
  }

  function Do(s: State, a: Action): State
    requires Enabled(s, a)
  {
    match a
    case Tick(ms) => s.(now := s.now + ms)
    case Other(w) =>
      var row := Update(s.threadTTL, w, s.row, s.now);
      s.(row := row, gone := s.gone + (IDs(RowShare(s.row)) - IDs(RowShare(row))))
    case Begin(t, turn) => s.(turns := s.turns[t := turn])
    case Read(t) => At(s, t, AfterRead(s, s.turns[t]))
    case ReadFails(t) => At(s, t, Finished(NoToken))
    case Mint(t, id, token, expiresAt) =>
      var turn := s.turns[t];
      var share := Share(id, turn.session, SealedToken(turn.key, turn.session, token), expiresAt);
      At(s, t, Holding(turn.stage.held, share)).(minted := s.minted[id := share])
    case MintRefused(t, reason) =>
      At(s, t, Finished(Refused(reason))).(row := Update(s.threadTTL, Refuse(s.turns[t].session, reason), s.row, s.now))
    case MintFails(t) => At(s, t, Finished(NoToken))
    case SealFails(t) => At(s, t, Revoking([s.turns[t].stage.share.id], NoToken))
    case Put(t) =>
      var (row, stage) := AfterPut(s, s.turns[t]);
      At(s, t, stage).(row := row)
    case PutFails(t) =>
      var stage := s.turns[t].stage;
      At(s, t, Storing(stage.held, None, stage.share)).(unrecorded := s.unrecorded + {stage.share.id})
    case Settle(t) =>
      var turn := s.turns[t];
      At(s, t, Revoking(Superseded(s, turn), Token(turn.stage.share.secret.token)))
      .(renewed := if StillValid(s, turn) then s.renewed[turn.stage.held.value.id := s.now] else s.renewed)
    case Revoke(t) =>
      var stage := s.turns[t].stage;
      if stage.ids == [] then At(s, t, Finished(stage.answer))
      else At(s, t, Revoking(stage.ids[1..], stage.answer)).(revoked := s.revoked + {stage.ids[0]})
  }

  // --- conservation ------------------------------------------------------------------

  /** The shares a running turn still has to store or revoke. */
  function Owes(turn: Turn): set<ShareID> {
    match turn.stage
    case Holding(_, share) => {share.id}
    case Storing(held, displaced, _) => IDs(held) + IDs(displaced)
    case Revoking(ids, _) => set id | id in ids
    case _ => {}
  }

  /** The shares a running turn can still act on. */
  function Knows(turn: Turn): set<ShareID> {
    match turn.stage
    case Minting(held) => IDs(held)
    case Holding(held, share) => IDs(held) + {share.id}
    case _ => Owes(turn)
  }

  /** Where a share may end: the row's, revoked, replaced while still valid, or
      dropped by the row with the binding it was for. */
  predicate Ended(s: State, id: ShareID) {
    id in IDs(RowShare(s.row)) || id in s.revoked || id in s.renewed || id in s.gone
  }

  ghost predicate Placed(s: State, id: ShareID) {
    Ended(s, id) || exists t :: t in s.turns && id in Owes(s.turns[t])
  }

  predicate Known(s: State, id: ShareID) { id in s.minted && id !in s.unrecorded }

  predicate KnownShare(s: State, share: Option<Share>) {
    share.Some? ==> Known(s, share.value.id) && s.minted[share.value.id] == share.value
  }

  predicate MintedFor(s: State, turn: Turn, share: Share) {
    share.id in s.minted && s.minted[share.id] == share && share.session == turn.session
    && share.secret.session == turn.session && share.secret.key == turn.key
  }

  /** A token a turn answers with is that of a share minted for the turn's
      session, sealed under its process's key. */
  ghost predicate Backed(s: State, turn: Turn, answer: Reply) {
    answer.Token? ==>
      exists id :: id in s.minted && MintedFor(s, turn, s.minted[id]) && s.minted[id].secret.token == answer.token
  }

  ghost predicate TurnInv(s: State, turn: Turn) {
    && turn.session != ""
    && (forall id :: id in Knows(turn) ==> Known(s, id))
    && (s.unrecorded == {} && !turn.stage.Holding? ==> Owes(turn) !! IDs(RowShare(s.row)))
    && match turn.stage
       case Minting(held) => KnownShare(s, held)
       case Holding(held, share) =>
         KnownShare(s, held) && MintedFor(s, turn, share) && share.id !in IDs(held) && !Ended(s, share.id)
       case Storing(held, displaced, share) => KnownShare(s, held) && MintedFor(s, turn, share)
       case Revoking(_, answer) => Backed(s, turn, answer)
       case Finished(answer) => Backed(s, turn, answer)
       case Reading => true
  }

  ghost predicate SharesInv(s: State) {
    && KnownShare(s, RowShare(s.row))
    && (forall id :: id in s.revoked || id in s.renewed || id in s.gone ==> Known(s, id))
    && (forall id :: id in s.unrecorded ==> id in s.minted)
    && (forall id :: id in s.renewed ==> s.minted[id].expiresAt == 0 || s.renewed[id] < s.minted[id].expiresAt)
    && (s.unrecorded == {} ==> s.revoked !! IDs(RowShare(s.row)))
  }

  ghost predicate TurnsInv(s: State) {
    && (forall t :: t in s.turns ==> TurnInv(s, s.turns[t]))
    && (forall t, u :: t in s.turns && u in s.turns && t != u && s.turns[t].stage.Holding? ==>
          s.turns[t].stage.share.id !in Knows(s.turns[u]))
  }

  ghost predicate Inv(s: State) {
    SharesInv(s) && TurnsInv(s) && forall id :: id in s.minted && id !in s.unrecorded ==> Placed(s, id)
  }

  /** Only PutShare gives a row a share; any other writer keeps it or drops it. */
  lemma OthersKeepOrDrop(threadTTL: Time, w: Write, row: Option<Entry>, at: Time)
    requires !w.PutShare?
    ensures RowShare(Update(threadTTL, w, row, at)) == RowShare(row) || RowShare(Update(threadTTL, w, row, at)).None?
  {
    match w
    case Record(now, m) => match m { case SetInitiator(_) => case _ => }
    case Bind(_, _, _, _, _) =>
    case _ =>
  }

  /** Turn t did all that changed between s and n. */
  ghost predicate StepOf(s: State, n: State, t: nat) {
    && t in s.turns && t in n.turns
    && (forall u :: u in s.turns && u != t ==> u in n.turns && n.turns[u] == s.turns[u])
    && (forall u :: u in n.turns ==> u in s.turns)
    && (forall id :: id in s.minted ==> id in n.minted && n.minted[id] == s.minted[id])
    && s.unrecorded <= n.unrecorded
    && (forall id :: id in n.unrecorded && id !in s.unrecorded ==>
          s.turns[t].stage.Holding? && id == s.turns[t].stage.share.id)
    && (forall id :: Ended(n, id) && !Ended(s, id) ==> id in Knows(s.turns[t]))
    && (forall id :: id in IDs(RowShare(n.row)) && id !in IDs(RowShare(s.row)) ==>
          s.turns[t].stage.Holding? && id == s.turns[t].stage.share.id)
    && (n.turns[t].stage.Holding? && !s.turns[t].stage.Holding? ==> n.turns[t].stage.share.id !in s.minted)
    && (n.turns[t].stage.Holding? ==> !s.turns[t].stage.Holding?)
    && (forall id :: id in Knows(n.turns[t]) ==>
          id in Knows(s.turns[t]) || id !in s.minted || id in IDs(RowShare(s.row)))
  }

  lemma BackedKept(s: State, n: State, turn: Turn, answer: Reply)
    requires Backed(s, turn, answer) && forall id :: id in s.minted ==> id in n.minted && n.minted[id] == s.minted[id]
    ensures Backed(n, turn, answer)
  {
    if answer.Token? {
      var id :| id in s.minted && MintedFor(s, turn, s.minted[id]) && s.minted[id].secret.token == answer.token;
      assert id in n.minted && MintedFor(n, turn, n.minted[id]);
    }
  }

  /** A turn's step leaves what it must not touch of another turn's alone. */
  lemma OtherTurnKept(s: State, n: State, t: nat, u: nat)
    requires SharesInv(s) && TurnsInv(s) && StepOf(s, n, t) && u in s.turns && u != t
    requires forall id :: Ended(n, id) && !Ended(s, id) && s.turns[u].stage.Holding? ==> id != s.turns[u].stage.share.id
    ensures TurnInv(n, s.turns[u])
  {
    var turn := s.turns[u];
    assert TurnInv(s, turn);
    assert s.turns[t].stage.Holding? ==> s.turns[t].stage.share.id !in Knows(turn);
    if turn.stage.Revoking? || turn.stage.Finished? { BackedKept(s, n, turn, turn.stage.answer); }
    assert Owes(turn) <= Knows(turn);
  }

  lemma StepKeepsTurns(s: State, n: State, t: nat)
    requires SharesInv(s) && TurnsInv(s) && StepOf(s, n, t) && TurnInv(n, n.turns[t])
    ensures TurnsInv(n)
  {
    assert TurnInv(s, s.turns[t]);
    forall u | u in n.turns ensures TurnInv(n, n.turns[u]) {
      if u != t {
        assert TurnInv(s, s.turns[u]);
        OtherTurnKept(s, n, t, u);
      }
    }
    forall u, v | u in n.turns && v in n.turns && u != v && n.turns[u].stage.Holding?
      ensures n.turns[u].stage.share.id !in Knows(n.turns[v])
    {
      assert TurnInv(s, s.turns[u]) && TurnInv(s, s.turns[v]);
      if u == t {
        assert n.turns[u].stage.share.id !in s.minted;
      } else if v == t {
        assert s.turns[u].stage.share.id !in Knows(s.turns[t]);
        assert s.turns[u].stage.share.id !in IDs(RowShare(s.row));
      }
    }
  }

  // --- each action keeps the invariant ---------------------------------------------

  /** No share loses its place by turn t's step from s to n. */
  ghost predicate PlacesMove(s: State, n: State, t: nat)
    requires t in s.turns && t in n.turns
  {
    && (forall id :: Ended(s, id) ==> Ended(n, id) || id in Owes(n.turns[t]))
    && (forall id :: id in Owes(s.turns[t]) ==> Ended(n, id) || id in Owes(n.turns[t]) || id in n.unrecorded)
    && (forall id :: id in n.minted ==> id in s.minted || id in Owes(n.turns[t]))
  }

  lemma PlacesKept(s: State, n: State, t: nat)
    requires forall id :: id in s.minted && id !in s.unrecorded ==> Placed(s, id)
    requires StepOf(s, n, t) && PlacesMove(s, n, t)
    ensures forall id :: id in n.minted && id !in n.unrecorded ==> Placed(n, id)
  {
    forall id | id in n.minted && id !in n.unrecorded ensures Placed(n, id) {
      if id in Owes(n.turns[t]) {
      } else if Ended(s, id) {
      } else {
        assert Placed(s, id);
        var u :| u in s.turns && id in Owes(s.turns[u]);
        if u != t { assert n.turns[u] == s.turns[u]; }
      }
    }
  }

  /** What one step of turn t establishes, seen from the shares and its own stage. */
  ghost predicate Sound(s: State, n: State, t: nat) {
    StepOf(s, n, t) && PlacesMove(s, n, t) && SharesInv(n) && TurnInv(n, n.turns[t])
  }

  lemma ReadSteps(s: State, t: nat)
    requires SharesInv(s) && t in s.turns && s.turns[t].stage.Reading? && TurnInv(s, s.turns[t])
    ensures StepOf(s, At(s, t, AfterRead(s, s.turns[t])), t) && PlacesMove(s, At(s, t, AfterRead(s, s.turns[t])), t)
  {
    var turn := s.turns[t];
    var stage := AfterRead(s, turn);
    var n := At(s, t, stage);
    if stage.Finished? && stage.answer.Token? {
      var share := RowShare(Visible(s.row, s.now)).value;
      assert MintedFor(n, n.turns[t], n.minted[share.id]);
    }
  }

  lemma ReadKeepsShares(s: State, t: nat)
    requires SharesInv(s) && t in s.turns && s.turns[t].stage.Reading? && TurnInv(s, s.turns[t])
    ensures SharesInv(At(s, t, AfterRead(s, s.turns[t]))) && TurnInv(At(s, t, AfterRead(s, s.turns[t])), At(s, t, AfterRead(s, s.turns[t])).turns[t])
  {
    var turn := s.turns[t];
    var stage := AfterRead(s, turn);
    var n := At(s, t, stage);
    if stage.Finished? && stage.answer.Token? {
      var share := RowShare(Visible(s.row, s.now)).value;
      assert MintedFor(n, n.turns[t], n.minted[share.id]);
    }
    assert TurnInv(n, n.turns[t]);
  }

  lemma ReadIsSound(s: State, t: nat)
    requires SharesInv(s) && t in s.turns && s.turns[t].stage.Reading? && TurnInv(s, s.turns[t])
    ensures Sound(s, At(s, t, AfterRead(s, s.turns[t])), t)
  {
    ReadSteps(s, t);
    ReadKeepsShares(s, t);
  }

  lemma MintSteps(s: State, a: Action)
    requires a.Mint? && Enabled(s, a) && SharesInv(s) && TurnInv(s, s.turns[a.t])
    ensures StepOf(s, Do(s, a), a.t) && PlacesMove(s, Do(s, a), a.t)
  {
    var n := Do(s, a);
    assert n.turns[a.t].stage.Holding?;
  }

  lemma MintKeepsShares(s: State, a: Action)
    requires a.Mint? && Enabled(s, a) && SharesInv(s) && TurnInv(s, s.turns[a.t])
    ensures SharesInv(Do(s, a)) && TurnInv(Do(s, a), Do(s, a).turns[a.t])
  {
    var n := Do(s, a);
    assert n.turns[a.t].stage.Holding?;
    assert TurnInv(n, n.turns[a.t]);
  }

  lemma MintIsSound(s: State, a: Action)
    requires a.Mint? && Enabled(s, a) && SharesInv(s) && TurnInv(s, s.turns[a.t])
    ensures Sound(s, Do(s, a), a.t)
  {
    MintSteps(s, a);
    MintKeepsShares(s, a);
  }

  lemma GiveUpSteps(s: State, a: Action)
    requires (a.ReadFails? || a.MintFails? || a.MintRefused?) && Enabled(s, a) && SharesInv(s) && TurnInv(s, s.turns[a.t])
    ensures StepOf(s, Do(s, a), a.t) && PlacesMove(s, Do(s, a), a.t)
  {
    var n := Do(s, a);
    assert RowShare(n.row) == RowShare(s.row);
    assert Knows(n.turns[a.t]) == {};
  }

  lemma GiveUpKeepsShares(s: State, a: Action)
    requires (a.ReadFails? || a.MintFails? || a.MintRefused?) && Enabled(s, a) && SharesInv(s) && TurnInv(s, s.turns[a.t])
    ensures SharesInv(Do(s, a)) && TurnInv(Do(s, a), Do(s, a).turns[a.t])
  {
    var n := Do(s, a);
    assert RowShare(n.row) == RowShare(s.row);
    assert SharesInv(n);
    assert Knows(n.turns[a.t]) == {};
    assert TurnInv(n, n.turns[a.t]);
  }

  lemma GiveUpIsSound(s: State, a: Action)
    requires (a.ReadFails? || a.MintFails? || a.MintRefused?) && Enabled(s, a) && SharesInv(s) && TurnInv(s, s.turns[a.t])
    ensures Sound(s, Do(s, a), a.t)
  {
    GiveUpSteps(s, a);
    GiveUpKeepsShares(s, a);
  }

  /** The compare-and-set, whatever landed since the turn read the row: the row
      moved and nothing is stored; another share that opens won and its token is
      the answer; or this share is stored, and the one it took the place of is
      the one read or one that does not open here. */
  lemma PutDecides(s: State, turn: Turn, row: Option<Entry>, stage: Stage)
    requires turn.stage.Holding? && turn.session != "" && AfterPut(s, turn) == (row, stage)
    requires turn.stage.share.session == turn.session && turn.stage.share.secret.session == turn.session
    ensures stage.Revoking? ==> row == s.row && stage.ids == [turn.stage.share.id]
    ensures stage.Revoking? ==> (stage.answer.NoToken? ||
      (RowShare(row).Some? && Opens(turn.key, RowShare(row), turn.session, 0, s.now)
       && RowShare(row).value.id !in IDs(turn.stage.held) && stage.answer == Token(RowShare(row).value.secret.token)))
    ensures !stage.Revoking? ==> (
      && stage.Storing? && stage.held == turn.stage.held && stage.share == turn.stage.share
      && RowShare(row) == Some(stage.share)
      && (IDs(RowShare(s.row)) <= IDs(stage.held) || stage.displaced == RowShare(s.row))
      && (stage.displaced.Some? ==> stage.displaced == RowShare(s.row)
                                    && !Opens(turn.key, stage.displaced, turn.session, 0, s.now)))
  {
    assert Visible(s.row, s.now).Some? ==> Visible(s.row, s.now) == s.row;
  }

  lemma StoreIsSound(s: State, t: nat, row: Option<Entry>, stage: Stage)
    requires t in s.turns && s.turns[t].stage.Holding? && SharesInv(s) && TurnInv(s, s.turns[t])
    requires stage.Storing? && stage.held == s.turns[t].stage.held && stage.share == s.turns[t].stage.share
    requires RowShare(row) == Some(stage.share)
    requires IDs(RowShare(s.row)) <= IDs(stage.held) || stage.displaced == RowShare(s.row)
    requires stage.displaced.Some? ==> stage.displaced == RowShare(s.row)
    ensures Sound(s, At(s, t, stage).(row := row), t)
  {
    var n, turn := At(s, t, stage).(row := row), s.turns[t];
    assert stage.share.id in Knows(turn) && Known(s, stage.share.id);
    assert SharesInv(n);
    assert forall id :: id in Knows(n.turns[t]) ==> id in IDs(turn.stage.held) || id in IDs(RowShare(s.row));
    assert TurnInv(n, n.turns[t]);
  }

  lemma YieldIsSound(s: State, t: nat, answer: Reply)
    requires t in s.turns && s.turns[t].stage.Holding? && SharesInv(s) && TurnInv(s, s.turns[t])
    requires answer.NoToken? || (Opens(s.turns[t].key, RowShare(s.row), s.turns[t].session, 0, s.now)
                                 && answer == Token(RowShare(s.row).value.secret.token))
    ensures Sound(s, At(s, t, Revoking([s.turns[t].stage.share.id], answer)), t)
  {
    var n, turn := At(s, t, Revoking([s.turns[t].stage.share.id], answer)), s.turns[t];
    assert Owes(n.turns[t]) == {turn.stage.share.id};
    assert turn.stage.share.id in Knows(turn);
    if answer.Token? { assert MintedFor(n, n.turns[t], n.minted[RowShare(s.row).value.id]); }
    assert SharesInv(n);
    assert TurnInv(n, n.turns[t]);
  }

  lemma PutIsSound(s: State, a: Action)
    requires a.Put? && Enabled(s, a) && SharesInv(s) && TurnInv(s, s.turns[a.t])
    ensures Sound(s, Do(s, a), a.t)
  {
    var (row, stage) := AfterPut(s, s.turns[a.t]);
    PutDecides(s, s.turns[a.t], row, stage);
    if stage.Revoking? {
      YieldIsSound(s, a.t, stage.answer);
      assert Do(s, a) == At(s, a.t, stage);
    } else {
      StoreIsSound(s, a.t, row, stage);
    }
  }

  lemma PutFailsSteps(s: State, a: Action)
    requires a.PutFails? && Enabled(s, a) && SharesInv(s) && TurnInv(s, s.turns[a.t])
    ensures StepOf(s, Do(s, a), a.t) && PlacesMove(s, Do(s, a), a.t)
  {
    var n := Do(s, a);
    assert n.unrecorded != {} by { assert s.turns[a.t].stage.share.id in n.unrecorded; }
  }

  lemma PutFailsKeepsShares(s: State, a: Action)
    requires a.PutFails? && Enabled(s, a) && SharesInv(s) && TurnInv(s, s.turns[a.t])
    ensures SharesInv(Do(s, a)) && TurnInv(Do(s, a), Do(s, a).turns[a.t])
  {
    var n := Do(s, a);
    assert n.unrecorded != {} by { assert s.turns[a.t].stage.share.id in n.unrecorded; }
    assert TurnInv(n, n.turns[a.t]);
  }

  lemma PutFailsIsSound(s: State, a: Action)
    requires a.PutFails? && Enabled(s, a) && SharesInv(s) && TurnInv(s, s.turns[a.t])
    ensures Sound(s, Do(s, a), a.t)
  {
    PutFailsSteps(s, a);
    PutFailsKeepsShares(s, a);
  }

  lemma SettleSteps(s: State, a: Action)
    requires a.Settle? && Enabled(s, a) && SharesInv(s) && TurnInv(s, s.turns[a.t])
    ensures StepOf(s, Do(s, a), a.t) && PlacesMove(s, Do(s, a), a.t)
  {
    var n, turn := Do(s, a), s.turns[a.t];
    assert MintedFor(n, n.turns[a.t], n.minted[turn.stage.share.id]);
    assert Knows(n.turns[a.t]) <= Knows(turn);
    assert Owes(turn) <= Owes(n.turns[a.t]) + n.renewed.Keys;
    if StillValid(s, turn) { assert turn.stage.held.value.id in Knows(turn); }
  }

  lemma SettleKeepsShares(s: State, a: Action)
    requires a.Settle? && Enabled(s, a) && SharesInv(s) && TurnInv(s, s.turns[a.t])
    ensures SharesInv(Do(s, a)) && TurnInv(Do(s, a), Do(s, a).turns[a.t])
  {
    var n, turn := Do(s, a), s.turns[a.t];
    assert MintedFor(n, n.turns[a.t], n.minted[turn.stage.share.id]);
    assert Knows(n.turns[a.t]) <= Knows(turn);
    assert Owes(turn) <= Owes(n.turns[a.t]) + n.renewed.Keys;
    if StillValid(s, turn) { assert turn.stage.held.value.id in Knows(turn); }
    assert SharesInv(n);
    assert TurnInv(n, n.turns[a.t]);
  }

  lemma SettleIsSound(s: State, a: Action)
    requires a.Settle? && Enabled(s, a) && SharesInv(s) && TurnInv(s, s.turns[a.t])
    ensures Sound(s, Do(s, a), a.t)
  {
    SettleSteps(s, a);
    SettleKeepsShares(s, a);
  }

  lemma RevokeSteps(s: State, a: Action)
    requires a.Revoke? && Enabled(s, a) && SharesInv(s) && TurnInv(s, s.turns[a.t])
    ensures StepOf(s, Do(s, a), a.t) && PlacesMove(s, Do(s, a), a.t)
  {
    var n, turn := Do(s, a), s.turns[a.t];
    var ids := turn.stage.ids;
    if ids != [] {
      assert ids[0] in Owes(turn) && Known(s, ids[0]) by { assert ids[0] in Knows(turn); }
      assert Knows(n.turns[a.t]) <= Knows(turn);
      assert forall id :: id in Owes(turn) ==> id == ids[0] || id in ids[1..];
    }
  }

  lemma RevokeKeepsShares(s: State, a: Action)
    requires a.Revoke? && Enabled(s, a) && SharesInv(s) && TurnInv(s, s.turns[a.t])
    ensures SharesInv(Do(s, a)) && TurnInv(Do(s, a), Do(s, a).turns[a.t])
  {
    var n, turn := Do(s, a), s.turns[a.t];
    var ids := turn.stage.ids;
    BackedKept(s, n, turn, turn.stage.answer);
    assert Backed(n, n.turns[a.t], turn.stage.answer) by { if turn.stage.answer.Token? {
      var id :| id in n.minted && MintedFor(n, turn, n.minted[id]) && n.minted[id].secret.token == turn.stage.answer.token;
      assert MintedFor(n, n.turns[a.t], n.minted[id]);
    } }
    if ids != [] {
      assert ids[0] in Owes(turn) && Known(s, ids[0]) by { assert ids[0] in Knows(turn); }
      assert Knows(n.turns[a.t]) <= Knows(turn);
      assert forall id :: id in Owes(turn) ==> id == ids[0] || id in ids[1..];
    }
    assert SharesInv(n);
    assert TurnInv(n, n.turns[a.t]);
  }

  lemma RevokeIsSound(s: State, a: Action)
    requires a.Revoke? && Enabled(s, a) && SharesInv(s) && TurnInv(s, s.turns[a.t])
    ensures Sound(s, Do(s, a), a.t)
  {
    RevokeSteps(s, a);
    RevokeKeepsShares(s, a);
  }

  lemma TurnStepKeepsInv(s: State, a: Action)
    requires Inv(s) && Enabled(s, a) && !a.Tick? && !a.Other? && !a.Begin?
    ensures Inv(Do(s, a))
  {
    var n := Do(s, a);
    assert TurnInv(s, s.turns[a.t]);
    assert Sound(s, n, a.t) by {
      match a
      case Read(t) => ReadIsSound(s, t);
      case ReadFails(_) => GiveUpIsSound(s, a);
      case Mint(_, _, _, _) => MintIsSound(s, a);
      case Put(_) => PutIsSound(s, a);
      case PutFails(_) => PutFailsIsSound(s, a);
      case Settle(_) => SettleIsSound(s, a);
      case Revoke(_) => RevokeIsSound(s, a);
      case MintRefused(_, _) => GiveUpIsSound(s, a);
      case MintFails(_) => GiveUpIsSound(s, a);
      case SealFails(t) => YieldIsSound(s, t, NoToken);
    }
    StepKeepsTurns(s, n, a.t);
    PlacesKept(s, n, a.t);
  }

  lemma RestKeepsTurns(s: State, a: Action)
    requires SharesInv(s) && TurnsInv(s) && Enabled(s, a) && (a.Tick? || a.Other? || a.Begin?)
    requires a.Other? ==> RowShare(Do(s, a).row) == RowShare(s.row) || RowShare(Do(s, a).row).None?
    ensures TurnsInv(Do(s, a))
  {
    var n := Do(s, a);
    forall t | t in n.turns ensures TurnInv(n, n.turns[t]) {
      if t in s.turns {
        assert n.turns[t] == s.turns[t] && TurnInv(s, s.turns[t]);
        var stage := s.turns[t].stage;
        if stage.Revoking? || stage.Finished? { BackedKept(s, n, s.turns[t], stage.answer); }
      }
    }
  }

  lemma RestKeepsInv(s: State, a: Action)
    requires Inv(s) && Enabled(s, a) && (a.Tick? || a.Other? || a.Begin?)
    ensures Inv(Do(s, a))
  {
    var n := Do(s, a);
    if a.Other? { OthersKeepOrDrop(s.threadTTL, a.w, s.row, s.now); }
    assert SharesInv(n);
    RestKeepsTurns(s, a);
    forall id | id in n.minted && id !in n.unrecorded ensures Placed(n, id) {
      assert Placed(s, id);
      if !Ended(s, id) {
        var t :| t in s.turns && id in Owes(s.turns[t]);
        assert t in n.turns && id in Owes(n.turns[t]);
      }
    }
  }

  /** Every action of every turn, every other writer and the clock keep the invariant. */
  lemma StepKeepsInv(s: State, a: Action)
    requires Inv(s) && Enabled(s, a)
    ensures Inv(Do(s, a))
  {
    if a.Tick? || a.Other? || a.Begin? { RestKeepsInv(s, a); } else { TurnStepKeepsInv(s, a); }
  }

  // --- whole runs -----------------------------------------------------------------------

  predicate Init(s: State) {
    RowShare(s.row).None? && s.minted == map[] && s.revoked == {} && s.renewed == map[] && s.gone == {}
    && s.unrecorded == {} && s.turns == map[]
  }

  /** run is an execution from run[0] by the actions acts. */
  predicate IsRun(run: seq<State>, acts: seq<Action>) {
    |run| == |acts| + 1 && Init(run[0]) && forall i :: 0 <= i < |acts| ==> StepAt(run, acts, i)
  }

  predicate StepAt(run: seq<State>, acts: seq<Action>, i: nat)
    requires |run| == |acts| + 1 && i < |acts|
  {
    Enabled(run[i], acts[i]) && run[i + 1] == Do(run[i], acts[i])
  }

  lemma {:induction false} RunInv(run: seq<State>, acts: seq<Action>, i: nat)
    requires IsRun(run, acts) && i < |run|
    ensures Inv(run[i])
  {
    if i > 0 {
      RunInv(run, acts, i - 1);
      assert StepAt(run, acts, i - 1);
      StepKeepsInv(run[i - 1], acts[i - 1]);
    }
  }

  predicate Quiet(s: State) { forall t :: t in s.turns ==> s.turns[t].stage.Finished? }

  /** Shares are conserved: once no turn is running, every share ever minted is
      the row's, revoked, was still valid when a renewal replaced it, or went
      with the binding it was for, unless the write that should have recorded
      it failed; and a share whose write failed is in none of those places. */
  lemma SharesConserved(run: seq<State>, acts: seq<Action>, id: ShareID)
    requires IsRun(run, acts) && Quiet(run[|acts|]) && id in run[|acts|].minted
    ensures Ended(run[|acts|], id) <==> id !in run[|acts|].unrecorded
    ensures id in run[|acts|].renewed ==>
      run[|acts|].minted[id].expiresAt == 0 || run[|acts|].renewed[id] < run[|acts|].minted[id].expiresAt
  {
    RunInv(run, acts, |acts|);
    var s := run[|acts|];
    if id !in s.unrecorded { assert Placed(s, id); }
  }

  /** The row never keeps a share that a turn has revoked or is about to,
      as long as no write of it failed. */
  lemma RowShareIsGood(run: seq<State>, acts: seq<Action>, i: nat, id: ShareID)
    requires IsRun(run, acts) && i < |run| && run[i].unrecorded == {} && id in IDs(RowShare(run[i].row))
    ensures id in run[i].minted && id !in run[i].revoked
    ensures forall t :: t in run[i].turns && run[i].turns[t].stage.Revoking? ==> id !in run[i].turns[t].stage.ids
  {
    RunInv(run, acts, i);
    forall t | t in run[i].turns && run[i].turns[t].stage.Revoking? ensures id !in run[i].turns[t].stage.ids {
      assert TurnInv(run[i], run[i].turns[t]);
      assert id !in Owes(run[i].turns[t]);
    }
  }

  /** A turn that answers with a token answers with one minted for its session
      and sealed under its own process's key. */
  lemma TokensAreShares(run: seq<State>, acts: seq<Action>, i: nat, t: nat)
    requires IsRun(run, acts) && i < |run| && t in run[i].turns && run[i].turns[t].stage.Finished?
    ensures Backed(run[i], run[i].turns[t], run[i].turns[t].stage.answer)
  {
    RunInv(run, acts, i);
    assert TurnInv(run[i], run[i].turns[t]);
  }

  lemma Extend(run: seq<State>, acts: seq<Action>, a: Action) returns (longer: seq<State>, done: seq<Action>)
    requires IsRun(run, acts) && Enabled(run[|acts|], a)
    ensures IsRun(longer, done) && done == acts + [a] && longer[|done|] == Do(run[|acts|], a)
  {
    longer, done := run + [Do(run[|acts|], a)], acts + [a];
    forall i | 0 <= i < |done| ensures StepAt(longer, done, i) {
      if i < |acts| { assert StepAt(run, acts, i); }
    }
  }

  /** A row bound to session "s", with a share that key cannot open or none. */
  predicate NeedsShare(row: Option<Entry>, key: string) {
    && row.Some? && row.value.session == "s" && row.value.creator == "" && row.value.refusal.None? && row.value.ttl == 0
    && (row.value.share.Some? ==> row.value.share.value.secret.key != key)
  }

  function TurnAt(key: string, stage: Stage): Turn { Turn(key, "s", "u", true, stage) }

  function ShareOf(key: string, id: ShareID): Share { Share(id, "s", SealedToken(key, "s", ""), 0) }

  lemma TurnMints(run: seq<State>, acts: seq<Action>, t: nat, key: string, id: ShareID)
    returns (longer: seq<State>, done: seq<Action>)
    requires IsRun(run, acts) && t !in run[|acts|].turns && id !in run[|acts|].minted && NeedsShare(run[|acts|].row, key)
    ensures IsRun(longer, done)
    ensures var s := run[|acts|];
      longer[|done|] == s.(minted := s.minted[id := ShareOf(key, id)],
                           turns := s.turns[t := TurnAt(key, Holding(RowShare(s.row), ShareOf(key, id)))])
  {
    var s := run[|acts|];
    longer, done := Extend(run, acts, Begin(t, TurnAt(key, Reading)));
    longer, done := Extend(longer, done, Read(t));
    assert longer[|done|] == s.(turns := s.turns[t := TurnAt(key, Minting(RowShare(s.row)))]);
    longer, done := Extend(longer, done, Mint(t, id, "", 0));
  }

  lemma TurnSettles(run: seq<State>, acts: seq<Action>, t: nat, key: string)
    returns (longer: seq<State>, done: seq<Action>)
    requires IsRun(run, acts) && t in run[|acts|].turns
    requires var turn := run[|acts|].turns[t];
      turn.stage.Storing? && turn == TurnAt(key, turn.stage) && turn.stage.displaced.None? && (turn.stage.held.Some? ==>
        turn.stage.held.value.secret.key != key)
    ensures IsRun(longer, done)
    ensures var s := run[|acts|]; var stage := s.turns[t].stage;
      longer[|done|] == s.(turns := s.turns[t := TurnAt(key, Finished(Token(stage.share.secret.token)))],
                           revoked := s.revoked + IDs(stage.held))
  {
    var s := run[|acts|];
    var held := s.turns[t].stage.held;
    longer, done := Extend(run, acts, Settle(t));
    if held.Some? {
      assert longer[|done|].turns[t].stage.ids == [held.value.id];
      longer, done := Extend(longer, done, Revoke(t));
    }
    assert longer[|done|].turns[t].stage.ids == [];
    longer, done := Extend(longer, done, Revoke(t));
  }

  /** The condition of RowShareIsGood is needed: a turn that read a share it
      cannot open and failed to store its own revokes the one the row keeps. */
  lemma FailedWriteRevokesRowShare() returns (run: seq<State>, acts: seq<Action>, id: ShareID)
    ensures IsRun(run, acts) && Quiet(run[|acts|])
    ensures id in IDs(RowShare(run[|acts|].row)) && id in run[|acts|].revoked
  {
    id := "a";
    run, acts := [State(0, 1, Some(EMPTY.(session := "s")), map[], {}, map[], {}, {}, map[])], [];
    run, acts := TurnMints(run, acts, 0, "k0", "a");
    run, acts := Extend(run, acts, Put(0));
    run, acts := TurnSettles(run, acts, 0, "k0");
    assert "k0"[1] != "k1"[1] && "a"[0] != "b"[0];
    run, acts := TurnMints(run, acts, 1, "k1", "b");
    run, acts := Extend(run, acts, PutFails(1));
    run, acts := TurnSettles(run, acts, 1, "k1");
  }
}
