/** The link store on one Kubernetes Secret: every write re-reads the Secret and
    retries on a stale version. It refines the in-memory store, whose update is
    one step under a lock. */
module SecretStore {
  import opened LinkModel

  type User = string

  /** A stored value: a link sealed under the store key with some nonce, or
      bytes that do not open under it. */
  datatype Record = Sealed(link: Link, nonce: nat) | Undecodable(bytes: seq<int>)

  type Data = map<User, Record>

  function Open(record: Record): Option<Link> {
    if record.Sealed? then Some(record.link) else None
  }

  /** What sealing is: it fails, or opens to what was sealed. */
  ghost predicate IsSeal(seal: Link -> Option<Record>) {
    forall link :: seal(link).Some? ==> Open(seal(link).value) == Some(link)
  }

  // --- the simple form ---------------------------------------------------------

  function Lookup(m: map<User, Link>, user: User): Option<Link> {
    if user in m then Some(m[user]) else None
  }

  function MemUpdate(m: map<User, Link>, user: User, fn: Option<Link> -> Answer): map<User, Link> {
    match fn(Lookup(m, user))
    case Leave => m
    case Remove => m - {user}
    case Replace(next) => m[user := next]
  }

  class MemStore {
    var m: map<User, Link>

    constructor ()
      ensures m == map[]
    {
      m := map[];
    }

    method Get(user: User) returns (link: Option<Link>)
      ensures link == Lookup(m, user)
    {
      link := if user in m then Some(m[user]) else None;
    }

    method Update(user: User, fn: Option<Link> -> Answer) returns (seen: Option<Link>)
      modifies this
      ensures m == MemUpdate(old(m), user, fn)
      ensures seen == Lookup(old(m), user)
      ensures Lookup(m, user) == Apply(seen, fn(seen))
      ensures m - {user} == old(m) - {user}
    {
      seen := if user in m then Some(m[user]) else None;
      match fn(seen)
      case Leave =>
      case Remove => m := m - {user};
      case Replace(next) => m := m[user := next];
    }
  }

  /** The links a Secret's data holds: what does not open is no link. */
  function Links(data: Data): map<User, Link> {
    map user | user in data && Open(data[user]).Some? :: Open(data[user]).value
  }

  // --- the Secret and its writers -------------------------------------------------

  /** One accepted update of the Secret by writer, meant for the users in touched. */
  datatype Commit = Commit(writer: nat, touched: set<User>, before: Data, after: Data)

  predicate Spares(c: Commit) {
    && c.before.Keys - c.touched == c.after.Keys - c.touched
    && forall user :: user in c.before && user !in c.touched && user in c.after ==> c.after[user] == c.before[user]
  }

  /** The Secret's data after the first k updates. */
  function DataAt(initial: Data, log: seq<Commit>, k: nat): Data
    requires k <= |log|
  {
    if k == 0 then initial else log[k - 1].after
  }

  predicate Chained(initial: Data, log: seq<Commit>) {
    forall i :: 0 <= i < |log| ==> Spares(log[i]) && log[i].before == DataAt(initial, log, i)
  }

  lemma ChainedOn(initial: Data, log: seq<Commit>, c: Commit)
    requires Chained(initial, log) && Spares(c) && c.before == DataAt(initial, log, |log|)
    ensures Chained(initial, log + [c])
  {
    var log' := log + [c];
    forall i | 0 <= i < |log'| ensures Spares(log'[i]) && log'[i].before == DataAt(initial, log', i) {
      if i < |log| { assert log'[i] == log[i]; }
      if i > 0 { assert log'[i - 1] == log[i - 1]; }
    }
  }

  /** A user's record changes only in updates meant for them: no writer ever
      clobbers another user's record, however the writers interleave. */
  lemma {:induction false} OthersUntouched(initial: Data, log: seq<Commit>, i: nat, j: nat, user: User)
    requires Chained(initial, log) && i <= j <= |log|
    requires forall k :: i <= k < j ==> user !in log[k].touched
    ensures (user in DataAt(initial, log, i)) == (user in DataAt(initial, log, j))
    ensures user in DataAt(initial, log, i) ==> DataAt(initial, log, j)[user] == DataAt(initial, log, i)[user]
    decreases j - i
  {
    if i < j {
      OthersUntouched(initial, log, i, j - 1, user);
      var c := log[j - 1];
      assert Spares(c) && c.before == DataAt(initial, log, j - 1);
      assert user in c.before.Keys - c.touched <==> user in c.after.Keys - c.touched;
    }
  }

  datatype WriteResult = Accepted | StaleVersion | ApiFailed

  /** The API server's side: it accepts an update only at the version it holds. */
  class Secret {
    var data: Data
    var version: nat
    ghost const initial: Data
    ghost var log: seq<Commit>
    /** The writer of each call that the API server failed. */
    ghost var failures: seq<nat>

    ghost predicate Valid()
      reads this
    {
      version == |log| && Chained(initial, log) && data == DataAt(initial, log, |log|)
    }

    constructor (data: Data)
      ensures Valid() && log == [] && failures == [] && this.data == data
    {
      this.data := data;
      version := 0;
      initial := data;
      log, failures := [], [];
    }

    /** What happened from moment from on was not by writer. */
    ghost predicate ByOthers(writer: nat, from: nat)
      reads this
    {
      forall k :: from <= k < |log| ==> log[k].writer != writer
    }

    /** From moment from on the API server failed a call of writer. */
    ghost predicate FailedSince(writer: nat, from: nat)
      reads this
    {
      exists k :: from <= k < |failures| && failures[k] == writer
    }

    /** Other writers of the Secret may get any number of updates accepted. */
    method Meanwhile(writer: nat)
      requires Valid()
      modifies this
      ensures Valid() && old(log) <= log && ByOthers(writer, |old(log)|)
      ensures old(failures) <= failures && !FailedSince(writer, |old(failures)|)
    {
    }

    method Get(writer: nat) returns (read: Option<(Data, nat)>)
      requires Valid()
      modifies this`failures
      ensures read.Some? ==> read.value == (data, version) && failures == old(failures)
      ensures read.None? ==> failures == old(failures) + [writer]
    {
      var failed: bool := *;
      if failed {
        failures := failures + [writer];
        return None;
      }
      read := Some((data, version));
    }

    method Put(next: Data, at: nat, writer: nat, ghost touched: set<User>) returns (r: WriteResult)
      requires Valid()
      requires at == version ==> Spares(Commit(writer, touched, data, next))
      modifies this
      ensures Valid()
      ensures r.Accepted? ==> at == old(version) && log == old(log) + [Commit(writer, touched, old(data), next)]
      ensures !r.Accepted? ==> log == old(log)
      ensures r.StaleVersion? ==> at != old(version)
      ensures failures == if r.ApiFailed? then old(failures) + [writer] else old(failures)
    {
      var failed: bool := *;
      if failed {
        failures := failures + [writer];
        return ApiFailed;
      }
      if at != version {
        return StaleVersion;
      }
      ChainedOn(initial, log, Commit(writer, touched, data, next));
      log := log + [Commit(writer, touched, data, next)];
      data, version := next, version + 1;
      r := Accepted;
    }
  }

  /** A closure's run over the data it was handed: the data it leaves, whether it
      changed it, and what the variables it captures hold afterwards. */
  datatype Attempt<C> = Attempt(data: Data, changed: bool, captured: C)

  datatype Outcome<C> = Done(captured: C, wrote: bool) | ReadOrWriteFailed | ConflictLimit

  /** The closure changes the records of users only. */
  ghost predicate Within<C(!new)>(fn: Data -> Attempt<C>, users: set<User>) {
    forall data :: fn(data).changed ==> Spares(Commit(0, users, data, fn(data).data))
  }

  datatype Seen = Seen(current: Option<Link>, sealFailed: bool)

  /** Update's closure over the sealed data, around the caller's over the link. */
  function UpdateAttempt(data: Data, user: User, fn: Option<Link> -> Answer, seal: Link -> Option<Record>): Attempt<Seen> {
    var current := Lookup(Links(data), user);
    match fn(current)
    case Leave => Attempt(data, false, Seen(current, false))
    case Remove => Attempt(data - {user}, user in data, Seen(current, false))
    case Replace(next) =>
      var record := seal(next);
      if record.None? then Attempt(data, false, Seen(current, true))
      else Attempt(data[user := record.value], true, Seen(current, false))
  }

  lemma UpdateAttemptRefines(data: Data, user: User, fn: Option<Link> -> Answer, seal: Link -> Option<Record>)
    requires IsSeal(seal)
    ensures var a := UpdateAttempt(data, user, fn, seal);
      && Spares(Commit(0, {user}, data, a.data))
      && a.captured.current == Lookup(Links(data), user)
      && (!a.changed ==> a.data == data)
      && (if a.captured.sealFailed then a.data == data && fn(a.captured.current).Replace?
          else Links(a.data) == MemUpdate(Links(data), user, fn))
      && (fn(a.captured.current).Replace? ==>
            a.captured.sealFailed == seal(fn(a.captured.current).next).None? && a.changed == !a.captured.sealFailed)
  {
    var a := UpdateAttempt(data, user, fn, seal);
    var current := Lookup(Links(data), user);
    if fn(current).Replace? && seal(fn(current).next).Some? {
      assert Links(a.data) == Links(data)[user := fn(current).next];
    }
  }

  function ImportAttempt(data: Data, records: Data): Attempt<nat> {
    Attempt(records + data, records.Keys - data.Keys != {}, |records.Keys - data.Keys|)
  }

  lemma ImportAdds(data: Data, records: Data)
    ensures var a := ImportAttempt(data, records);
      && Spares(Commit(0, records.Keys, data, a.data))
      && a.data.Keys == data.Keys + records.Keys
      && (forall user :: user in data ==> a.data[user] == data[user])
      && (forall user :: user in records && user !in data ==> a.data[user] == records[user])
  {
  }

  function DeleteAttempt(data: Data, user: User): Attempt<()> { Attempt(data - {user}, user in data, ()) }

  lemma DeleteRemoves(data: Data, user: User)
    ensures var a := DeleteAttempt(data, user);
      Spares(Commit(0, {user}, data, a.data)) && user !in a.data && (!a.changed ==> a.data == data)
  {
  }

  class SecretStore {
    const secret: Secret
    const writer: nat
    const retries: nat

    constructor (secret: Secret, writer: nat, retries: int)
      ensures this.secret == secret && this.writer == writer
      ensures this.retries == if retries <= 0 then 5 else retries
    {
      this.secret := secret;
      this.writer := writer;
      this.retries := if retries <= 0 then 5 else retries;
    }

    /** What a write left in the Secret's history: exactly one update of this
        writer, at moment k, when it wrote; none when it did not. */
    ghost predicate Landed<C(!new)>(fn: Data -> Attempt<C>, users: set<User>, r: Outcome<C>, from: nat, k: nat)
      reads secret
    {
      && from <= k <= |secret.log|
      && secret.Valid()
      && match r
         case Done(captured, wrote) =>
           var view := DataAt(secret.initial, secret.log, k);
           && captured == fn(view).captured && wrote == fn(view).changed
           && if wrote
              then k < |secret.log|
                   && secret.log[k] == Commit(writer, users, view, fn(view).data)
                   && (forall j :: from <= j < |secret.log| && j != k ==> secret.log[j].writer != writer)
              else secret.ByOthers(writer, from)
         case ReadOrWriteFailed => secret.ByOthers(writer, from)
         case ConflictLimit => secret.ByOthers(writer, from) && |secret.log| >= from + retries
    }

    /** Since then the API server failed a call, or too many other updates landed. */
    ghost predicate GaveUp(failures: nat, log: nat)
      reads secret
    {
      secret.FailedSince(writer, failures) || |secret.log| >= log + retries
    }

    /** The write of what was read at version, other writers getting in between. */
    method WriteBack(next: Data, version: nat, ghost users: set<User>) returns (write: WriteResult)
      requires secret.Valid() && version == secret.version && Spares(Commit(writer, users, secret.data, next))
      modifies secret
      ensures secret.Valid() && old(secret.log) <= secret.log && old(secret.failures) <= secret.failures
      ensures write.Accepted? ==> secret.log == old(secret.log) + [Commit(writer, users, old(secret.data), next)]
      ensures !write.Accepted? ==> secret.ByOthers(writer, |old(secret.log)|)
      ensures write.StaleVersion? ==> |secret.log| > |old(secret.log)|
      ensures secret.FailedSince(writer, |old(secret.failures)|) <==> write.ApiFailed?
    {
      secret.Meanwhile(writer);
      ghost var failures := secret.failures;
      write := secret.Put(next, version, writer, users);
      if write.ApiFailed? { assert secret.failures[|failures|] == writer; }
    }

    /** One round of mutate: read, apply fn, write at the version read. again
        says the version had moved, so at least one other update landed. */
    method MutateOnce<C(!new)>(fn: Data -> Attempt<C>, ghost users: set<User>)
      returns (r: Outcome<C>, again: bool, ghost k: nat)
      requires secret.Valid() && Within(fn, users)
      modifies secret
      ensures secret.Valid() && old(secret.log) <= secret.log
      ensures again ==> |secret.log| > |old(secret.log)| && secret.ByOthers(writer, |old(secret.log)|)
      ensures !again ==> !r.ConflictLimit? && Landed(fn, users, r, |old(secret.log)|, k)
      ensures old(secret.failures) <= secret.failures
      ensures secret.FailedSince(writer, |old(secret.failures)|) <==> !again && r.ReadOrWriteFailed?
    {
      secret.Meanwhile(writer);
      k := |secret.log|;
      ghost var failures := secret.failures;
      var read := secret.Get(writer);
      if read.None? {
        assert secret.failures[|failures|] == writer;
        return ReadOrWriteFailed, false, k;
      }
      var (data, version) := read.value;
      var attempt := fn(data);
      if !attempt.changed {
        return Done(attempt.captured, false), false, k;
      }
      assert DataAt(secret.initial, secret.log, k) == data;
      var write := WriteBack(attempt.data, version, users);
      assert DataAt(secret.initial, secret.log, k) == data;
      again := write.StaleVersion?;
      r := if write.Accepted? then Done(attempt.captured, true) else ReadOrWriteFailed;
    }

    /** mutate: applies fn to the Secret's current data and writes it back,
        retrying when another writer came in between. It fails exactly when the
        API server failed one of its calls, and the conflict limit is reached only
        when as many other updates landed meanwhile. */
    method Mutate<C(!new)>(fn: Data -> Attempt<C>, ghost users: set<User>) returns (r: Outcome<C>, ghost k: nat)
      requires secret.Valid() && Within(fn, users)
      modifies secret
      ensures old(secret.log) <= secret.log
      ensures Landed(fn, users, r, |old(secret.log)|, k)
      ensures r.ReadOrWriteFailed? <==> secret.FailedSince(writer, |old(secret.failures)|)
    {
      var i := 0;
      while i < retries
        invariant secret.Valid() && old(secret.log) <= secret.log
        invariant secret.ByOthers(writer, |old(secret.log)|)
        invariant |secret.log| >= |old(secret.log)| + i
        invariant old(secret.failures) <= secret.failures && !secret.FailedSince(writer, |old(secret.failures)|)
        invariant i <= retries
      {
        var again;
        r, again, k := MutateOnce(fn, users);
        if !again {
          return;
        }
        i := i + 1;
      }
      r, k := ConflictLimit, |secret.log|;
    }

    /** Update takes effect at one moment k as the in-memory store's update does
        there, and reports the link its closure's committed run was handed. */
    method Update(user: User, fn: Option<Link> -> Answer, seal: Link -> Option<Record>)
      returns (r: Outcome<Seen>, ghost k: nat)
      requires secret.Valid() && IsSeal(seal)
      modifies secret
      ensures old(secret.log) <= secret.log && secret.Valid() && |old(secret.log)| <= k <= |secret.log|
      ensures r.Done? ==>
        && var m := Links(DataAt(secret.initial, secret.log, k));
        && r.captured.current == Lookup(m, user)
        && (r.wrote ==> k < |secret.log| && Links(DataAt(secret.initial, secret.log, k + 1)) == MemUpdate(m, user, fn))
        && (!r.wrote && !r.captured.sealFailed ==> MemUpdate(m, user, fn) == m)
        && (r.captured.sealFailed ==> !r.wrote && fn(r.captured.current).Replace?)
        && (fn(r.captured.current).Replace? ==>
              r.captured.sealFailed == seal(fn(r.captured.current).next).None? && r.wrote == !r.captured.sealFailed)
      ensures forall j :: |old(secret.log)| <= j < |secret.log| && secret.log[j].writer == writer ==>
        r.Done? && r.wrote && j == k && secret.log[j].touched == {user}
      ensures r.ReadOrWriteFailed? <==> secret.FailedSince(writer, |old(secret.failures)|)
      ensures r.ConflictLimit? ==> |secret.log| >= |old(secret.log)| + retries
    {
      var attempt := (data: Data) => UpdateAttempt(data, user, fn, seal);
      forall data ensures attempt(data).changed ==> Spares(Commit(0, {user}, data, attempt(data).data)) {
        UpdateAttemptRefines(data, user, fn, seal);
      }
      r, k := Mutate(attempt, {user});
      UpdateAttemptRefines(DataAt(secret.initial, secret.log, k), user, fn, seal);
    }

    /** Put and Delete are the updates whose closures look at nothing. */
    method Store(user: User, link: Link, seal: Link -> Option<Record>) returns (stored: bool, ghost k: nat)
      requires secret.Valid() && IsSeal(seal)
      modifies secret
      ensures secret.Valid() && old(secret.log) <= secret.log && |old(secret.log)| <= k <= |secret.log|
      ensures stored ==> k < |secret.log| && Links(DataAt(secret.initial, secret.log, k + 1))
                                           == Links(DataAt(secret.initial, secret.log, k))[user := link]
      ensures !stored ==> secret.ByOthers(writer, |old(secret.log)|)
      ensures !stored ==> seal(link).None? || GaveUp(|old(secret.failures)|, |old(secret.log)|)
    {
      var r;
      r, k := Update(user, _ => Replace(link), seal);
      stored := r.Done? && r.wrote;
    }

    method Delete(user: User) returns (deleted: bool, ghost k: nat)
      requires secret.Valid()
      modifies secret
      ensures secret.Valid() && old(secret.log) <= secret.log && |old(secret.log)| <= k <= |secret.log|
      ensures deleted ==> exists j :: k <= j <= |secret.log| && user !in DataAt(secret.initial, secret.log, j)
      ensures !deleted ==> secret.ByOthers(writer, |old(secret.log)|) && GaveUp(|old(secret.failures)|, |old(secret.log)|)
    {
      var attempt := (data: Data) => DeleteAttempt(data, user);
      forall data ensures attempt(data).changed ==> Spares(Commit(0, {user}, data, attempt(data).data)) {
        DeleteRemoves(data, user);
      }
      var r;
      r, k := Mutate(attempt, {user});
      DeleteRemoves(DataAt(secret.initial, secret.log, k), user);
      deleted := r.Done?;
      if r.Done? {
        ghost var j := if r.wrote then k + 1 else k;
        assert user !in DataAt(secret.initial, secret.log, j);
      }
    }

    /** Import adds what is missing in one update and never overwrites an entry,
        decodable or not. */
    method Import(records: Data) returns (added: Option<nat>, ghost k: nat)
      requires secret.Valid()
      modifies secret
      ensures secret.Valid() && old(secret.log) <= secret.log && |old(secret.log)| <= k <= |secret.log|
      ensures added.Some? ==>
        && var before := DataAt(secret.initial, secret.log, k);
        && added.value == |records.Keys - before.Keys|
        && (added.value > 0 ==>
              && k < |secret.log|
              && var after := DataAt(secret.initial, secret.log, k + 1);
              && after.Keys == before.Keys + records.Keys
              && (forall user :: user in before ==> after[user] == before[user])
              && (forall user :: user in records && user !in before ==> after[user] == records[user]))
      ensures (added.None? || added.value == 0) ==> secret.ByOthers(writer, |old(secret.log)|)
      ensures added.None? ==> GaveUp(|old(secret.failures)|, |old(secret.log)|)
    {
      var attempt := (data: Data) => ImportAttempt(data, records);
      forall data ensures attempt(data).changed ==> Spares(Commit(0, records.Keys, data, attempt(data).data)) {
        ImportAdds(data, records);
      }
      var r;
      r, k := Mutate(attempt, records.Keys);
      ImportAdds(DataAt(secret.initial, secret.log, k), records);
      added := if r.Done? then Some(r.captured) else None;
    }
  }
}
