/** The refusals an egress counts, read again and again, and handed on once each. */
module Watcher {
  import opened LinkModel

  type Key = string

  datatype Series = Series(
    source: string, atespace: string, actor: string, scheme: string, host: string, port: string, value: real)

  const FOLDED := "other"
  const SESSION_PREFIX := "session-"

  /** How a series is told from the others, and a group, and what an IP address is. */
  datatype Rules = Rules(series: Series -> Key, group: (string, string, Series) -> string, isIP: string -> bool)

  function SeriesKey(s: Series): Key {
    s.source + "|" + s.atespace + "|" + s.actor + "|" + s.scheme + "|" + s.host + "|" + s.port
  }

  function GroupKey(namespace: string, agent: string, s: Series): string {
    namespace + "/" + agent + "|" + s.scheme + "://" + s.host + ":" + s.port
  }

  function SourceRules(isIP: string -> bool): Rules { Rules(SeriesKey, GroupKey, isIP) }

  // --- keys ----------------------------------------------------------------------------------

  lemma FirstSide(s: string, a: string, sep: char, b: string, i: nat)
    requires s == a + [sep] + b && i < |a|
    ensures s[i] in a
  {
    assert s[i] == a[i];
  }

  lemma SecondSide(s: string, a: string, sep: char, b: string, i: nat)
    requires s == a + [sep] + b && |a| < i < |s|
    ensures s[i] in b
  {
    assert s[i] == b[i - |a| - 1];
  }

  lemma SameSides(s: string, a: string, b: string, c: string, d: string, sep: char)
    requires s == a + [sep] + b == c + [sep] + d && |a| == |c|
    ensures a == c && b == d
  {
    assert a == s[..|a|] == c && b == s[|a| + 1..] == d;
  }

  /** Where sep does not occur in front of it, its first place tells the two sides apart. */
  lemma FirstSeparator(s: string, a: string, b: string, c: string, d: string, sep: char)
    requires sep !in a && sep !in c && s == a + [sep] + b == c + [sep] + d
    ensures a == c && b == d
  {
    if |a| < |c| {
      FirstSide(s, c, sep, d, |a|);
    } else if |c| < |a| {
      FirstSide(s, a, sep, b, |c|);
    } else {
      SameSides(s, a, b, c, d, sep);
    }
  }

  /** And where it does not occur behind it, its last. */
  lemma LastSeparator(s: string, a: string, b: string, c: string, d: string, sep: char)
    requires sep !in b && sep !in d && s == a + [sep] + b == c + [sep] + d
    ensures a == c && b == d
  {
    if |a| < |c| {
      SecondSide(s, a, sep, b, |c|);
    } else if |c| < |a| {
      SecondSide(s, c, sep, d, |a|);
    } else {
      SameSides(s, a, b, c, d, sep);
    }
  }

  /** No label of the series has the bar that joins them in its key. */
  predicate Plain(s: Series) {
    '|' !in s.source && '|' !in s.atespace && '|' !in s.actor && '|' !in s.scheme && '|' !in s.host && '|' !in s.port
  }

  /** Series of different labels are told apart. */
  lemma SeriesApart(s: Series, t: Series)
    requires Plain(s) && Plain(t) && SeriesKey(s) == SeriesKey(t)
    ensures s == t.(value := s.value)
  {
    var (s4, t4) := (s.source + "|" + s.atespace + "|" + s.actor + "|" + s.scheme, t.source + "|" + t.atespace + "|" + t.actor + "|" + t.scheme);
    LastSeparator(SeriesKey(s), s4 + "|" + s.host, s.port, t4 + "|" + t.host, t.port, '|');
    LastSeparator(s4 + "|" + s.host, s4, s.host, t4, t.host, '|');
    FourApart(s.source, s.atespace, s.actor, s.scheme, t.source, t.atespace, t.actor, t.scheme);
  }

  lemma FourApart(a: string, b: string, c: string, d: string, a': string, b': string, c': string, d': string)
    requires '|' !in b && '|' !in c && '|' !in d && '|' !in b' && '|' !in c' && '|' !in d'
    requires a + "|" + b + "|" + c + "|" + d == a' + "|" + b' + "|" + c' + "|" + d'
    ensures a == a' && b == b' && c == c' && d == d'
  {
    LastSeparator(a + "|" + b + "|" + c + "|" + d, a + "|" + b + "|" + c, d, a' + "|" + b' + "|" + c', d', '|');
    LastSeparator(a + "|" + b + "|" + c, a + "|" + b, c, a' + "|" + b', c', '|');
    LastSeparator(a + "|" + b, a, b, a', b', '|');
  }

  /** Two series go into one group only if they are of one agent and one destination. */
  lemma GroupsApart(ns: string, agent: string, s: Series, ns': string, agent': string, t: Series)
    requires '/' !in ns && '/' !in ns' && '|' !in agent && '|' !in agent'
    requires ':' !in s.scheme && ':' !in t.scheme && ':' !in s.port && ':' !in t.port
    requires GroupKey(ns, agent, s) == GroupKey(ns', agent', t)
    ensures ns == ns' && agent == agent' && s.scheme == t.scheme && s.host == t.host && s.port == t.port
  {
    var at, at', key := s.scheme + "://" + s.host + ":" + s.port, t.scheme + "://" + t.host + ":" + t.port, GroupKey(ns, agent, s);
    KeyParts(ns, agent, s.scheme, s.host, s.port);
    KeyParts(ns', agent', t.scheme, t.host, t.port);
    FirstSeparator(key, ns, agent + "|" + at, ns', agent' + "|" + at', '/');
    FirstSeparator(agent + "|" + at, agent, at, agent', at', '|');
    DestinationsApart(at, s.scheme, s.host, s.port, t.scheme, t.host, t.port);
  }

  lemma KeyParts(ns: string, agent: string, scheme: string, host: string, port: string)
    ensures ns + "/" + agent + "|" + scheme + "://" + host + ":" + port
         == ns + ['/'] + (agent + "|" + (scheme + "://" + host + ":" + port))
  {
  }

  lemma DestinationsApart(at: string, scheme: string, host: string, port: string, scheme': string, host': string, port': string)
    requires ':' !in scheme && ':' !in scheme' && ':' !in port && ':' !in port'
    requires at == scheme + "://" + host + ":" + port == scheme' + "://" + host' + ":" + port'
    ensures scheme == scheme' && host == host' && port == port'
  {
    LastSeparator(at, scheme + "://" + host, port, scheme' + "://" + host', port', ':');
    SchemeFirst(scheme, host);
    SchemeFirst(scheme', host');
    FirstSeparator(scheme + "://" + host, scheme, "//" + host, scheme', "//" + host', ':');
    assert host == ("//" + host)[2..] && host' == ("//" + host')[2..];
  }

  lemma SchemeFirst(scheme: string, host: string)
    ensures scheme + "://" + host == scheme + [':'] + ("//" + host)
  {
  }

  /** The refusals of one agent and destination in one observation. */
  datatype Group = Group(
    namespace: string, agent: string, scheme: string, host: string, port: string,
    count: real, sessions: seq<string>, keys: seq<Key>)

  /** What resolving an actor's Session gives. */
  datatype Resolved = AgentOf(namespace: string, agent: string) | NotSession | Unresolved

  /** What handing a group on comes to. */
  datatype Outcome = AgentUnread | NoCreator | Noted | NoAddressee | NotifierFailed

  predicate Done(o: Outcome) { o.NoCreator? || o.Noted? || o.NoAddressee? }

  /** What the cluster, muster and Slack answer during one observation: for each
      series its actor's Session, for each group what came of it. */
  datatype Answers = Answers(session: Key -> Resolved, note: Group -> Outcome)

  predicate HostChar(c: char) { 'a' <= c <= 'z' || '0' <= c <= '9' || c == '-' || c == '.' }

  predicate ValidHost(host: string, isIP: string -> bool) {
    0 < |host| <= 253 && (isIP(host) || forall i :: 0 <= i < |host| ==> HostChar(host[i]))
  }

  /** The value remembered for k, nothing for a series never seen. */
  function Val(m: map<Key, real>, k: Key): real { if k in m then m[k] else 0.0 }

  function Increase(prev: map<Key, real>, k: Key, s: Series): real {
    if k in prev && s.value >= prev[k] then s.value - prev[k] else s.value
  }

  /** Somebody is to be told of the series' increase. */
  predicate Eligible(r: Rules, s: Series, increase: real)
  {
    && increase > 0.0 && s.host != FOLDED && s.actor != FOLDED && ValidHost(s.host, r.isIP)
    && |s.actor| > |SESSION_PREFIX| && s.actor[..|SESSION_PREFIX|] == SESSION_PREFIX
  }

  /** Only refusals of a Session's actor at a destination that can be named, more of
      them than before, are somebody's to be told of. */
  lemma EligibleMeans(r: Rules, s: Series, increase: real)
    ensures Eligible(r, s, increase) <==>
      && increase > 0.0 && s.host != "other"
      && 1 <= |s.host| <= 253 && (r.isIP(s.host) || forall i :: 0 <= i < |s.host| ==> HostChar(s.host[i]))
      && exists id: string :: IsSession(s, id)
    ensures Eligible(r, s, increase) ==> IsSession(s, Session(s))
  {
    SessionsActor(s);
  }

  lemma SessionsActor(s: Series)
    ensures (exists id: string :: IsSession(s, id)) <==> |s.actor| > 8 && s.actor[..8] == "session-"
    ensures |s.actor| > 8 && s.actor[..8] == "session-" ==> IsSession(s, s.actor[8..]) && s.actor != "other"
  {
    if |s.actor| > 8 && s.actor[..8] == "session-" {
      assert s.actor == s.actor[..8] + s.actor[8..];
      assert s.actor[0] == s.actor[..8][0] == 's';
      assert IsSession(s, s.actor[8..]);
    }
    forall id: string | IsSession(s, id) ensures |s.actor| > 8 && s.actor[..8] == "session-" {
    }
  }

  predicate IsSession(s: Series, id: string) { id != "" && s.actor == "session-" + id }

  function Session(s: Series): string
  {
    if |s.actor| > |SESSION_PREFIX| then s.actor[|SESSION_PREFIX|..] else ""
  }

  /** The series' increase is counted into a group, Home being its group. */
  predicate Goes(r: Rules, prev: map<Key, real>, a: Answers, k: Key, s: Series) {
    Eligible(r, s, Increase(prev, k, s)) && a.session(k).AgentOf?
  }

  function Home(r: Rules, a: Answers, k: Key, s: Series): string
    requires a.session(k).AgentOf?
  {
    r.group(a.session(k).namespace, a.session(k).agent, s)
  }

  predicate Distinct<T(==)>(xs: seq<T>) {
    forall i, j :: 0 <= i < j < |xs| ==> xs[i] != xs[j]
  }

  predicate Apart(keyOf: Series -> Key, series: seq<Series>) {
    forall i, j :: 0 <= i < j < |series| ==> keyOf(series[i]) != keyOf(series[j])
  }

  /** The series read, by key. */
  ghost predicate Shows(keyOf: Series -> Key, series: seq<Series>, shown: map<Key, Series>) {
    && (forall j :: 0 <= j < |series| ==> keyOf(series[j]) in shown && shown[keyOf(series[j])] == series[j])
    && (forall k :: k in shown ==> shown[k] in series && keyOf(shown[k]) == k)
  }

  function Sum(m: map<Key, real>, keys: seq<Key>): real {
    if keys == [] then 0.0 else Sum(m, keys[..|keys| - 1]) + Val(m, keys[|keys| - 1])
  }

  lemma {:induction false} SumSame(m: map<Key, real>, n: map<Key, real>, keys: seq<Key>)
    requires forall k :: k in keys ==> Val(m, k) == Val(n, k)
    ensures Sum(m, keys) == Sum(n, keys)
  {
    if |keys| > 0 { SumSame(m, n, keys[..|keys| - 1]); }
  }

  lemma SumMore(m: map<Key, real>, keys: seq<Key>, key: Key)
    ensures Sum(m, keys + [key]) == Sum(m, keys) + Val(m, key)
  {
    assert (keys + [key])[..|keys + [key]| - 1] == keys;
  }

  function Increases(prev: map<Key, real>, shown: map<Key, Series>): map<Key, real> {
    map k | k in shown :: Increase(prev, k, shown[k])
  }

  /** The two agree on k. */
  predicate Agree(m: map<Key, real>, n: map<Key, real>, k: Key) {
    (k in m <==> k in n) && (k in n ==> m[k] == n[k])
  }

  /** keepPrevious. */
  function KeepPrevious(seen: map<Key, real>, prev: map<Key, real>, key: Key): (next: map<Key, real>)
    ensures Agree(next, prev, key)
    ensures forall k :: k != key ==> Agree(next, seen, k)
  {
    if key in prev then seen[key := prev[key]] else seen - {key}
  }

  // --- one observation ---------------------------------------------------------------------

  /** One successful read: what was remembered before it, the series it showed,
      what was answered meanwhile, and the groups handed on, homes[i] being the
      agent and destination of the i-th. */
  datatype Observation = Observation(
    prev: map<Key, real>, shown: map<Key, Series>, answers: Answers, offers: seq<Group>, homes: seq<string>)

  /** The group counts its series' increases, each once. */
  ghost predicate Counts(r: Rules, prev: map<Key, real>, a: Answers, shown: map<Key, Series>, g: Group) {
    && Distinct(g.keys) && g.count == Sum(Increases(prev, shown), g.keys)
    && forall k :: k in g.keys ==> k in shown && Goes(r, prev, a, k, shown[k])
  }

  /** The group names its series' Sessions, each once. */
  ghost predicate Names(shown: map<Key, Series>, g: Group) {
    && Distinct(g.sessions)
    && (forall k :: k in g.keys ==> k in shown && Session(shown[k]) in g.sessions)
    && (forall x :: x in g.sessions ==> HasSession(g, shown, x))
  }

  ghost predicate HasSession(g: Group, shown: map<Key, Series>, x: string) {
    exists k :: k in g.keys && k in shown && Session(shown[k]) == x
  }

  /** The group names the agent and the destination of its first series. */
  predicate Headed(a: Answers, shown: map<Key, Series>, g: Group) {
    && g.keys != [] && g.keys[0] in shown
    && var s := shown[g.keys[0]];
       a.session(g.keys[0]) == AgentOf(g.namespace, g.agent) && g.scheme == s.scheme && g.host == s.host && g.port == s.port
  }

  /** All its series are of the agent and destination gk. */
  ghost predicate Houses(r: Rules, a: Answers, shown: map<Key, Series>, gk: string, g: Group) {
    forall k :: k in g.keys ==> k in shown && a.session(k).AgentOf? && Home(r, a, k, shown[k]) == gk
  }

  ghost predicate Formed(r: Rules, prev: map<Key, real>, a: Answers, shown: map<Key, Series>, gk: string, g: Group) {
    Counts(r, prev, a, shown, g) && Names(shown, g) && Headed(a, shown, g) && Houses(r, a, shown, gk, g)
  }

  /** k is in one of the groups. */
  predicate In(gs: seq<Group>, k: Key) {
    exists i :: 0 <= i < |gs| && k in gs[i].keys
  }

  /** The groups handed on hold exactly the series somebody is to be told of and
      whose agent was found, one group for each agent and destination. */
  ghost predicate Sound(r: Rules, o: Observation) {
    && |o.homes| == |o.offers| && Distinct(o.homes)
    && (forall i :: 0 <= i < |o.offers| ==> Formed(r, o.prev, o.answers, o.shown, o.homes[i], o.offers[i]))
    && (forall k :: k in o.shown && Goes(r, o.prev, o.answers, k, o.shown[k]) ==> In(o.offers, k))
  }

  /** No series is in two groups. */
  lemma InOneGroup(r: Rules, o: Observation, i: nat, j: nat, k: Key)
    requires Sound(r, o) && i < |o.offers| && j < |o.offers| && k in o.offers[i].keys && k in o.offers[j].keys
    ensures i == j
  {
    assert Formed(r, o.prev, o.answers, o.shown, o.homes[i], o.offers[i]);
    assert Formed(r, o.prev, o.answers, o.shown, o.homes[j], o.offers[j]);
    assert o.homes[i] == Home(r, o.answers, k, o.shown[k]) == o.homes[j];
  }

  /** The groups the notifier took. */
  function Taken(a: Answers, offers: seq<Group>): seq<Group> {
    if offers == [] then []
    else
      var g := offers[|offers| - 1];
      Taken(a, offers[..|offers| - 1]) + if a.note(g).Noted? then [g] else []
  }

  lemma TakenMore(a: Answers, offers: seq<Group>, i: nat)
    requires i < |offers|
    ensures Taken(a, offers[..i + 1]) == Taken(a, offers[..i]) + if a.note(offers[i]).Noted? then [offers[i]] else []
  {
    assert offers[..i + 1][..i] == offers[..i] && offers[..i + 1][i] == offers[i];
  }

  /** k waits in a group that is to be retried. */
  predicate PutBack(a: Answers, offers: seq<Group>, k: Key) {
    exists i :: 0 <= i < |offers| && k in offers[i].keys && !Done(a.note(offers[i]))
  }

  /** The series' agent could not be found out. */
  predicate Unfound(r: Rules, prev: map<Key, real>, a: Answers, k: Key, s: Series) {
    Eligible(r, s, Increase(prev, k, s)) && a.session(k).Unresolved?
  }

  /** The series is to be counted again from what was remembered of it. */
  predicate Deferred(r: Rules, o: Observation, k: Key) {
    k in o.shown && (Unfound(r, o.prev, o.answers, k, o.shown[k]) || PutBack(o.answers, o.offers, k))
  }

  /** What is remembered of k afterwards. */
  ghost predicate Remembers(r: Rules, o: Observation, last: map<Key, real>, k: Key) {
    if k !in o.shown then k !in last
    else if Deferred(r, o, k) then Agree(last, o.prev, k)
    else k in last && last[k] == o.shown[k].value
  }

  ghost predicate Remembered(r: Rules, o: Observation, last: map<Key, real>) {
    forall k :: Remembers(r, o, last, k)
  }

  // --- the groups while they are collected -----------------------------------------------------

  /** Each group stands in the order once. */
  ghost predicate Ordered(groups: map<string, Group>, order: seq<string>) {
    Distinct(order) && forall gk :: gk in groups <==> gk in order
  }

  /** Each series that goes into a group is in its own. */
  ghost predicate Homed(r: Rules, prev: map<Key, real>, a: Answers, shown: map<Key, Series>, groups: map<string, Group>) {
    && (forall k :: k in shown && Goes(r, prev, a, k, shown[k]) ==> HasHome(r, a, k, shown[k], groups))
    && (forall gk :: gk in groups ==> Formed(r, prev, a, shown, gk, groups[gk]))
  }

  predicate HasHome(r: Rules, a: Answers, k: Key, s: Series, groups: map<string, Group>)
    requires a.session(k).AgentOf?
  {
    Home(r, a, k, s) in groups && k in groups[Home(r, a, k, s)].keys
  }

  ghost predicate Grouped(r: Rules, prev: map<Key, real>, a: Answers, shown: map<Key, Series>,
                          groups: map<string, Group>, order: seq<string>) {
    Ordered(groups, order) && Homed(r, prev, a, shown, groups)
  }

  /** A further series changes nothing about a group it is not in. */
  lemma CountsStill(r: Rules, prev: map<Key, real>, a: Answers, shown: map<Key, Series>, key: Key, s: Series, g: Group)
    requires Counts(r, prev, a, shown, g) && key !in shown
    ensures Counts(r, prev, a, shown[key := s], g)
  {
    SumSame(Increases(prev, shown), Increases(prev, shown[key := s]), g.keys);
  }

  lemma NamesStill(shown: map<Key, Series>, key: Key, s: Series, g: Group)
    requires Names(shown, g) && key !in shown
    ensures Names(shown[key := s], g)
  {
    forall x | x in g.sessions ensures HasSession(g, shown[key := s], x) {
      assert HasSession(g, shown, x);
    }
  }

  lemma FormedStill(r: Rules, prev: map<Key, real>, a: Answers, shown: map<Key, Series>, key: Key, s: Series, gk: string, g: Group)
    requires Formed(r, prev, a, shown, gk, g) && key !in shown
    ensures Formed(r, prev, a, shown[key := s], gk, g)
  {
    CountsStill(r, prev, a, shown, key, s, g);
    NamesStill(shown, key, s, g);
  }

  lemma StaysGrouped(r: Rules, prev: map<Key, real>, a: Answers, shown: map<Key, Series>, key: Key, s: Series,
                     groups: map<string, Group>, order: seq<string>)
    requires Grouped(r, prev, a, shown, groups, order) && key !in shown && !Goes(r, prev, a, key, s)
    ensures Grouped(r, prev, a, shown[key := s], groups, order)
  {
    forall gk | gk in groups ensures Formed(r, prev, a, shown[key := s], gk, groups[gk]) {
      FormedStill(r, prev, a, shown, key, s, gk, groups[gk]);
    }
  }

  /** The group with a further series. */
  function With(g: Group, key: Key, session: string, increase: real): Group {
    g.(count := g.count + increase, keys := g.keys + [key],
       sessions := if session in g.sessions then g.sessions else g.sessions + [session])
  }

  function Fresh(agent: Resolved, s: Series): Group
    requires agent.AgentOf?
  {
    Group(agent.namespace, agent.agent, s.scheme, s.host, s.port, 0.0, [], [])
  }

  lemma WithCounts(r: Rules, prev: map<Key, real>, a: Answers, shown: map<Key, Series>, key: Key, s: Series, g: Group, more: Group)
    requires Counts(r, prev, a, shown, g) && key !in shown && Goes(r, prev, a, key, s)
    requires more.keys == g.keys + [key] && more.count == g.count + Increase(prev, key, s)
    ensures Counts(r, prev, a, shown[key := s], more)
  {
    CountsStill(r, prev, a, shown, key, s, g);
    SumMore(Increases(prev, shown[key := s]), g.keys, key);
    assert key !in g.keys;
  }

  lemma WithNames(shown: map<Key, Series>, key: Key, s: Series, g: Group, more: Group)
    requires Names(shown, g) && key !in shown && more.keys == g.keys + [key]
    requires more.sessions == if Session(s) in g.sessions then g.sessions else g.sessions + [Session(s)]
    ensures Names(shown[key := s], more)
  {
    var shown1 := shown[key := s];
    assert key in more.keys && forall k :: k in more.keys <==> k in g.keys || k == key;
    assert HasSession(more, shown1, Session(s));
    forall x | x in g.sessions ensures HasSession(more, shown1, x) {
      assert HasSession(g, shown, x);
      var k :| k in g.keys && k in shown && Session(shown[k]) == x;
      assert k in more.keys && k in shown1;
    }
  }

  /** A series joins its group. */
  lemma WithFormed(r: Rules, prev: map<Key, real>, a: Answers, shown: map<Key, Series>, key: Key, s: Series, g: Group)
    requires key !in shown && Goes(r, prev, a, key, s)
    requires g == Fresh(a.session(key), s) || Formed(r, prev, a, shown, Home(r, a, key, s), g)
    ensures Formed(r, prev, a, shown[key := s], Home(r, a, key, s), With(g, key, Session(s), Increase(prev, key, s)))
  {
    var more := With(g, key, Session(s), Increase(prev, key, s));
    WithCounts(r, prev, a, shown, key, s, g, more);
    WithNames(shown, key, s, g, more);
    assert more.keys[0] == if g.keys == [] then key else g.keys[0];
  }

  lemma OrderedMore(groups: map<string, Group>, order: seq<string>, gk: string, g: Group)
    requires Ordered(groups, order)
    ensures Ordered(groups[gk := g], if gk in groups then order else order + [gk])
  {
  }

  /** A series joins its group, and every other group stays. */
  lemma GroupedMore(r: Rules, prev: map<Key, real>, a: Answers, shown: map<Key, Series>, key: Key, s: Series,
                    groups: map<string, Group>, order: seq<string>, g: Group, gk: string)
    requires Grouped(r, prev, a, shown, groups, order) && key !in shown && Goes(r, prev, a, key, s)
    requires gk == Home(r, a, key, s) && g == if gk in groups then groups[gk] else Fresh(a.session(key), s)
    ensures Grouped(r, prev, a, shown[key := s], groups[gk := With(g, key, Session(s), Increase(prev, key, s))],
                    if gk in groups then order else order + [gk])
  {
    var shown1, more := shown[key := s], With(g, key, Session(s), Increase(prev, key, s));
    OrderedMore(groups, order, gk, more);
    WithFormed(r, prev, a, shown, key, s, g);
    forall other | other in groups && other != gk ensures Formed(r, prev, a, shown1, other, groups[other]) {
      FormedStill(r, prev, a, shown, key, s, other, groups[other]);
    }
    AllHomed(r, prev, a, shown, key, s, shown1, groups, gk, g, more);
  }

  lemma AllHomed(r: Rules, prev: map<Key, real>, a: Answers, shown: map<Key, Series>, key: Key, s: Series,
                 shown1: map<Key, Series>, groups: map<string, Group>, gk: string, g: Group, more: Group)
    requires forall k :: k in shown && Goes(r, prev, a, k, shown[k]) ==> HasHome(r, a, k, shown[k], groups)
    requires shown1 == shown[key := s] && a.session(key).AgentOf? && gk == Home(r, a, key, s) && more.keys == g.keys + [key]
    requires gk in groups ==> g == groups[gk]
    ensures forall k :: k in shown1 && Goes(r, prev, a, k, shown1[k]) ==> HasHome(r, a, k, shown1[k], groups[gk := more])
  {
    assert key in more.keys && forall k :: k in g.keys ==> k in more.keys;
    forall k | k in shown1 && Goes(r, prev, a, k, shown1[k]) ensures HasHome(r, a, k, shown1[k], groups[gk := more]) {
      if k != key {
        assert HasHome(r, a, k, shown[k], groups);
      }
    }
  }

  /** The collected groups, in order, are what is to be handed on. */
  lemma CollectedIsSound(r: Rules, o: Observation, groups: map<string, Group>)
    requires Grouped(r, o.prev, o.answers, o.shown, groups, o.homes)
    requires |o.offers| == |o.homes|
    requires forall i :: 0 <= i < |o.homes| ==> o.homes[i] in groups && o.offers[i] == groups[o.homes[i]]
    ensures Sound(r, o)
  {
    forall k | k in o.shown && Goes(r, o.prev, o.answers, k, o.shown[k]) ensures In(o.offers, k) {
      assert HasHome(r, o.answers, k, o.shown[k], groups);
      var i :| 0 <= i < |o.homes| && o.homes[i] == Home(r, o.answers, k, o.shown[k]);
      assert k in o.offers[i].keys;
    }
  }

  /** What is seen once every series was taken, before any group is handed on. */
  ghost predicate Seen(r: Rules, prev: map<Key, real>, a: Answers, shown: map<Key, Series>, seen: map<Key, real>) {
    Remembered(r, Observation(prev, shown, a, [], []), seen)
  }

  lemma SeenMore(r: Rules, prev: map<Key, real>, a: Answers, shown: map<Key, Series>, seen: map<Key, real>,
                 key: Key, s: Series, seen1: map<Key, real>)
    requires Seen(r, prev, a, shown, seen) && key !in shown
    requires forall k :: k != key ==> Agree(seen1, seen, k)
    requires if Unfound(r, prev, a, key, s) then Agree(seen1, prev, key) else key in seen1 && seen1[key] == s.value
    ensures Seen(r, prev, a, shown[key := s], seen1)
  {
    var o, o1 := Observation(prev, shown, a, [], []), Observation(prev, shown[key := s], a, [], []);
    forall k: Key ensures Remembers(r, o1, seen1, k) {
      assert Remembers(r, o, seen, k) && (k != key ==> Agree(seen1, seen, k));
    }
  }

  lemma PutBackMore(a: Answers, offers: seq<Group>, i: nat, k: Key)
    requires i < |offers|
    ensures PutBack(a, offers[..i + 1], k) <==> PutBack(a, offers[..i], k) || (k in offers[i].keys && !Done(a.note(offers[i])))
  {
    if PutBack(a, offers[..i], k) {
      var j :| 0 <= j < |offers[..i]| && k in offers[..i][j].keys && !Done(a.note(offers[..i][j]));
      assert offers[..i + 1][j] == offers[..i][j];
    }
    assert offers[..i + 1][i] == offers[i];
  }

  /** A group handed on is remembered as counted, or put back. */
  lemma Settles(r: Rules, o: Observation, i: nat, seen: map<Key, real>, seen1: map<Key, real>)
    requires i < |o.offers| && forall k :: k in o.offers[i].keys ==> k in o.shown
    requires Remembered(r, Before(o, i), seen)
    requires if Done(o.answers.note(o.offers[i])) then seen1 == seen
             else forall k :: if k in o.offers[i].keys then Agree(seen1, o.prev, k) else Agree(seen1, seen, k)
    ensures Remembered(r, Before(o, i + 1), seen1)
  {
    var before, after := Before(o, i), Before(o, i + 1);
    forall k: Key ensures Remembers(r, after, seen1, k) {
      assert Remembers(r, before, seen, k);
      PutBackMore(o.answers, o.offers, i, k);
    }
  }

  ghost predicate ShownIn(o: Observation, g: Group) { forall k :: k in g.keys ==> k in o.shown }

  ghost predicate OffersShown(o: Observation) {
    forall i :: 0 <= i < |o.offers| ==> ShownIn(o, o.offers[i])
  }

  lemma AreShown(r: Rules, o: Observation)
    requires Sound(r, o)
    ensures OffersShown(o)
  {
    forall i | 0 <= i < |o.offers| ensures ShownIn(o, o.offers[i]) {
      assert Formed(r, o.prev, o.answers, o.shown, o.homes[i], o.offers[i]);
    }
  }

  lemma NothingHandedOn(r: Rules, o: Observation, seen: map<Key, real>)
    requires Seen(r, o.prev, o.answers, o.shown, seen)
    ensures Remembered(r, Before(o, 0), seen) && Taken(o.answers, o.offers[..0]) == []
  {
    var bare, before := Observation(o.prev, o.shown, o.answers, [], []), Before(o, 0);
    forall k: Key ensures Remembers(r, before, seen, k) {
      assert Remembers(r, bare, seen, k);
    }
  }

  lemma OfferSettles(r: Rules, o: Observation, i: nat, seen: map<Key, real>, seen1: map<Key, real>)
    requires OffersShown(o) && i < |o.offers| && Remembered(r, Before(o, i), seen)
    requires if Done(o.answers.note(o.offers[i])) then seen1 == seen
             else forall k :: if k in o.offers[i].keys then Agree(seen1, o.prev, k) else Agree(seen1, seen, k)
    ensures Remembered(r, Before(o, i + 1), seen1)
    ensures Taken(o.answers, o.offers[..i + 1])
         == Taken(o.answers, o.offers[..i]) + if o.answers.note(o.offers[i]).Noted? then [o.offers[i]] else []
  {
    TakenMore(o.answers, o.offers, i);
    assert ShownIn(o, o.offers[i]);
    Settles(r, o, i, seen, seen1);
  }

  /** The observation before its i-th group is handed on. */
  function Before(o: Observation, i: nat): Observation
    requires i <= |o.offers|
  {
    o.(offers := o.offers[..i])
  }

  class Watcher {
    var last: map<Key, real>
    var notified: seq<Group>    // the groups the notifier took
    const rules: Rules

    /** The source's rules are SourceRules; what is proved holds of any. */
    constructor (rules: Rules)
      ensures last == map[] && notified == [] && this.rules == rules
    {
      last, notified := map[], [];
      this.rules := rules;
    }

    /** Hands a group to the notifier; done is false when it should be retried. */
    method Note(g: Group, a: Answers) returns (done: bool)
      modifies this`notified
      ensures done == Done(a.note(g))
      ensures notified == old(notified) + if a.note(g).Noted? then [g] else []
    {
      match a.note(g)
      case AgentUnread => done := false;
      case NoCreator => done := true;
      case Noted => notified := notified + [g]; done := true;
      case NoAddressee => done := true;
      case NotifierFailed => done := false;
    }

    /** One series of the read: dealt with at once, or put in its group. */
    method Take(s: Series, a: Answers, seen: map<Key, real>, groups: map<string, Group>, order: seq<string>,
                ghost shown: map<Key, Series>)
      returns (seen1: map<Key, real>, groups1: map<string, Group>, order1: seq<string>)
      requires Grouped(rules, last, a, shown, groups, order) && Seen(rules, last, a, shown, seen)
      requires rules.series(s) !in shown
      ensures Grouped(rules, last, a, shown[rules.series(s) := s], groups1, order1)
      ensures Seen(rules, last, a, shown[rules.series(s) := s], seen1)
    {
      var key := rules.series(s);
      var increase := Increase(last, key, s);
      seen1, groups1, order1 := seen[key := s.value], groups, order;
      if !Eligible(rules, s, increase) || a.session(key).NotSession? {
        StaysGrouped(rules, last, a, shown, key, s, groups, order);
      } else if a.session(key).Unresolved? {
        StaysGrouped(rules, last, a, shown, key, s, groups, order);
        seen1 := KeepPrevious(seen1, last, key);
      } else {
        groups1, order1 := Join(s, a.session(key), key, increase, groups, order);
        var gk := Home(rules, a, key, s);
        GroupedMore(rules, last, a, shown, key, s, groups, order,
                    if gk in groups then groups[gk] else Fresh(a.session(key), s), gk);
      }
      SeenMore(rules, last, a, shown, seen, key, s, seen1);
    }

    /** Counts a series into the group of its agent and destination. */
    method Join(s: Series, agent: Resolved, key: Key, increase: real, groups: map<string, Group>, order: seq<string>)
      returns (groups1: map<string, Group>, order1: seq<string>)
      requires agent.AgentOf?
      ensures var gk := rules.group(agent.namespace, agent.agent, s);
        && order1 == (if gk in groups then order else order + [gk])
        && groups1 == groups[gk := With(if gk in groups then groups[gk] else Fresh(agent, s), key, Session(s), increase)]
    {
      order1 := order;
      var session := if |s.actor| > |SESSION_PREFIX| then s.actor[|SESSION_PREFIX|..] else "";
      var gk := rules.group(agent.namespace, agent.agent, s);
      var g := if gk in groups then groups[gk]
               else Group(agent.namespace, agent.agent, s.scheme, s.host, s.port, 0.0, [], []);
      if gk !in groups {
        order1 := order + [gk];
      }
      g := g.(count := g.count + increase, keys := g.keys + [key]);
      if session !in g.sessions {
        g := g.(sessions := g.sessions + [session]);
      }
      groups1 := groups[gk := g];
    }

    /** The loop over the series: what was seen, and the groups to note, in order. */
    method Collect(series: seq<Series>, a: Answers)
      returns (seen: map<Key, real>, groups: map<string, Group>, order: seq<string>, ghost shown: map<Key, Series>)
      requires Apart(rules.series, series)
      ensures Shows(rules.series, series, shown)
      ensures Grouped(rules, last, a, shown, groups, order) && Seen(rules, last, a, shown, seen)
    {
      seen, groups, order, shown := map[], map[], [], map[];
      var i := 0;
      while i < |series|
        invariant i <= |series| && Shows(rules.series, series[..i], shown)
        invariant forall j :: i <= j < |series| ==> rules.series(series[j]) !in shown
        invariant Grouped(rules, last, a, shown, groups, order) && Seen(rules, last, a, shown, seen)
      {
        ghost var key := rules.series(series[i]);
        seen, groups, order := Take(series[i], a, seen, groups, order, shown);
        shown := shown[key := series[i]];
        assert series[..i + 1] == series[..i] + [series[i]];
        i := i + 1;
      }
      assert series[..i] == series;
    }

    /** A group that could not be noted keeps the previous values of its series. */
    method Restore(g: Group, seen: map<Key, real>) returns (next: map<Key, real>)
      ensures forall k :: if k in g.keys then Agree(next, last, k) else Agree(next, seen, k)
    {
      next := seen;
      var i := 0;
      while i < |g.keys|
        invariant i <= |g.keys|
        invariant forall k :: if k in g.keys[..i] then Agree(next, last, k) else Agree(next, seen, k)
      {
        assert g.keys[..i + 1] == g.keys[..i] + [g.keys[i]];
        next := KeepPrevious(next, last, g.keys[i]);
        i := i + 1;
      }
      assert g.keys[..i] == g.keys;
    }

    /** Observe: reads the egress once and hands on the refusals since the
        previous read. The notifier gets exactly the groups it takes, each once,
        and a series is remembered as counted unless it is to be counted again. */
    method Observe(series: Option<seq<Series>>, a: Answers) returns (ghost o: Observation)
      requires series.Some? ==> Apart(rules.series, series.value)
      modifies this
      ensures series.None? ==> last == old(last) && notified == old(notified)
      ensures series.Some? ==>
        && o.prev == old(last) && ReadAs(rules, series.value, a, o, last)
        && notified == old(notified) + Taken(a, o.offers)
    {
      o := Observation(last, map[], a, [], []);
      if series.None? {
        return;
      }
      var seen, groups, order;
      ghost var shown;
      seen, groups, order, shown := Collect(series.value, a);
      o := Observation(last, shown, a, seq(|order|, i requires 0 <= i < |order| => groups[order[i]]), order);
      CollectedIsSound(rules, o, groups);
      AreShown(rules, o);
      seen := HandOn(seen, groups, order, a, o);
      last := seen;
    }

    /** The loop over the groups. */
    method HandOn(counted: map<Key, real>, groups: map<string, Group>, order: seq<string>, a: Answers,
                  ghost o: Observation)
      returns (seen: map<Key, real>)
      requires last == o.prev && o.answers == a && |o.offers| == |order| && OffersShown(o)
      requires forall i :: 0 <= i < |order| ==> order[i] in groups && o.offers[i] == groups[order[i]]
      requires Seen(rules, o.prev, o.answers, o.shown, counted)
      modifies this`notified
      ensures Remembered(rules, o, seen) && notified == old(notified) + Taken(o.answers, o.offers)
    {
      seen := counted;
      var i := 0;
      NothingHandedOn(rules, o, seen);
      while i < |order|
        invariant i <= |order| && notified == old(notified) + Taken(o.answers, o.offers[..i])
        invariant Remembered(rules, Before(o, i), seen)
      {
        var g := groups[order[i]];
        ghost var seen0 := seen;
        var done := Note(g, a);
        if !done {
          seen := Restore(g, seen);
        }
        OfferSettles(rules, o, i, seen0, seen);
        i := i + 1;
      }
      assert o.offers[..i] == o.offers;
    }
  }

  // --- whole runs -------------------------------------------------------------------------

  /** The observations from what was remembered first to what is remembered last. */
  ghost predicate Linked(r: Rules, log: seq<Observation>, first: map<Key, real>, last: map<Key, real>)
    decreases |log|
  {
    if log == [] then last == first
    else
      var o := log[|log| - 1];
      Sound(r, o) && Remembered(r, o, last) && Linked(r, log[..|log| - 1], first, o.prev)
  }

  /** k is in a group the notifier took. */
  predicate ToldIn(o: Observation, k: Key) {
    exists i :: 0 <= i < |o.offers| && k in o.offers[i].keys && o.answers.note(o.offers[i]).Noted?
  }

  /** k's increase concerns nobody: nothing to name, no Session's, or of an agent
      that records no creator or one Slack does not know. */
  predicate DismissedIn(r: Rules, o: Observation, k: Key) {
    && k in o.shown
    && (!Eligible(r, o.shown[k], Increase(o.prev, k, o.shown[k])) || o.answers.session(k).NotSession? || NobodyIn(o, k))
  }

  predicate NobodyIn(o: Observation, k: Key) {
    exists i :: 0 <= i < |o.offers| && k in o.offers[i].keys && Nobody(o.answers.note(o.offers[i]))
  }

  predicate Nobody(o: Outcome) { o.NoCreator? || o.NoAddressee? }

  /** How much the series counted since what was remembered of it. */
  function Amount(o: Observation, k: Key): real {
    if k in o.shown then Increase(o.prev, k, o.shown[k]) else 0.0
  }

  /** How much of k was told over the observations. */
  function Told(log: seq<Observation>, k: Key): real
    decreases |log|
  {
    if log == [] then 0.0
    else
      var o := log[|log| - 1];
      Told(log[..|log| - 1], k) + if ToldIn(o, k) then Amount(o, k) else 0.0
  }

  /** How much of k concerned nobody. */
  function Dismissed(r: Rules, log: seq<Observation>, k: Key): real
    decreases |log|
  {
    if log == [] then 0.0
    else
      var o := log[|log| - 1];
      Dismissed(r, log[..|log| - 1], k) + if DismissedIn(r, o, k) then Amount(o, k) else 0.0
  }

  /** Every observation shows k at no less than is remembered of it. */
  ghost predicate Steady(log: seq<Observation>, k: Key) {
    forall i :: 0 <= i < |log| ==> SteadyIn(log[i], k)
  }

  predicate SteadyIn(o: Observation, k: Key) {
    k in o.shown && o.shown[k].value >= 0.0 && o.shown[k].value >= Val(o.prev, k)
  }

  /** A series in a group is told, put back, or concerns nobody, as the group was. */
  lemma GroupDecides(r: Rules, o: Observation, i: nat, k: Key)
    requires Sound(r, o) && i < |o.offers| && k in o.offers[i].keys
    ensures ToldIn(o, k) <==> o.answers.note(o.offers[i]).Noted?
    ensures NobodyIn(o, k) <==> Nobody(o.answers.note(o.offers[i]))
    ensures PutBack(o.answers, o.offers, k) <==> !Done(o.answers.note(o.offers[i]))
    ensures k in o.shown && Goes(r, o.prev, o.answers, k, o.shown[k])
  {
    assert Formed(r, o.prev, o.answers, o.shown, o.homes[i], o.offers[i]);
    forall j: nat | j < |o.offers| && k in o.offers[j].keys ensures i == j {
      InOneGroup(r, o, i, j, k);
    }
  }

  /** A series in no group concerns nobody, or its agent could not be found out. */
  lemma NoGroupDecides(r: Rules, o: Observation, k: Key)
    requires Sound(r, o) && k in o.shown && !In(o.offers, k)
    ensures !ToldIn(o, k) && !NobodyIn(o, k) && !PutBack(o.answers, o.offers, k)
    ensures !Goes(r, o.prev, o.answers, k, o.shown[k])
  {
  }

  /** The three ways a series' increase can go. */
  ghost predicate OneOf(r: Rules, o: Observation, k: Key) {
    && (ToldIn(o, k) || DismissedIn(r, o, k) || Deferred(r, o, k))
    && !(ToldIn(o, k) && DismissedIn(r, o, k)) && !(ToldIn(o, k) && Deferred(r, o, k))
    && !(DismissedIn(r, o, k) && Deferred(r, o, k))
  }

  lemma OneOfFrom(r: Rules, o: Observation, k: Key, told: bool, nobody: bool, back: bool, goes: bool)
    requires k in o.shown && told == ToldIn(o, k) && nobody == NobodyIn(o, k) && back == PutBack(o.answers, o.offers, k)
    requires goes == Goes(r, o.prev, o.answers, k, o.shown[k])
    requires if goes then (told || nobody || back) && !(told && nobody) && !(told && back) && !(nobody && back)
             else !told && !nobody && !back
    ensures OneOf(r, o, k)
  {
  }

  /** What a series counted in one observation is told, or concerns nobody, or is
      put off to the next one: exactly one of the three. */
  lemma OneOfThree(r: Rules, o: Observation, k: Key)
    requires Sound(r, o) && k in o.shown
    ensures OneOf(r, o, k)
  {
    if i: nat :| i < |o.offers| && k in o.offers[i].keys {
      GroupDecides(r, o, i, k);
      var note := o.answers.note(o.offers[i]);
      OneOfFrom(r, o, k, note.Noted?, Nobody(note), !Done(note), true);
    } else {
      NoGroupDecides(r, o, k);
      OneOfFrom(r, o, k, false, false, false, false);
    }
  }

  /** What was remembered of a series that is gone, or counts from the start again. */
  function Restart(r: Rules, o: Observation, k: Key): real {
    if k !in o.shown then Val(o.prev, k)
    else if !Deferred(r, o, k) && k in o.prev && o.shown[k].value < o.prev[k] then o.prev[k]
    else 0.0
  }

  function Restarts(r: Rules, log: seq<Observation>, k: Key): real
    decreases |log|
  {
    if log == [] then 0.0 else Restarts(r, log[..|log| - 1], k) + Restart(r, log[|log| - 1], k)
  }

  /** Over any stretch of observations, whatever failed in them, what was told of
      a series and what of it concerned nobody are together what is remembered of
      it more than before, and what its restarts counted anew: nothing is lost
      and nothing is told twice. */
  lemma {:induction false} NothingLostOrToldTwice(r: Rules, log: seq<Observation>, first: map<Key, real>, last: map<Key, real>, k: Key)
    requires Linked(r, log, first, last)
    ensures Told(log, k) + Dismissed(r, log, k) == Val(last, k) - Val(first, k) + Restarts(r, log, k)
    decreases |log|
  {
    if log != [] {
      var o := log[|log| - 1];
      NothingLostOrToldTwice(r, log[..|log| - 1], first, o.prev, k);
      OneStep(r, o, last, k);
    }
  }

  lemma OneStep(r: Rules, o: Observation, last: map<Key, real>, k: Key)
    requires Sound(r, o) && Remembered(r, o, last)
    ensures (if ToldIn(o, k) then Amount(o, k) else 0.0) + (if DismissedIn(r, o, k) then Amount(o, k) else 0.0)
         == Val(last, k) - Val(o.prev, k) + Restart(r, o, k)
  {
    assert Remembers(r, o, last, k);
    if k in o.shown {
      OneOfThree(r, o, k);
    }
  }

  /** Of a counter that never went back, what was told and dismissed since it was
      first read is never more than it counts. */
  lemma {:induction false} NeverMoreThanCounted(r: Rules, log: seq<Observation>, first: map<Key, real>, last: map<Key, real>, k: Key)
    requires Linked(r, log, first, last) && Steady(log, k)
    ensures Restarts(r, log, k) == 0.0 && Val(first, k) <= Val(last, k)
    ensures log != [] ==> Told(log, k) + Dismissed(r, log, k) <= log[|log| - 1].shown[k].value - Val(first, k)
    decreases |log|
  {
    NothingLostOrToldTwice(r, log, first, last, k);
    if log != [] {
      var o := log[|log| - 1];
      assert SteadyIn(o, k) && Remembers(r, o, last, k);
      NeverMoreThanCounted(r, log[..|log| - 1], first, o.prev, k);
    }
  }

  /** The log has the successful ones of the first n reads, each with what was
      answered during it and with what the one before it left. */
  ghost predicate RunTo(r: Rules, read: seq<Option<seq<Series>>>, answers: seq<Answers>, n: nat,
                        log: seq<Observation>, first: map<Key, real>, last: map<Key, real>)
    requires n <= |read| == |answers|
    decreases n
  {
    if n == 0 then log == [] && last == first
    else if read[n - 1].None? then RunTo(r, read, answers, n - 1, log, first, last)
    else
      && log != []
      && ReadAs(r, read[n - 1].value, answers[n - 1], log[|log| - 1], last)
      && RunTo(r, read, answers, n - 1, log[..|log| - 1], first, log[|log| - 1].prev)
  }

  /** o is the observation of that read, and last what it left. */
  ghost predicate ReadAs(r: Rules, series: seq<Series>, a: Answers, o: Observation, last: map<Key, real>) {
    o.answers == a && Shows(r.series, series, o.shown) && Sound(r, o) && Remembered(r, o, last)
  }

  /** The log of a run is linked. */
  lemma {:induction false} RunIsLinked(r: Rules, read: seq<Option<seq<Series>>>, answers: seq<Answers>, n: nat,
                                       log: seq<Observation>, first: map<Key, real>, last: map<Key, real>)
    requires n <= |read| == |answers| && RunTo(r, read, answers, n, log, first, last)
    ensures Linked(r, log, first, last)
    decreases n
  {
    if n > 0 && read[n - 1].None? {
      RunIsLinked(r, read, answers, n - 1, log, first, last);
    } else if n > 0 {
      RunIsLinked(r, read, answers, n - 1, log[..|log| - 1], first, log[|log| - 1].prev);
    }
  }

  /** What the notifier had before the observations and all it took of them. */
  function AllTaken(had: seq<Group>, log: seq<Observation>): seq<Group>
    decreases |log|
  {
    if log == [] then had
    else AllTaken(had, log[..|log| - 1]) + Taken(log[|log| - 1].answers, log[|log| - 1].offers)
  }

  lemma RunGoesOn(r: Rules, read: seq<Option<seq<Series>>>, answers: seq<Answers>, i: nat, log: seq<Observation>,
                  first: map<Key, real>, last: map<Key, real>, o: Observation, next: map<Key, real>)
    requires i < |read| == |answers| && RunTo(r, read, answers, i, log, first, last)
    requires if read[i].Some? then o.prev == last && ReadAs(r, read[i].value, answers[i], o, next) else next == last
    ensures RunTo(r, read, answers, i + 1, if read[i].Some? then log + [o] else log, first, next)
  {
    assert (log + [o])[..|log|] == log;
  }

  lemma AllTakenMore(had: seq<Group>, log: seq<Observation>, o: Observation)
    ensures AllTaken(had, log + [o]) == AllTaken(had, log) + Taken(o.answers, o.offers)
  {
    assert (log + [o])[..|log|] == log;
  }

  /** Run: the notifier gets the groups of the successful reads, each read
      continuing from what the one before it left. */
  method Run(w: Watcher, observed: seq<Option<seq<Series>>>, answers: seq<Answers>) returns (ghost log: seq<Observation>)
    requires |answers| == |observed|
    requires forall i :: 0 <= i < |observed| && observed[i].Some? ==> Apart(w.rules.series, observed[i].value)
    modifies w
    ensures RunTo(w.rules, observed, answers, |observed|, log, old(w.last), w.last)
    ensures w.notified == AllTaken(old(w.notified), log)
  {
    log :| log == [];
    var i := 0;
    while i < |observed|
      invariant i <= |observed| && RunTo(w.rules, observed, answers, i, log, old(w.last), w.last)
      invariant w.notified == AllTaken(old(w.notified), log)
    {
      ghost var prev := w.last;
      ghost var o := w.Observe(observed[i], answers[i]);
      RunGoesOn(w.rules, observed, answers, i, log, old(w.last), prev, o, w.last);
      if observed[i].Some? {
        AllTakenMore(old(w.notified), log, o);
        log := log + [o];
      }
      i := i + 1;
    }
  }
}
