/** A reply continued across gateway restarts: each process is handed the whole
    answer again, and posts what the ones before it had not. */
module Continuation {
  import opened Streaming
  import opened ThreadRow

  // --- leading whitespace -------------------------------------------------------------

  /** The length of the UTF-8 whitespace character s begins with, 0 when it begins with none. */
  function SpaceLen(s: Bytes): (n: nat)
    ensures n <= |s|
  {
    if |s| >= 1 && Space1(s[0]) then 1
    else if |s| >= 2 && Space2(s[0], s[1]) then 2
    else if |s| >= 3 && Space3(s[0], s[1], s[2]) then 3
    else 0
  }

  predicate Space1(a: Byte) { 9 <= a <= 13 || a == 32 }

  /** U+0085 and U+00A0. */
  predicate Space2(a: Byte, b: Byte) { a == 0xC2 && (b == 0x85 || b == 0xA0) }

  /** U+1680, U+2000 to U+200A, U+2028, U+2029, U+202F, U+205F and U+3000. */
  predicate Space3(a: Byte, b: Byte, c: Byte) {
    || (a == 0xE1 && b == 0x9A && c == 0x80)
    || (a == 0xE2 && b == 0x80 && (0x80 <= c <= 0x8A || c == 0xA8 || c == 0xA9 || c == 0xAF))
    || (a == 0xE2 && b == 0x81 && c == 0x9F)
    || (a == 0xE3 && b == 0x80 && c == 0x80)
  }

  /** The code points that Unicode calls white space. */
  predicate WhiteSpace(c: nat) {
    || 9 <= c <= 13 || c == 0x20 || c == 0x85 || c == 0xA0 || c == 0x1680 || 0x2000 <= c <= 0x200A
    || c == 0x2028 || c == 0x2029 || c == 0x202F || c == 0x205F || c == 0x3000
  }

  /** A code point of the first plane in UTF-8. */
  function Utf8(c: nat): Bytes
    requires c < 0x1_0000
  {
    if c < 0x80 then [c]
    else if c < 0x800 then [0xC0 + c / 64, 0x80 + c % 64]
    else [0xE0 + c / 4096, 0x80 + c / 64 % 64, 0x80 + c % 64]
  }

  /** s begins with the white space character c. */
  predicate OpensWith(s: Bytes, c: nat) { c < 0x1_0000 && WhiteSpace(c) && Utf8(c) <= s }

  /** The whitespace dropped is Unicode's, byte for byte. */
  lemma SpaceIsUnicode(s: Bytes)
    ensures SpaceLen(s) > 0 <==> exists c :: OpensWith(s, c)
    ensures forall c :: OpensWith(s, c) ==> SpaceLen(s) == |Utf8(c)|
  {
    if SpaceLen(s) > 0 { OpensWithOne(s); }
  }

  lemma OpensWithOne(s: Bytes)
    requires SpaceLen(s) > 0
    ensures exists c :: OpensWith(s, c)
  {
    if SpaceLen(s) == 1 {
      assert OpensWith(s, s[0]);
    } else if SpaceLen(s) == 2 {
      assert OpensWith(s, s[1]);
    } else {
      assert OpensWith(s, (s[0] as int - 0xE0) * 4096 + (s[1] as int - 0x80) * 64 + (s[2] as int - 0x80));
    }
  }

  predicate AllSpace(s: Bytes)
    decreases |s|
  {
    s == [] || (SpaceLen(s) > 0 && AllSpace(s[SpaceLen(s)..]))
  }

  /** How much whitespace s begins with. */
  function LeadLen(s: Bytes): (n: nat)
    ensures n <= |s|
    decreases |s|
  {
    if SpaceLen(s) == 0 then 0 else SpaceLen(s) + LeadLen(s[SpaceLen(s)..])
  }

  lemma {:induction false} LeadIsSpace(s: Bytes)
    ensures AllSpace(s[..LeadLen(s)]) && SpaceLen(s[LeadLen(s)..]) == 0
    decreases |s|
  {
    var n := SpaceLen(s);
    if n > 0 {
      LeadIsSpace(s[n..]);
      var lead := s[..LeadLen(s)];
      assert lead[n..] == s[n..][..LeadLen(s[n..])];
      assert s[LeadLen(s)..] == s[n..][LeadLen(s[n..])..];
      assert SpaceLen(lead) == n;
    } else {
      assert s[LeadLen(s)..] == s;
    }
  }

  lemma {:induction false} SpacesJoin(a: Bytes, b: Bytes)
    requires AllSpace(a) && AllSpace(b)
    ensures AllSpace(a + b)
    decreases |a|
  {
    if |a| == 0 {
      assert a + b == b;
    } else {
      var n := SpaceLen(a);
      SpacesJoin(a[n..], b);
      assert SpaceLen(a + b) == n && (a + b)[n..] == a[n..] + b;
    }
  }

  // --- the writer -------------------------------------------------------------------------

  /** What a continuing writer keeps: what was posted before it, how much of that
      is still to be dropped, whether it is still trimming, and how much it trimmed. */
  datatype Seed = Seed(carried: nat, skipText: nat, trimLead: bool, leadTrimmed: nat)

  function ContinueFrom(textLen: nat): Seed { Seed(textLen, textLen, false, 0) }

  function Min(a: nat, b: nat): nat { if a < b then a else b }

  function Skip(w: Seed, content: Bytes): (Seed, Bytes) {
    var n := Min(w.skipText, |content|);
    var rest := content[n..];
    var trim := if w.skipText > 0 then w.skipText == n else w.trimLead;
    var lead := if trim then LeadLen(rest) else 0;
    (w.(skipText := w.skipText - n, trimLead := trim && rest[lead..] == [], leadTrimmed := w.leadTrimmed + lead), rest[lead..])
  }

  method TrimLeft(s: Bytes) returns (t: Bytes)
    ensures t == s[LeadLen(s)..]
  {
    t := s;
    while SpaceLen(t) > 0
      invariant |t| <= |s| && t == s[|s| - |t|..] && |s| - |t| + LeadLen(t) == LeadLen(s)
      decreases |t|
    {
      t := t[SpaceLen(t)..];
    }
  }

  // --- one process -------------------------------------------------------------------------

  function Concat(chunks: seq<Bytes>): Bytes {
    if chunks == [] then [] else Concat(chunks[..|chunks| - 1]) + chunks[|chunks| - 1]
  }

  /** A process's run of the turn: the chunks the answer reached it in, as far as
      it lived, and how many bytes it had landed when it last recorded. */
  datatype Process = Process(chunks: seq<Bytes>, landed: nat)

  /** What the process passed on to be posted. */
  function Handed(carried: nat, p: Process): Bytes { Fold(Skip, ContinueFrom(carried), p.chunks).1 }

  function Trimmed(carried: nat, p: Process): nat { Fold(Skip, ContinueFrom(carried), p.chunks).0.leadTrimmed }

  /** The text length the process recorded last. */
  function Recorded(carried: nat, p: Process): nat { carried + Trimmed(carried, p) + p.landed }

  /** How a writer stands after the bytes seen of the answer. */
  ghost predicate Stands(carried: nat, seen: Bytes, w: Seed, handed: Bytes) {
    && w.carried == carried && w.skipText == carried - Min(carried, |seen|)
    && (w.trimLead ==> handed == [] && w.skipText == 0)
    && (carried == 0 ==> w.leadTrimmed == 0 && !w.trimLead)
    && (if |seen| < carried then handed == [] && w.leadTrimmed == 0
        else Splits(carried, seen, w.leadTrimmed, handed) && (carried > 0 && handed == [] ==> w.trimLead))
  }

  /** Of seen, all past carried is n bytes of whitespace and then handed. */
  predicate Splits(carried: nat, seen: Bytes, n: nat, handed: Bytes) {
    carried + n <= |seen| && seen[carried + n..] == handed && AllSpace(seen[carried..carried + n])
  }

  lemma SplitsMore(carried: nat, seen: Bytes, n: nat, handed: Bytes, content: Bytes)
    requires Splits(carried, seen, n, handed)
    ensures Splits(carried, seen + content, n, handed + content)
  {
    assert (seen + content)[carried..carried + n] == seen[carried..carried + n];
  }

  lemma SplitsTrims(carried: nat, all: Bytes, n: nat, rest: Bytes)
    requires Splits(carried, all, n, rest)
    ensures Splits(carried, all, n + LeadLen(rest), rest[LeadLen(rest)..])
  {
    LeadIsSpace(rest);
    SplitsFurther(carried, all, n, rest, LeadLen(rest));
  }

  lemma SplitsFurther(carried: nat, all: Bytes, n: nat, rest: Bytes, lead: nat)
    requires Splits(carried, all, n, rest) && lead <= |rest| && AllSpace(rest[..lead])
    ensures Splits(carried, all, n + lead, rest[lead..])
  {
    CutAgain(all, carried, carried + n, rest, lead);
    SpacesJoin(all[carried..carried + n], rest[..lead]);
  }

  lemma CutAgain<T>(s: seq<T>, i: nat, j: nat, rest: seq<T>, n: nat)
    requires i <= j <= |s| && rest == s[j..] && n <= |rest|
    ensures s[j + n..] == rest[n..] && s[i..j + n] == s[i..j] + rest[..n]
  {
  }

  lemma Further<T>(s: seq<T>, i: nat, n: nat)
    requires i + n <= |s|
    ensures s[i..][..n] == s[i..i + n] && s[i..][n..] == s[i + n..]
  {
  }

  lemma SplitsNone(carried: nat, all: Bytes, n: nat, rest: Bytes)
    requires n == 0 && carried <= |all| && all[carried..] == rest
    ensures Splits(carried, all, n, rest)
  {
    assert |all[carried..carried + n]| == 0;
  }

  lemma SkipsAll(carried: nat, seen: Bytes, w: Seed, handed: Bytes, content: Bytes)
    requires Stands(carried, seen, w, handed) && |seen + content| < carried
    ensures Stands(carried, seen + content, Skip(w, content).0, handed + Skip(w, content).1)
  {
    var (next, out) := Skip(w, content);
    assert |out| == 0 && |handed + out| == 0;
  }

  lemma SkipsRest(carried: nat, seen: Bytes, w: Seed, handed: Bytes, content: Bytes)
    requires Stands(carried, seen, w, handed) && |seen| < carried <= |seen + content|
    ensures Stands(carried, seen + content, Skip(w, content).0, handed + Skip(w, content).1)
  {
    var rest := content[w.skipText..];
    var lead := LeadLen(rest);
    Behind(seen, content, carried);
    RestSplits(carried, seen + content, rest);
    CutIs(w, content, rest, lead);
    NothingFirst(handed, rest[lead..]);
    LeadStands(carried, seen + content, w.(skipText := 0), rest[lead..], lead);
  }

  lemma RestSplits(carried: nat, all: Bytes, rest: Bytes)
    requires carried <= |all| && all[carried..] == rest
    ensures Splits(carried, all, LeadLen(rest), rest[LeadLen(rest)..])
  {
    SplitsNone(carried, all, 0, rest);
    SplitsTrims(carried, all, 0, rest);
  }

  lemma CutIs(w: Seed, content: Bytes, rest: Bytes, lead: nat)
    requires 0 < w.skipText <= |content| && rest == content[w.skipText..] && lead == LeadLen(rest)
    ensures Skip(w, content)
         == (w.(skipText := 0, trimLead := rest[lead..] == [], leadTrimmed := w.leadTrimmed + lead), rest[lead..])
  {
  }

  lemma Behind<T>(s: seq<T>, t: seq<T>, i: nat)
    requires |s| <= i <= |s| + |t|
    ensures (s + t)[i..] == t[i - |s|..]
  {
  }

  lemma SkipsNone(carried: nat, seen: Bytes, w: Seed, handed: Bytes, content: Bytes)
    requires Stands(carried, seen, w, handed) && carried <= |seen| && !w.trimLead
    ensures Stands(carried, seen + content, Skip(w, content).0, handed + Skip(w, content).1)
  {
    assert Skip(w, content) == (w, content) by { assert content[0..][0..] == content; }
    SplitsMore(carried, seen, w.leadTrimmed, handed, content);
  }

  lemma SkipsLead(carried: nat, seen: Bytes, w: Seed, handed: Bytes, content: Bytes)
    requires Stands(carried, seen, w, handed) && carried <= |seen| && w.trimLead
    ensures Stands(carried, seen + content, Skip(w, content).0, handed + Skip(w, content).1)
  {
    var lead := LeadLen(content);
    var out := content[lead..];
    SkipIs(w, content, lead);
    Nothing(out, handed);
    LeadSplits(carried, seen, w.leadTrimmed, handed, content, out);
    LeadStands(carried, seen + content, w, out, lead);
  }

  lemma LeadSplits(carried: nat, seen: Bytes, n: nat, handed: Bytes, content: Bytes, out: Bytes)
    requires Splits(carried, seen, n, handed) && handed == [] && out == content[LeadLen(content)..]
    ensures Splits(carried, seen + content, n + LeadLen(content), out)
  {
    Nothing(content, handed);
    SplitsMore(carried, seen, n, handed, content);
    SplitsTrims(carried, seen + content, n, content);
  }

  lemma SkipIs(w: Seed, content: Bytes, lead: nat)
    requires w.skipText == 0 && w.trimLead && lead == LeadLen(content)
    ensures Skip(w, content) == (w.(trimLead := content[lead..] == [], leadTrimmed := w.leadTrimmed + lead), content[lead..])
  {
    assert content[0..] == content;
  }

  lemma LeadStands(carried: nat, all: Bytes, w: Seed, out: Bytes, lead: nat)
    requires w.carried == carried && carried > 0 && carried <= |all| && w.skipText == 0
    requires Splits(carried, all, w.leadTrimmed + lead, out)
    ensures Stands(carried, all, w.(trimLead := out == [], leadTrimmed := w.leadTrimmed + lead), out)
  {
  }

  lemma SkipStands(carried: nat, seen: Bytes, w: Seed, handed: Bytes, content: Bytes)
    requires Stands(carried, seen, w, handed)
    ensures var (next, out) := Skip(w, content);
      Stands(carried, seen + content, next, handed + out)
  {
    if |seen + content| < carried {
      SkipsAll(carried, seen, w, handed, content);
    } else if |seen| < carried {
      SkipsRest(carried, seen, w, handed, content);
    } else if w.trimLead {
      SkipsLead(carried, seen, w, handed, content);
    } else {
      SkipsNone(carried, seen, w, handed, content);
    }
  }

  lemma {:induction false} ProcessStands(carried: nat, chunks: seq<Bytes>)
    ensures var (w, handed) := Fold(Skip, ContinueFrom(carried), chunks);
      Stands(carried, Concat(chunks), w, handed)
  {
    if |chunks| > 0 {
      var chunks0 := chunks[..|chunks| - 1];
      ProcessStands(carried, chunks0);
      var (w, handed) := Fold(Skip, ContinueFrom(carried), chunks0);
      SkipStands(carried, Concat(chunks0), w, handed, chunks[|chunks| - 1]);
    }
  }

  /** The text a writer hands on so far does not begin with whitespace. */
  lemma OpensClean(carried: nat, seen: Bytes, w: Seed, handed: Bytes, content: Bytes)
    requires carried > 0 && Stands(carried, seen, w, handed) && SpaceLen(handed) == 0
    requires content == [] || RuneStart(content[0])
    ensures SpaceLen(handed + Skip(w, content).1) == 0
  {
    var rest, out := content[Min(w.skipText, |content|)..], Skip(w, content).1;
    if handed == [] {
      assert handed + out == out;
      LeadIsSpace(rest);
      assert rest[0..] == rest;
    } else {
      assert content[0..][0..] == content;
    }
  }

  /** A continued reply never opens with whitespace, given chunks cut at runes. */
  lemma {:induction false} ContinuationOpensClean(carried: nat, chunks: seq<Bytes>)
    requires carried > 0 && forall i :: 0 <= i < |chunks| ==> chunks[i] == [] || RuneStart(chunks[i][0])
    ensures SpaceLen(Fold(Skip, ContinueFrom(carried), chunks).1) == 0
  {
    if |chunks| > 0 {
      var chunks0 := chunks[..|chunks| - 1];
      ContinuationOpensClean(carried, chunks0);
      ProcessStands(carried, chunks0);
      var (w, handed) := Fold(Skip, ContinueFrom(carried), chunks0);
      OpensClean(carried, Concat(chunks0), w, handed, chunks[|chunks| - 1]);
    }
  }

  // --- any number of restarts -------------------------------------------------------------

  /** The whitespace the process dropped at its cut, and the text it posted. */
  function Gap(carried: nat, p: Process): Bytes {
    var seen, n := Concat(p.chunks), Trimmed(carried, p);
    if carried + n <= |seen| then seen[carried..carried + n] else []
  }

  function Posted(carried: nat, p: Process): Bytes {
    if p.landed <= |Handed(carried, p)| then Handed(carried, p)[..p.landed] else Handed(carried, p)
  }

  /** In seen, behind carried come whitespace and then landed, which ends at place. */
  predicate LandsAt(carried: nat, seen: Bytes, landed: Bytes, place: nat) {
    if |seen| < carried then landed == [] && place == carried
    else
      && carried + |landed| <= place <= |seen|
      && AllSpace(seen[carried..place - |landed|]) && seen[place - |landed|..place] == landed
  }

  lemma SplitsLand(carried: nat, seen: Bytes, n: nat, handed: Bytes, landed: nat)
    requires Splits(carried, seen, n, handed) && landed <= |handed|
    ensures LandsAt(carried, seen, handed[..landed], carried + n + landed)
  {
    Further(seen, carried + n, landed);
  }

  lemma StandsLands(carried: nat, seen: Bytes, w: Seed, handed: Bytes, landed: nat)
    requires Stands(carried, seen, w, handed) && landed <= |handed|
    ensures LandsAt(carried, seen, handed[..landed], carried + w.leadTrimmed + landed)
  {
    if |seen| >= carried {
      SplitsLand(carried, seen, w.leadTrimmed, handed, landed);
    }
  }

  /** What a process records is where its bytes land in the answer it saw. */
  lemma RecordedLands(carried: nat, p: Process)
    requires p.landed <= |Handed(carried, p)|
    ensures LandsAt(carried, Concat(p.chunks), Posted(carried, p), Recorded(carried, p))
  {
    ProcessStands(carried, p.chunks);
    var (w, handed) := Fold(Skip, ContinueFrom(carried), p.chunks);
    StandsLands(carried, Concat(p.chunks), w, handed, p.landed);
  }

  lemma HandedMore(carried: nat, p: Process, w: Seed, content: Bytes)
    requires w == Fold(Skip, ContinueFrom(carried), p.chunks).0
    ensures Fold(Skip, ContinueFrom(carried), p.chunks + [content]).0 == Skip(w, content).0
    ensures Handed(carried, p.(chunks := p.chunks + [content])) == Handed(carried, p) + Skip(w, content).1
  {
    FoldMore(Skip, ContinueFrom(carried), p.chunks, content);
  }

  lemma FoldMore<S, E, O>(step: (S, E) -> (S, seq<O>), start: S, evs: seq<E>, e: E)
    ensures var (mid, out) := Fold(step, start, evs);
      Fold(step, start, evs + [e]) == (step(mid, e).0, out + step(mid, e).1)
  {
    assert (evs + [e])[..|evs|] == evs;
  }

  /** The writer of a turn's reply, as far as a restart is concerned. */
  class Writer {
    var carried: Delivered
    var skipText: nat
    var trimLead: bool
    var leadTrimmed: nat
    var appendedLen: nat
    var streamTS: string              // the open streamed message, "" for none
    var streamed: nat                 // and the text it carries
    var streamMessages: seq<string>   // every streamed message of the turn
    var streamAdopted: bool
    ghost var chunks: seq<Bytes>      // the answer as it reached the writer

    function View(): Seed
      reads this
    {
      Seed(carried.textLen, skipText, trimLead, leadTrimmed)
    }

    /** This process's run of the turn so far. */
    ghost function Run(): Process
      reads this
    {
      Process(chunks, appendedLen)
    }

    ghost predicate Valid()
      reads this
    {
      View() == Fold(Skip, ContinueFrom(carried.textLen), chunks).0 && appendedLen <= |Handed(carried.textLen, Run())|
    }

    constructor ()
      ensures Valid() && carried == NOTHING_DELIVERED && chunks == [] && appendedLen == 0 && streamMessages == []
    {
      carried, skipText, trimLead, leadTrimmed, appendedLen := NOTHING_DELIVERED, 0, false, 0, 0;
      streamTS, streamed, streamMessages, streamAdopted := "", 0, [], false;
      chunks := [];
    }

    /** continueFrom: seeds a new writer with what a previous process delivered,
        and takes over the message that one left open. */
    method ContinueAfter(d: Delivered)
      requires Valid() && View() == ContinueFrom(0) && chunks == [] && appendedLen == 0
      modifies this
      ensures Valid() && View() == ContinueFrom(d.textLen) && carried == d && chunks == [] && appendedLen == 0
      ensures streamTS == d.streamTS && streamed == d.streamLen && (streamAdopted <==> d.streamTS != "")
      ensures streamMessages == old(streamMessages) + if d.streamTS != "" then [d.streamTS] else []
    {
      carried := d;
      skipText := d.textLen;
      streamTS, streamed, streamAdopted := d.streamTS, d.streamLen, d.streamTS != "";
      if d.streamTS != "" {
        streamMessages := streamMessages + [d.streamTS];
      }
    }

    /** skipDelivered: drops from content what a previous process posted, and the
        whitespace behind it. */
    method SkipDelivered(content: Bytes) returns (out: Bytes)
      requires Valid()
      modifies this`skipText, this`trimLead, this`leadTrimmed, this`chunks
      ensures Valid() && chunks == old(chunks) + [content]
      ensures (View(), out) == Skip(old(View()), content)
      ensures Handed(carried.textLen, Run()) == old(Handed(carried.textLen, Run())) + out
    {
      HandedMore(carried.textLen, Run(), View(), content);
      out := Drop(content);
      chunks := chunks + [content];
    }

    method Drop(content: Bytes) returns (out: Bytes)
      modifies this`skipText, this`trimLead, this`leadTrimmed
      ensures (View(), out) == Skip(old(View()), content)
    {
      out := content;
      if skipText > 0 {
        var n := Min(skipText, |out|);
        skipText := skipText - n;
        out := out[n..];
        trimLead := skipText == 0;
      }
      if trimLead {
        var trimmed := TrimLeft(out);
        leadTrimmed := leadTrimmed + (|out| - |trimmed|);
        out := trimmed;
        trimLead := out == [];
      }
    }

    /** A batch with n bytes of what the writer passed on went to a stream. */
    method NoteAppended(n: nat)
      requires Valid() && appendedLen + n <= |Handed(carried.textLen, Run())|
      modifies this`appendedLen
      ensures Valid() && appendedLen == old(appendedLen) + n
    {
      appendedLen := appendedLen + n;
    }

    /** noteDelivered: the length recorded is the place in the answer up to which
        it stands in the thread: behind what earlier processes posted come only
        dropped whitespace and then exactly the bytes this one landed. */
    method NoteDelivered() returns (d: Delivered)
      requires Valid()
      ensures d.textLen == Recorded(carried.textLen, Run()) && d.streamTS == streamTS && d.streamLen == streamed
      ensures LandsAt(carried.textLen, Concat(chunks), Posted(carried.textLen, Run()), d.textLen)
    {
      d := Delivered(carried.textLen + leadTrimmed + appendedLen, streamTS, streamed);
      RecordedLands(carried.textLen, Run());
    }
  }

  /** The process saw the answer from its start, and recorded what had landed. */
  ghost predicate Lived(answer: Bytes, carried: nat, p: Process) {
    Concat(p.chunks) <= answer && p.landed <= |Handed(carried, p)|
  }

  /** The text length recorded after the processes, one continuing the other. */
  function Position(ps: seq<Process>): nat {
    if ps == [] then 0 else Recorded(Position(ps[..|ps| - 1]), ps[|ps| - 1])
  }

  ghost predicate AllLived(answer: Bytes, ps: seq<Process>) {
    forall i :: 0 <= i < |ps| ==> Lived(answer, Position(ps[..i]), ps[i])
  }

  /** What the thread shows, with the dropped whitespace put back at the cuts. */
  function Restored(ps: seq<Process>): Bytes {
    if ps == [] then []
    else
      var carried, p := Position(ps[..|ps| - 1]), ps[|ps| - 1];
      Restored(ps[..|ps| - 1]) + Gap(carried, p) + Posted(carried, p)
  }

  /** One process continues the answer exactly where the record says. */
  lemma ProcessContinues(answer: Bytes, carried: nat, p: Process)
    requires carried <= |answer| && Lived(answer, carried, p)
    ensures Recorded(carried, p) <= |answer|
    ensures answer[carried..Recorded(carried, p)] == Gap(carried, p) + Posted(carried, p)
    ensures AllSpace(Gap(carried, p)) && (carried == 0 ==> Gap(carried, p) == [])
  {
    RecordedLands(carried, p);
    Landed(answer, carried, Concat(p.chunks), Trimmed(carried, p), Posted(carried, p), Gap(carried, p));
    if carried == 0 { FirstTrimsNothing(p); }
  }

  lemma FirstTrimsNothing(p: Process)
    ensures Gap(0, p) == []
  {
    ProcessStands(0, p.chunks);
  }

  lemma Landed(answer: Bytes, carried: nat, seen: Bytes, n: nat, posted: Bytes, gap: Bytes)
    requires seen <= answer && carried <= |answer| && LandsAt(carried, seen, posted, carried + n + |posted|)
    requires gap == if carried + n <= |seen| then seen[carried..carried + n] else []
    ensures carried + n + |posted| <= |answer| && AllSpace(gap)
    ensures answer[carried..carried + n + |posted|] == gap + posted
  {
    if |seen| < carried {
      assert |answer[carried..carried]| == 0;
    } else {
      InPrefix(seen, answer, carried, carried + n + |posted|);
      Joint(seen, carried, carried + n, carried + n + |posted|);
    }
  }

  lemma InPrefix<T>(s: seq<T>, t: seq<T>, i: nat, j: nat)
    requires s <= t && i <= j <= |s|
    ensures s[i..j] == t[i..j]
  {
  }

  lemma Joint<T>(s: seq<T>, i: nat, j: nat, k: nat)
    requires i <= j <= k <= |s|
    ensures s[i..k] == s[i..j] + s[j..k]
  {
  }

  lemma AnswerGrows(answer: Bytes, from: nat, to: nat, gap: Bytes, posted: Bytes)
    requires from <= to <= |answer| && answer[from..to] == gap + posted
    ensures answer[..to] == answer[..from] + gap + posted
  {
    Joint(answer, 0, from, to);
    assert answer[0..from] == answer[..from] && answer[0..to] == answer[..to];
    Regroup(answer[..from], gap, posted);
  }

  lemma LivedBefore(answer: Bytes, ps: seq<Process>, n: nat)
    requires n < |ps| && AllLived(answer, ps)
    ensures AllLived(answer, ps[..n]) && Lived(answer, Position(ps[..n]), ps[n])
  {
    forall i | 0 <= i < n ensures Lived(answer, Position(ps[..n][..i]), ps[..n][i]) {
      assert ps[..n][..i] == ps[..i];
      assert Lived(answer, Position(ps[..i]), ps[i]);
    }
  }

  /** Over any number of restarts, wherever each process died and however the
      answer was chunked, the recorded length is an exact position in the answer,
      and what was posted up to it is the answer with nothing repeated and
      nothing missing but what was dropped at the cuts. */
  lemma {:induction false} RestartsContinue(answer: Bytes, ps: seq<Process>)
    requires AllLived(answer, ps)
    ensures Position(ps) <= |answer| && Restored(ps) == answer[..Position(ps)]
  {
    if |ps| > 0 {
      var ps0, p := ps[..|ps| - 1], ps[|ps| - 1];
      var carried := Position(ps0);
      LivedBefore(answer, ps, |ps| - 1);
      RestartsContinue(answer, ps0);
      ProcessContinues(answer, carried, p);
      AnswerGrows(answer, carried, Recorded(carried, p), Gap(carried, p), Posted(carried, p));
    }
  }

  /** What was dropped at a cut is whitespace, and the first process drops nothing. */
  lemma CutsDropSpaceOnly(answer: Bytes, ps: seq<Process>, i: nat)
    requires AllLived(answer, ps) && i < |ps|
    ensures AllSpace(Gap(Position(ps[..i]), ps[i])) && (i == 0 ==> Gap(0, ps[0]) == [])
  {
    LivedBefore(answer, ps, i);
    RestartsContinue(answer, ps[..i]);
    ProcessContinues(answer, Position(ps[..i]), ps[i]);
  }
}
