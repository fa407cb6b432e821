/** The text a channel renders from a task's artifact updates: each update goes
    out as what it adds, and a finished task renders as its artifacts whole. */
module Streaming {
  type Byte = b: int | 0 <= b < 256
  type Bytes = seq<Byte>
  type ArtifactID = string

  const NL: Byte := 10

  /** The first byte of a UTF-8 sequence, or a byte that is none. */
  predicate RuneStart(b: Byte) { b < 0x80 || 0xC0 <= b }

  datatype Event = Event(id: ArtifactID, append: bool, text: Bytes)

  /** What artifactText remembers: each artifact's text, the artifact the last
      rendered text came from, and how that text ends. */
  datatype Tracker = Tracker(delivered: map<ArtifactID, Bytes>, last: ArtifactID, tail: Bytes)

  const NOTHING := Tracker(map[], "", [])

  /** How many newlines end s, two at most. */
  function Ending(s: Bytes): nat {
    if s == [] || s[|s| - 1] != NL then 0
    else if |s| == 1 || s[|s| - 2] != NL then 1
    else 2
  }

  function ParagraphBreak(tail: Bytes): Bytes {
    if Ending(tail) == 2 then [] else if Ending(tail) == 1 then [NL] else [NL, NL]
  }

  function Last2(s: Bytes): (t: Bytes)
    ensures Ending(t) == Ending(s) && (t == [] <==> s == [])
  {
    if |s| <= 2 then s else s[|s| - 2..]
  }

  predicate EndsBlank(s: Bytes) { |s| >= 2 && s[|s| - 1] == NL && s[|s| - 2] == NL }

  /** A new artifact opens a paragraph: behind the text so far and the break there is
      a blank line, and with any newline less there is none. */
  lemma OpensParagraph(before: Bytes)
    requires before != []
    ensures var gap := ParagraphBreak(Last2(before));
      EndsBlank(before + gap) && (gap != [] ==> !EndsBlank(before + gap[1..]))
  {
    var gap := ParagraphBreak(Last2(before));
    if |gap| == 1 { assert before + gap[1..] == before; }
  }

  /** The length of the longest common prefix. */
  function CommonPrefix(a: Bytes, b: Bytes): (n: nat)
    ensures n <= |a| && n <= |b|
  {
    if a == [] || b == [] || a[0] != b[0] then 0 else 1 + CommonPrefix(a[1..], b[1..])
  }

  /** It is the one place where the two agree before it and not after. */
  lemma {:induction false} CommonPrefixIs(a: Bytes, b: Bytes, n: nat)
    requires n <= |a| && n <= |b| && a[..n] == b[..n] && (n < |a| && n < |b| ==> a[n] != b[n])
    ensures CommonPrefix(a, b) == n
  {
    if n > 0 {
      assert a[0] == a[..n][0] && b[0] == b[..n][0];
      assert a[1..][..n - 1] == a[..n][1..] && b[1..][..n - 1] == b[..n][1..];
      CommonPrefixIs(a[1..], b[1..], n - 1);
    }
  }

  /** The last place at or before i where b may be cut without splitting a rune. */
  function BackOff(b: Bytes, i: nat): (j: nat)
    requires i <= |b|
    ensures j <= i && (j == 0 || j == |b| || RuneStart(b[j]))
  {
    if i > 0 && i < |b| && !RuneStart(b[i]) then BackOff(b, i - 1) else i
  }

  function Cut(a: Bytes, b: Bytes): (n: nat)
    ensures n <= |b|
  {
    BackOff(b, CommonPrefix(a, b))
  }

  function Rendered(tr: Tracker, id: ArtifactID, text: Bytes): (Tracker, Bytes) {
    if text == [] then (tr, [])
    else
      var out := if tr.tail != [] && id != tr.last then ParagraphBreak(tr.tail) + text else text;
      (tr.(last := id, tail := Last2(out)), out)
  }

  function Before(tr: Tracker, id: ArtifactID): Bytes {
    if id in tr.delivered then tr.delivered[id] else []
  }

  function DeltaOf(tr: Tracker, ev: Event): (Tracker, Bytes) {
    if ev.id == "" then Rendered(tr, ev.id, ev.text)
    else
      var prev := Before(tr, ev.id);
      if ev.append then Rendered(tr.(delivered := tr.delivered[ev.id := prev + ev.text]), ev.id, ev.text)
      else Rendered(tr.(delivered := tr.delivered[ev.id := ev.text]), ev.id, ev.text[Cut(prev, ev.text)..])
  }

  /** step run over evs in order: the state it ends in and all it put out. */
  function Fold<S, E, O>(step: (S, E) -> (S, seq<O>), start: S, evs: seq<E>): (S, seq<O>) {
    if evs == [] then (start, [])
    else
      var (mid, out) := Fold(step, start, evs[..|evs| - 1]);
      var (end, more) := step(mid, evs[|evs| - 1]);
      (end, out + more)
  }

  lemma {:induction false} FoldJoins<S, E, O>(step: (S, E) -> (S, seq<O>), start: S, a: seq<E>, b: seq<E>)
    ensures Fold(step, start, a + b).0 == Fold(step, Fold(step, start, a).0, b).0
    ensures Fold(step, start, a + b).1 == Fold(step, start, a).1 + Fold(step, Fold(step, start, a).0, b).1
  {
    if |b| == 0 {
      assert a + b == a;
    } else {
      FoldJoins(step, start, a, b[..|b| - 1]);
      assert (a + b)[..|a + b| - 1] == a + b[..|b| - 1];
    }
  }

  lemma FoldOne<S, E, O>(step: (S, E) -> (S, seq<O>), start: S, e: E)
    ensures Fold(step, start, [e]) == step(start, e)
  {
    var evs := [e];
    assert |evs[..|evs| - 1]| == 0;
    assert [] + step(start, e).1 == step(start, e).1;
  }

  lemma Regroup<T>(a: seq<T>, b: seq<T>, c: seq<T>)
    ensures a + (b + c) == (a + b) + c && a + b <= a + (b + c)
  {
  }

  lemma Nothing<T>(a: seq<T>, none: seq<T>)
    ensures none == [] ==> a + none == a
  {
  }

  lemma NothingFirst<T>(none: seq<T>, a: seq<T>)
    ensures none == [] ==> none + a == a
  {
  }

  /** The tracker after evs, and all the text they rendered. */
  function Stream(tr: Tracker, evs: seq<Event>): (Tracker, Bytes) { Fold(DeltaOf, tr, evs) }

  /** The tracker of the source, updated in place. */
  class ArtifactText {
    var delivered: map<ArtifactID, Bytes>
    var last: ArtifactID
    var tail: Bytes

    function View(): Tracker
      reads this
    {
      Tracker(delivered, last, tail)
    }

    constructor ()
      ensures View() == NOTHING
    {
      delivered, last, tail := map[], "", [];
    }

    method Delta(ev: Event) returns (out: Bytes)
      modifies this
      ensures (View(), out) == DeltaOf(old(View()), ev)
    {
      var text, id := ev.text, ev.id;
      if id == "" {
        out := Render(id, text);
        return;
      }
      var previous := if id in delivered then delivered[id] else [];
      if ev.append {
        delivered := delivered[id := previous + text];
        out := Render(id, text);
        return;
      }
      delivered := delivered[id := text];
      var cut := CommonPrefixLen(previous, text);
      out := Render(id, text[cut..]);
    }

    method Render(id: ArtifactID, text: Bytes) returns (out: Bytes)
      modifies this`last, this`tail
      ensures (View(), out) == Rendered(old(View()), id, text)
    {
      out := text;
      if text == [] {
        return;
      }
      if tail != [] && id != last {
        out := ParagraphBreak(tail) + text;
      }
      last, tail := id, Last2(out);
    }
  }

  method CommonPrefixLen(a: Bytes, b: Bytes) returns (i: nat)
    ensures i == Cut(a, b)
  {
    var n := if |a| < |b| then |a| else |b|;
    i := 0;
    while i < n && a[i] == b[i]
      invariant i <= n && a[..i] == b[..i]
    {
      assert a[..i + 1] == a[..i] + [a[i]] && b[..i + 1] == b[..i] + [b[i]];
      i := i + 1;
    }
    CommonPrefixIs(a, b, i);
    ghost var full := i;
    while i > 0 && i < |b| && !RuneStart(b[i])
      invariant i <= full <= |b| && BackOff(b, i) == BackOff(b, full)
    {
      i := i - 1;
    }
  }

  // --- one artifact ----------------------------------------------------------------

  /** An update of one artifact. */
  datatype Update = Update(append: bool, text: Bytes)

  /** What an update makes of the text before it, as the A2A protocol defines it. */
  function Applied(prev: Bytes, u: Update): Bytes { if u.append then prev + u.text else u.text }

  /** The text an update renders. */
  function Piece(prev: Bytes, u: Update): Bytes { if u.append then u.text else u.text[Cut(prev, u.text)..] }

  /** A replace does not extend the text at a point inside a rune. */
  predicate CutAtRune(prev: Bytes, u: Update) {
    u.append || prev == [] || |u.text| <= |prev| || RuneStart(u.text[|prev|])
  }

  function Text(us: seq<Update>): Bytes {
    if us == [] then [] else Applied(Text(us[..|us| - 1]), us[|us| - 1])
  }

  /** Every replace repeats or extends what came before it. */
  predicate Extending(us: seq<Update>) {
    us == [] || (Extending(us[..|us| - 1]) && (us[|us| - 1].append || Text(us[..|us| - 1]) <= us[|us| - 1].text))
  }

  predicate CutsAtRunes(us: seq<Update>) {
    us == [] || (CutsAtRunes(us[..|us| - 1]) && CutAtRune(Text(us[..|us| - 1]), us[|us| - 1]))
  }

  /** The last piece of text the updates rendered. */
  function LastPiece(us: seq<Update>): Bytes {
    if us == [] then []
    else
      var piece := Piece(Text(us[..|us| - 1]), us[|us| - 1]);
      if piece == [] then LastPiece(us[..|us| - 1]) else piece
  }

  function Events(id: ArtifactID, us: seq<Update>): seq<Event> {
    seq(|us|, i requires 0 <= i < |us| => Event(id, us[i].append, us[i].text))
  }

  /** last ends as text does, as far as the paragraph break can see. */
  predicate EndOf(text: Bytes, last: Bytes) {
    && 0 < |last| <= |text| && last[|last| - 1] == text[|text| - 1]
    && (|last| >= 2 ==> last[|last| - 2] == text[|text| - 2])
  }

  /** An update that extends the text renders what it adds, and more of the text
      when the old one ends inside a rune. */
  lemma PieceAdds(prev: Bytes, u: Update)
    requires u.append || prev <= u.text
    ensures var all, piece := Applied(prev, u), Piece(prev, u);
      && prev <= all && |all| - |prev| <= |piece| <= |all|
      && (piece != [] ==> EndOf(all, piece))
      && (piece == all[|prev|..] <==> CutAtRune(prev, u))
      && (piece == [] <==> all == prev)
      && (prev == [] ==> piece == all)
  {
    if !u.append { CommonPrefixIs(prev, u.text, |prev|); }
  }

  lemma {:induction false} PiecesEndText(us: seq<Update>)
    requires Extending(us)
    ensures if Text(us) == [] then LastPiece(us) == [] else EndOf(Text(us), LastPiece(us))
  {
    if us != [] {
      PiecesEndText(us[..|us| - 1]);
      PieceAdds(Text(us[..|us| - 1]), us[|us| - 1]);
    }
  }

  function BreakAfter(tail: Bytes): Bytes { if tail == [] then [] else ParagraphBreak(tail) }

  /** Text joined onto a rendered stream: the whole is b + all just when what was
      rendered before is b + prev and what is rendered now is the rest. */
  lemma Joined(out: Bytes, more: Bytes, b: Bytes, prev: Bytes, all: Bytes)
    requires prev <= all && |out| >= |b| + |prev| && |more| >= |all| - |prev|
    ensures |out + more| >= |b| + |all|
    ensures out + more == b + all <==> out == b + prev && more == all[|prev|..]
  {
    if out + more == b + all {
      assert |out| == |b| + |prev|;
      assert out == (out + more)[..|out|] == (b + all)[..|out|];
      assert more == (out + more)[|out|..] == (b + all)[|out|..];
    }
  }

  lemma {:induction false} ShortTextsCutAtRunes(us: seq<Update>)
    requires Extending(us) && |Text(us)| <= 1
    ensures CutsAtRunes(us)
  {
    if us != [] { ShortTextsCutAtRunes(us[..|us| - 1]); }
  }

  /** A tracker and its output after the updates of one new artifact: its text so
      far, whether every replace cut at a rune, and the last piece rendered. */
  ghost predicate Shown(tr: Tracker, id: ArtifactID, text: Bytes, atRunes: bool, last: Bytes, after: Tracker, out: Bytes) {
    var b := BreakAfter(tr.tail);
    && Before(after, id) == text && (forall k :: k in after.delivered && k != id ==> k in tr.delivered)
    && (text == [] ==> out == [] && after.last == tr.last && after.tail == tr.tail)
    && (text != [] ==>
         && after.last == id && after.tail != [] && |out| >= |b| + |text| && (out == b + text <==> atRunes)
         && Ending(after.tail) == Ending(if last == text then b + text else last))
  }

  /** The first piece is the whole text. */
  lemma FirstIsAll(tr: Tracker, id: ArtifactID, u: Update, prev: Bytes)
    requires id != "" && Before(tr, id) == prev && prev == []
    ensures Applied(prev, u) == u.text && Piece(prev, u) == u.text
    ensures DeltaOf(tr, Event(id, u.append, u.text)) == Rendered(tr.(delivered := tr.delivered[id := u.text]), id, u.text)
  {
    PieceAdds(prev, u);
  }

  lemma RendersFirst(tr: Tracker, id: ArtifactID, text: Bytes, before: Tracker, none: Bytes)
    requires id != tr.last && Shown(tr, id, none, true, none, before, none) && none == []
    ensures var (after, more) := Rendered(before.(delivered := before.delivered[id := text]), id, text);
      Shown(tr, id, text, true, text, after, more)
  {
  }

  lemma FirstPiece(tr: Tracker, id: ArtifactID, u: Update, before: Tracker, prev: Bytes)
    requires id != "" && id != tr.last && Shown(tr, id, prev, true, prev, before, prev) && prev == []
    ensures var (after, more) := DeltaOf(before, Event(id, u.append, u.text));
      Shown(tr, id, u.text, true, u.text, after, more)
  {
    FirstIsAll(before, id, u, prev);
    RendersFirst(tr, id, u.text, before, prev);
  }

  lemma LaterDelta(tr: Tracker, id: ArtifactID, u: Update, prev: Bytes)
    requires id != "" && Before(tr, id) == prev
    ensures DeltaOf(tr, Event(id, u.append, u.text))
         == Rendered(tr.(delivered := tr.delivered[id := Applied(prev, u)]), id, Piece(prev, u))
  {
  }

  lemma LongEnding(b: Bytes, all: Bytes)
    requires |all| >= 2
    ensures Ending(b + all) == Ending(all)
  {
  }

  /** A later piece, given what Joined says of its place in the stream. */
  lemma RendersLater(tr: Tracker, id: ArtifactID, before: Tracker, out: Bytes, prev: Bytes, atRunes: bool, last: Bytes,
                     all: Bytes, piece: Bytes, total: Bytes, whole: bool)
    requires Shown(tr, id, prev, atRunes, last, before, out) && prev != [] && all != []
    requires piece == [] ==> all == prev && total == out && whole == atRunes
    requires piece != [] && piece == all ==> Ending(BreakAfter(tr.tail) + all) == Ending(all)
    requires |total| >= |BreakAfter(tr.tail)| + |all| && (total == BreakAfter(tr.tail) + all <==> whole)
    ensures var (after, more) := Rendered(before.(delivered := before.delivered[id := all]), id, piece);
      more == piece && Shown(tr, id, all, whole, if piece == [] then last else piece, after, total)
  {
  }

  lemma LaterPiece(tr: Tracker, id: ArtifactID, u: Update, before: Tracker, out: Bytes, prev: Bytes, atRunes: bool, last: Bytes)
    requires id != "" && id != tr.last && Shown(tr, id, prev, atRunes, last, before, out) && prev != []
    requires u.append || prev <= u.text
    ensures var (after, more) := DeltaOf(before, Event(id, u.append, u.text)); var piece := Piece(prev, u);
      Shown(tr, id, Applied(prev, u), atRunes && CutAtRune(prev, u), if piece == [] then last else piece, after, out + more)
  {
    var b, piece, all := BreakAfter(tr.tail), Piece(prev, u), Applied(prev, u);
    PieceAdds(prev, u);
    Joined(out, piece, b, prev, all);
    LaterDelta(before, id, u, prev);
    Nothing(out, piece);
    if |all| >= 2 { LongEnding(b, all); }
    RendersLater(tr, id, before, out, prev, atRunes, last, all, piece, out + piece, atRunes && CutAtRune(prev, u));
  }

  /** A further update's part in what the updates come to. */
  lemma UpdateAdds(us: seq<Update>, us0: seq<Update>, u: Update)
    requires us != [] && us0 == us[..|us| - 1] && u == us[|us| - 1]
    ensures var prev := Text(us0); var piece := Piece(prev, u);
      && Text(us) == Applied(prev, u) && CutsAtRunes(us) == (CutsAtRunes(us0) && CutAtRune(prev, u))
      && LastPiece(us) == if piece == [] then LastPiece(us0) else piece
  {
  }

  lemma NextFirst(tr: Tracker, id: ArtifactID, u: Update, before: Tracker, out: Bytes, prev: Bytes, last: Bytes)
    requires id != "" && id != tr.last && prev == [] && last == [] && Shown(tr, id, prev, true, last, before, out)
    ensures var (after, more) := DeltaOf(before, Event(id, u.append, u.text)); var piece := Piece(prev, u);
      && CutAtRune(prev, u)
      && Shown(tr, id, Applied(prev, u), true, if piece == [] then last else piece, after, out + more)
  {
    FirstIsAll(before, id, u, prev);
    FirstPiece(tr, id, u, before, prev);
    NothingFirst(out, DeltaOf(before, Event(id, u.append, u.text)).1);
  }

  lemma NextPiece(tr: Tracker, id: ArtifactID, us: seq<Update>, us0: seq<Update>, u: Update, before: Tracker, out: Bytes,
                  prev: Bytes, atRunes: bool, last: Bytes)
    requires us != [] && us0 == us[..|us| - 1] && u == us[|us| - 1] && id != "" && id != tr.last && Extending(us)
    requires prev == Text(us0) && atRunes == CutsAtRunes(us0) && last == LastPiece(us0)
    requires Shown(tr, id, prev, atRunes, last, before, out)
    ensures var (after, more) := DeltaOf(before, Event(id, u.append, u.text));
      Shown(tr, id, Text(us), CutsAtRunes(us), LastPiece(us), after, out + more)
  {
    UpdateAdds(us, us0, u);
    if prev == [] {
      PiecesEndText(us0);
      ShortTextsCutAtRunes(us0);
      NextFirst(tr, id, u, before, out, prev, last);
    } else {
      LaterPiece(tr, id, u, before, out, prev, atRunes, last);
    }
  }

  lemma NoUpdates(tr: Tracker, id: ArtifactID, us: seq<Update>)
    requires id !in tr.delivered && |us| == 0
    ensures var (after, out) := Stream(tr, Events(id, us));
      Shown(tr, id, Text(us), CutsAtRunes(us), LastPiece(us), after, out)
  {
  }

  lemma LastUpdate(tr: Tracker, id: ArtifactID, us: seq<Update>)
    requires us != []
    ensures var us0, u := us[..|us| - 1], us[|us| - 1];
      var (before, out) := Stream(tr, Events(id, us0));
      var (after, more) := DeltaOf(before, Event(id, u.append, u.text));
      Stream(tr, Events(id, us)) == (after, out + more)
  {
    var us0 := us[..|us| - 1];
    assert Events(id, us)[..|us| - 1] == Events(id, us0);
  }

  /** A new artifact's updates render a paragraph break and then its text: the
      text itself just when no replace extends it inside a rune, and more of it
      otherwise. What the tracker remembers of its end is that of the last piece. */
  lemma {:induction false} ArtifactRenders(tr: Tracker, id: ArtifactID, us: seq<Update>)
    requires id != "" && id !in tr.delivered && id != tr.last && Extending(us)
    ensures var (after, out) := Stream(tr, Events(id, us));
      Shown(tr, id, Text(us), CutsAtRunes(us), LastPiece(us), after, out)
  {
    if |us| == 0 {
      NoUpdates(tr, id, us);
    } else {
      var us0 := us[..|us| - 1];
      ArtifactRenders(tr, id, us0);
      var (before, out) := Stream(tr, Events(id, us0));
      NextPiece(tr, id, us, us0, us[|us| - 1], before, out, Text(us0), CutsAtRunes(us0), LastPiece(us0));
      LastUpdate(tr, id, us);
    }
  }

  // --- the finished task ------------------------------------------------------------

  /** An artifact of a task, with the updates it streamed as. */
  datatype Artifact = Artifact(id: ArtifactID, us: seq<Update>)

  function Streamed(arts: seq<Artifact>): seq<Event> {
    if arts == [] then [] else Events(arts[0].id, arts[0].us) + Streamed(arts[1..])
  }

  /** The finished task's artifacts, each as one replace. */
  function Finished(arts: seq<Artifact>): seq<Event> {
    if arts == [] then [] else [Event(arts[0].id, false, Text(arts[0].us))] + Finished(arts[1..])
  }

  /** taskResultText of the finished task. */
  function ResultText(arts: seq<Artifact>): Bytes { Stream(NOTHING, Finished(arts)).1 }

  /** Addressable artifacts, one after the other, that only grow. */
  ghost predicate Orderly(arts: seq<Artifact>) {
    && (forall i :: 0 <= i < |arts| ==> arts[i].id != "" && Extending(arts[i].us))
    && (forall i, j :: 0 <= i < j < |arts| ==> arts[i].id != arts[j].id)
  }

  predicate AllAtRunes(arts: seq<Artifact>) { forall i :: 0 <= i < |arts| ==> CutsAtRunes(arts[i].us) }

  /** How the stream's and the finished task's rendering stand to each other
      between artifacts: level; the stream's tracker not seeing the second of two
      newlines (Hidden); or the stream a newline ahead, which the other owes (Spent). */
  datatype Balance = Level | Hidden | Spent

  /** The artifact ends in two newlines, the last of which came as a piece of its own. */
  predicate LoneNewline(us: seq<Update>) { LastPiece(us) == [NL] && Ending(Text(us)) == 2 }

  function After(balance: Balance, text: Bytes, last: Bytes): Balance {
    if text == [] then balance
    else if text == [NL] then (if balance.Hidden? then Spent else if balance.Spent? then Hidden else Level)
    else if last == [NL] && Ending(text) == 2 then Hidden else Level
  }

  /** Every newline hidden at an artifact's end is made up for: by nothing
      following, or by artifacts that are a newline and nothing else. */
  predicate Settles(arts: seq<Artifact>, balance: Balance) {
    if arts == [] then !balance.Spent?
    else
      && (balance.Hidden? ==> Text(arts[0].us) in [[], [NL]])
      && Settles(arts[1..], After(balance, Text(arts[0].us), LastPiece(arts[0].us)))
  }

  predicate Stands(balance: Balance, streamed: Bytes, whole: Bytes) {
    match balance
    case Level => (streamed == [] <==> whole == []) && Ending(streamed) == Ending(whole)
    case Hidden => Ending(streamed) == 1 && Ending(whole) == 2
    case Spent => Ending(streamed) == 2 && Ending(whole) == 1
  }

  function Ahead(balance: Balance): Bytes { if balance.Spent? then [NL] else [] }

  ghost predicate Unseen(tr: Tracker, arts: seq<Artifact>) {
    forall i :: 0 <= i < |arts| ==> arts[i].id !in tr.delivered && arts[i].id != tr.last
  }

  /** The finished artifact renders its break and its text, and is seen whole. */
  lemma WholeRenders(tr: Tracker, id: ArtifactID, text: Bytes, none: Bytes)
    requires id != "" && id !in tr.delivered && id != tr.last && none == []
    ensures var (after, out) := DeltaOf(tr, Event(id, false, text));
      && Shown(tr, id, text, true, text, after, out)
      && (text != [] ==> out == BreakAfter(tr.tail) + text)
  {
    FirstPiece(tr, id, Update(false, text), tr, none);
  }

  lemma BalanceAfter(balance: Balance, text: Bytes, last: Bytes, endS: Bytes, endW: Bytes, s: Bytes, w: Bytes)
    requires Stands(balance, endS, endW) && text != [] && s != [] && w != []
    requires EndOf(text, last)
    requires Ending(s) == Ending(if last == text then BreakAfter(endS) + text else last)
    requires Ending(w) == Ending(BreakAfter(endW) + text)
    ensures Stands(After(balance, text, last), s, w)
  {
    if |text| >= 2 {
      assert Ending(BreakAfter(endS) + text) == Ending(text) && Ending(BreakAfter(endW) + text) == Ending(text);
      if |last| >= 2 { assert Ending(last) == Ending(text); }
    } else {
      assert last == text;
    }
  }

  /** Two texts each longer than the other's counterpart join to the same only piecewise. */
  lemma JoinedEqual(x: Bytes, y: Bytes, x': Bytes, y': Bytes)
    requires |x| >= |x'| && |y| >= |y'|
    ensures x + y == x' + y' <==> x == x' && y == y'
  {
    if x + y == x' + y' {
      assert |x| == |x'|;
      assert x == (x + y)[..|x|] == (x' + y')[..|x|] == x';
      assert y == (x + y)[|x|..] == (x' + y')[|x|..] == y';
    }
  }

  /** One artifact's step of the comparison, given the comparison of the rest. */
  lemma Compare(balance: Balance, text: Bytes, last: Bytes, atRunes: bool, bs: Bytes, bw: Bytes,
                outS: Bytes, restS: Bytes, restW: Bytes, rest: bool)
    requires text != [] && (|text| == 1 ==> atRunes)
    requires match balance
      case Level => bs == bw
      case Hidden => bs == [NL] && bw == []
      case Spent => bs == [] && bw == [NL]
    requires |outS| >= |bs| + |text| && (outS == bs + text <==> atRunes)
    requires var next := After(balance, text, last);
      |Ahead(next)| + |restS| >= |restW| && (Ahead(next) + restS == restW <==> rest)
    ensures |Ahead(balance)| + |outS + restS| >= |bw + text + restW|
    ensures Ahead(balance) + (outS + restS) == bw + text + restW <==>
            atRunes && (balance.Hidden? ==> text == [NL]) && rest
  {
    if balance.Hidden? && text == [NL] {
      assert outS + restS == text + ([NL] + restS);
      assert bw + text + restW == text + restW;
      JoinedEqual(text, [NL] + restS, text, restW);
      assert Ahead(balance) + (outS + restS) == outS + restS;
    } else {
      assert [] + restS == restS;
      var x := Ahead(balance) + outS;
      assert Ahead(balance) + (outS + restS) == x + restS;
      if !balance.Hidden? {
        JoinedEqual(x, restS, bw + text, restW);
        assert x == bw + text <==> outS == bs + text by {
          if balance.Spent? { assert x[1..] == outS && (bw + text)[1..] == text && bs + text == text; } else { assert x == outS; }
        }
      }
    }
  }

  lemma RestIsUnseen(arts: seq<Artifact>, tr: Tracker, after: Tracker, text: Bytes, atRunes: bool, last: Bytes, out: Bytes)
    requires arts != [] && Orderly(arts) && Unseen(tr, arts) && Shown(tr, arts[0].id, text, atRunes, last, after, out)
    ensures Unseen(after, arts[1..]) && Orderly(arts[1..])
  {
    var rest := arts[1..];
    forall i | 0 <= i < |rest| ensures rest[i].id !in after.delivered && rest[i].id != after.last
    {
      assert rest[i] == arts[i + 1] && arts[0].id != arts[i + 1].id;
    }
    forall i | 0 <= i < |rest| ensures rest[i].id != "" && Extending(rest[i].us) { assert rest[i] == arts[i + 1]; }
    forall i, j | 0 <= i < j < |rest| ensures rest[i].id != rest[j].id { assert arts[i + 1].id != arts[j + 1].id; }
  }

  /** What one rendering of the artifacts is to the other, from balance on. */
  ghost predicate Compared(balance: Balance, arts: seq<Artifact>, out: Bytes, whole: Bytes) {
    && |Ahead(balance)| + |out| >= |whole|
    && (Ahead(balance) + out == whole <==> AllAtRunes(arts) && Settles(arts, balance))
  }

  lemma FirstStreamed(tr: Tracker, arts: seq<Artifact>)
    requires arts != []
    ensures var first := Stream(tr, Events(arts[0].id, arts[0].us));
      Stream(tr, Streamed(arts)).1 == first.1 + Stream(first.0, Streamed(arts[1..])).1
  {
    FoldJoins(DeltaOf, tr, Events(arts[0].id, arts[0].us), Streamed(arts[1..]));
  }

  lemma FirstFinished(tr: Tracker, arts: seq<Artifact>)
    requires arts != []
    ensures var first := DeltaOf(tr, Event(arts[0].id, false, Text(arts[0].us)));
      Stream(tr, Finished(arts)).1 == first.1 + Stream(first.0, Finished(arts[1..])).1
  {
    var whole := Event(arts[0].id, false, Text(arts[0].us));
    FoldJoins(DeltaOf, tr, [whole], Finished(arts[1..]));
    FoldOne(DeltaOf, tr, whole);
  }

  /** The first artifact, both ways. */
  lemma FirstArtifact(trS: Tracker, trW: Tracker, balance: Balance, arts: seq<Artifact>)
    returns (s: Tracker, w: Tracker, next: Balance, outS: Bytes, outW: Bytes)
    requires arts != [] && Orderly(arts) && Unseen(trS, arts) && Unseen(trW, arts) && Stands(balance, trS.tail, trW.tail)
    ensures (s, outS) == Stream(trS, Events(arts[0].id, arts[0].us))
    ensures (w, outW) == DeltaOf(trW, Event(arts[0].id, false, Text(arts[0].us)))
    ensures next == After(balance, Text(arts[0].us), LastPiece(arts[0].us)) && Stands(next, s.tail, w.tail)
    ensures Unseen(s, arts[1..]) && Unseen(w, arts[1..]) && Orderly(arts[1..])
    ensures var text, b := Text(arts[0].us), BreakAfter(trS.tail);
      if text == [] then outS == [] && outW == [] else
      && |outS| >= |b| + |text| && (outS == b + text <==> CutsAtRunes(arts[0].us))
      && outW == BreakAfter(trW.tail) + text
  {
    var id, us := arts[0].id, arts[0].us;
    var text, last := Text(us), LastPiece(us);
    next := After(balance, text, last);
    ArtifactRenders(trS, id, us);
    WholeRenders(trW, id, text, text[..0]);
    PiecesEndText(us);
    s, outS := Stream(trS, Events(id, us)).0, Stream(trS, Events(id, us)).1;
    w, outW := DeltaOf(trW, Event(id, false, text)).0, DeltaOf(trW, Event(id, false, text)).1;
    RestIsUnseen(arts, trS, s, text, CutsAtRunes(us), last, outS);
    RestIsUnseen(arts, trW, w, text, true, text, outW);
    if text != [] { BalanceAfter(balance, text, last, trS.tail, trW.tail, s.tail, w.tail); }
  }

  lemma AllAtRunesSplits(arts: seq<Artifact>)
    requires arts != []
    ensures AllAtRunes(arts) <==> CutsAtRunes(arts[0].us) && AllAtRunes(arts[1..])
  {
    assert arts == [arts[0]] + arts[1..];
  }

  lemma CompareFirst(balance: Balance, arts: seq<Artifact>, bs: Bytes, bw: Bytes, outS: Bytes, outW: Bytes, restS: Bytes, restW: Bytes)
    requires arts != [] && Extending(arts[0].us)
    requires match balance
      case Level => bs == bw
      case Hidden => bs == [NL] && bw == []
      case Spent => bs == [] && bw == [NL]
    requires var text := Text(arts[0].us);
      if text == [] then outS == [] && outW == [] else
      && |outS| >= |bs| + |text| && (outS == bs + text <==> CutsAtRunes(arts[0].us)) && outW == bw + text
    requires Compared(After(balance, Text(arts[0].us), LastPiece(arts[0].us)), arts[1..], restS, restW)
    ensures Compared(balance, arts, outS + restS, outW + restW)
  {
    var us, rest, text := arts[0].us, arts[1..], Text(arts[0].us);
    var next := After(balance, text, LastPiece(us));
    AllAtRunesSplits(arts);
    if |text| <= 1 { ShortTextsCutAtRunes(us); }
    if text == [] {
      assert outS + restS == restS && outW + restW == restW;
    } else {
      Compare(balance, text, LastPiece(us), CutsAtRunes(us), bs, bw, outS, restS, restW, AllAtRunes(rest) && Settles(rest, next));
    }
  }

  lemma NoArtifacts(trS: Tracker, trW: Tracker, balance: Balance, arts: seq<Artifact>)
    requires |arts| == 0
    ensures Compared(balance, arts, Stream(trS, Streamed(arts)).1, Stream(trW, Finished(arts)).1)
  {
  }

  /** The first artifact's two renderings, and what follows them. */
  lemma SplitFirst(trS: Tracker, trW: Tracker, balance: Balance, arts: seq<Artifact>)
    returns (s: Tracker, w: Tracker, outS: Bytes, outW: Bytes)
    requires arts != [] && Orderly(arts) && Unseen(trS, arts) && Unseen(trW, arts) && Stands(balance, trS.tail, trW.tail)
    ensures Stream(trS, Streamed(arts)).1 == outS + Stream(s, Streamed(arts[1..])).1
    ensures Stream(trW, Finished(arts)).1 == outW + Stream(w, Finished(arts[1..])).1
    ensures Stands(After(balance, Text(arts[0].us), LastPiece(arts[0].us)), s.tail, w.tail)
    ensures Unseen(s, arts[1..]) && Unseen(w, arts[1..]) && Orderly(arts[1..])
    ensures var text, b := Text(arts[0].us), BreakAfter(trS.tail);
      if text == [] then outS == [] && outW == [] else
      && |outS| >= |b| + |text| && (outS == b + text <==> CutsAtRunes(arts[0].us))
      && outW == BreakAfter(trW.tail) + text
  {
    var next;
    s, w, next, outS, outW := FirstArtifact(trS, trW, balance, arts);
    FirstStreamed(trS, arts);
    FirstFinished(trW, arts);
  }

  lemma {:induction false} StreamAgainstWhole(trS: Tracker, trW: Tracker, balance: Balance, arts: seq<Artifact>)
    requires Orderly(arts) && Unseen(trS, arts) && Unseen(trW, arts) && Stands(balance, trS.tail, trW.tail)
    ensures Compared(balance, arts, Stream(trS, Streamed(arts)).1, Stream(trW, Finished(arts)).1)
    decreases |arts|
  {
    if |arts| == 0 {
      NoArtifacts(trS, trW, balance, arts);
    } else {
      var s, w, outS, outW := SplitFirst(trS, trW, balance, arts);
      StreamAgainstWhole(s, w, After(balance, Text(arts[0].us), LastPiece(arts[0].us)), arts[1..]);
      CompareFirst(balance, arts, BreakAfter(trS.tail), BreakAfter(trW.tail), outS, outW,
                   Stream(s, Streamed(arts[1..])).1, Stream(w, Finished(arts[1..])).1);
    }
  }

  /** Streaming equals rendering whole: what was streamed of a task's artifacts,
      however chunked, is the finished task's text byte for byte exactly when no
      replace extends its artifact inside a rune and no newline stays hidden at
      an artifact's end from the paragraph break after it. */
  lemma StreamEqualsWhole(arts: seq<Artifact>)
    requires Orderly(arts)
    ensures Stream(NOTHING, Streamed(arts)).1 == ResultText(arts) <==> AllAtRunes(arts) && Settles(arts, Level)
    ensures |Stream(NOTHING, Streamed(arts)).1| >= |ResultText(arts)|
  {
    StreamAgainstWhole(NOTHING, NOTHING, Level, arts);
    assert [] + Stream(NOTHING, Streamed(arts)).1 == Stream(NOTHING, Streamed(arts)).1;
  }

  /** Nothing is hidden where no artifact ends in two newlines with the last a piece of its own. */
  lemma {:induction false} PlainEndsSettle(arts: seq<Artifact>)
    requires forall i :: 0 <= i < |arts| ==> !LoneNewline(arts[i].us)
    ensures Settles(arts, Level)
  {
    if arts != [] {
      PlainEndsSettle(arts[1..]);
      assert !LoneNewline(arts[0].us);
    }
  }

  lemma {:induction false} AppendsCutAtRunes(us: seq<Update>)
    requires forall i :: 0 <= i < |us| ==> us[i].append
    ensures Extending(us) && CutsAtRunes(us)
  {
    if |us| > 0 { AppendsCutAtRunes(us[..|us| - 1]); }
  }

  lemma TwoAppends(us: seq<Update>, a: Bytes, b: Bytes)
    requires us == [Update(true, a), Update(true, b)] && b != []
    ensures Text(us) == a + b && LastPiece(us) == b
  {
    var us1 := us[..|us| - 1];
    assert Text(us1) == a by { assert Text(us1[..|us1| - 1]) + us1[0].text == us1[0].text; }
  }

  /** Settles is needed: an artifact whose last newline comes alone is followed
      by a newline more than the finished task's text has. */
  lemma HiddenNewlineIsRepeated(arts: seq<Artifact>, x: Byte, rest: seq<Update>)
    requires x != NL && |Text(rest)| > 1 && Extending(rest)
    requires arts == [Artifact("a", [Update(true, [x, NL]), Update(true, [NL])]), Artifact("b", rest)]
    ensures Stream(NOTHING, Streamed(arts)).1 != ResultText(arts)
  {
    var us := arts[0].us;
    AppendsCutAtRunes(us);
    TwoAppends(us, [x, NL], [NL]);
    assert arts[1..][0] == arts[1];
    assert "a"[0] != "b"[0];
    assert !Settles(arts[1..], After(Level, Text(us), LastPiece(us)));
    StreamEqualsWhole(arts);
  }

  // --- the whole task after its stream --------------------------------------------------

  /** The updates of artifact id among evs. */
  function UpdatesOf(evs: seq<Event>, id: ArtifactID): seq<Update> {
    if evs == [] then []
    else
      var ev := evs[|evs| - 1];
      UpdatesOf(evs[..|evs| - 1], id) + if ev.id == id then [Update(ev.append, ev.text)] else []
  }

  /** Whatever the order of the updates, the tracker holds each artifact's text. */
  lemma {:induction false} DeliveredIsText(evs: seq<Event>, id: ArtifactID)
    requires id != ""
    ensures Before(Stream(NOTHING, evs).0, id) == Text(UpdatesOf(evs, id))
  {
    if |evs| > 0 {
      var n := |evs| - 1;
      DeliveredIsText(evs[..n], id);
      var us, us0 := UpdatesOf(evs, id), UpdatesOf(evs[..n], id);
      if evs[n].id == id { assert us[..|us| - 1] == us0; } else { assert us == us0; }
    }
  }

  /** Replacing an artifact's text by itself renders nothing. */
  lemma RepeatRendersNothing(tr: Tracker, id: ArtifactID, text: Bytes)
    requires id != "" && Before(tr, id) == text
    ensures var (after, out) := DeltaOf(tr, Event(id, false, text));
      out == [] && (forall k :: Before(after, k) == Before(tr, k))
  {
    CommonPrefixIs(text, text, |text|);
  }

  lemma {:induction false} RepeatsRenderNothing(tr: Tracker, whole: seq<Event>)
    requires forall i :: 0 <= i < |whole| ==>
      whole[i].id != "" && !whole[i].append && whole[i].text == Before(tr, whole[i].id)
    ensures Stream(tr, whole).1 == [] && forall k :: Before(Stream(tr, whole).0, k) == Before(tr, k)
  {
    if |whole| > 0 {
      var n := |whole| - 1;
      RepeatsRenderNothing(tr, whole[..n]);
      RepeatRendersNothing(Stream(tr, whole[..n]).0, whole[n].id, whole[n].text);
    }
  }

  /** A finished task that arrives whole after its updates were streamed, in any
      order and with any replaces, adds nothing. */
  lemma WholeAfterStreamAddsNothing(evs: seq<Event>, whole: seq<Event>)
    requires forall i :: 0 <= i < |whole| ==>
      whole[i].id != "" && !whole[i].append && whole[i].text == Text(UpdatesOf(evs, whole[i].id))
    ensures Stream(NOTHING, evs + whole).1 == Stream(NOTHING, evs).1
  {
    var tr := Stream(NOTHING, evs).0;
    forall i | 0 <= i < |whole| ensures whole[i].text == Before(tr, whole[i].id) {
      DeliveredIsText(evs, whole[i].id);
    }
    RepeatsRenderNothing(tr, whole);
    FoldJoins(DeltaOf, NOTHING, evs, whole);
  }
}
