/** What is left of a finished task that arrives whole after some of its updates:
    the tracker cuts off what it takes to have been rendered, and opens with a
    paragraph break of its own. */
module LateJoin {
  import opened LinkModel
  import opened Streaming

  /** Nothing but newlines. */
  predicate Blank(s: Bytes) { forall i :: 0 <= i < |s| ==> s[i] == NL }

  /** How many bytes of s are no newlines. */
  function Letters(s: Bytes): nat {
    if s == [] then 0 else (if s[0] == NL then 0 else 1) + Letters(s[1..])
  }

  /** How many newlines s opens with. */
  function Opens(s: Bytes): (n: nat)
    ensures n <= |s|
  {
    if s == [] || s[0] != NL then 0 else 1 + Opens(s[1..])
  }

  lemma {:induction false} OpensIs(s: Bytes)
    ensures Blank(s[..Opens(s)]) && (Opens(s) < |s| ==> s[Opens(s)] != NL)
  {
    if s != [] && s[0] == NL {
      OpensIs(s[1..]);
      assert s[..Opens(s)] == [NL] + s[1..][..Opens(s[1..])];
    }
  }

  lemma {:induction false} LettersJoin(a: Bytes, b: Bytes)
    ensures Letters(a + b) == Letters(a) + Letters(b)
    decreases |a|
  {
    if |a| == 0 {
      assert a + b == b;
    } else {
      LettersJoin(a[1..], b);
      assert (a + b)[1..] == a[1..] + b;
    }
  }

  lemma {:induction false} BlankHasNoLetters(s: Bytes)
    ensures Letters(s) == 0 <==> Blank(s)
  {
    if |s| > 0 {
      BlankHasNoLetters(s[1..]);
      assert s == [s[0]] + s[1..];
      assert Blank(s) <==> s[0] == NL && Blank(s[1..]);
    }
  }

  /** Where the first byte that is no newline stands. */
  lemma OpensAt(s: Bytes, n: nat)
    requires n <= |s| && Blank(s[..n]) && (n < |s| ==> s[n] != NL)
    ensures Opens(s) == n
  {
    var m := Opens(s);
    OpensIs(s);
    assert forall i :: 0 <= i < n ==> s[i] == s[..n][i];
    assert forall i :: 0 <= i < m ==> s[i] == s[..m][i];
  }

  /** out is what is left of text, behind newlines. */
  predicate LeftOf(text: Bytes, cut: nat, newlines: Bytes, out: Bytes) {
    cut <= |text| && Blank(newlines) && out == newlines + text[cut..]
  }

  lemma LettersLeft(text: Bytes, cut: nat, newlines: Bytes, out: Bytes)
    requires LeftOf(text, cut, newlines, out)
    ensures Letters(text) == Letters(text[..cut]) + Letters(out)
  {
    assert text == text[..cut] + text[cut..];
    LettersJoin(text[..cut], text[cut..]);
    LettersJoin(newlines, text[cut..]);
    BlankHasNoLetters(newlines);
  }

  // --- one artifact ------------------------------------------------------------------------

  /** What the tracker cuts off an artifact that arrives whole. */
  function CutOff(tr: Tracker, ev: Event): (n: nat)
    ensures n <= |ev.text|
  {
    if ev.id == "" then 0 else Cut(Before(tr, ev.id), ev.text)
  }

  /** The paragraph break it would put in front. */
  function Front(tr: Tracker, ev: Event): (b: Bytes)
    ensures Blank(b) && |b| <= 2
  {
    if tr.tail != [] && ev.id != tr.last then ParagraphBreak(tr.tail) else []
  }

  lemma WholeLeaves(tr: Tracker, ev: Event)
    requires !ev.append
    ensures var (after, out) := DeltaOf(tr, ev); var cut := CutOff(tr, ev);
      && out == (if cut == |ev.text| then [] else Front(tr, ev) + ev.text[cut..])
      && LeftOf(ev.text, cut, if cut == |ev.text| then [] else Front(tr, ev), out)
      && after.delivered == (if ev.id == "" then tr.delivered else tr.delivered[ev.id := ev.text])
      && (out == [] ==> after.last == tr.last && after.tail == tr.tail)
      && (out != [] ==> after.last == ev.id && after.tail == Last2(out))
  {
    assert ev.text[0..] == ev.text;
    NothingFirst(Front(tr, ev), ev.text[CutOff(tr, ev)..]);
  }

  /** What f remembers of an artifact, r does. */
  ghost predicate KnowsNoLess(r: Tracker, f: Tracker) {
    forall id :: Before(f, id) == [] || Before(f, id) == Before(r, id)
  }

  lemma NothingSeenNothingCut(text: Bytes)
    ensures Cut([], text) == 0
  {
    CommonPrefixIs([], text, 0);
  }

  lemma LettersOut(tr: Tracker, ev: Event)
    requires !ev.append
    ensures Letters(ev.text) == Letters(ev.text[..CutOff(tr, ev)]) + Letters(DeltaOf(tr, ev).1)
  {
    var cut := CutOff(tr, ev);
    WholeLeaves(tr, ev);
    LettersLeft(ev.text, cut, if cut == |ev.text| then [] else Front(tr, ev), DeltaOf(tr, ev).1);
  }

  lemma MoreIsCut(text: Bytes, less: nat, more: nat)
    requires less <= more <= |text|
    ensures Letters(text[..less]) <= Letters(text[..more])
  {
    assert text[..more] == text[..less] + text[less..more];
    LettersJoin(text[..less], text[less..more]);
  }

  lemma StillKnowsNoLess(r: Tracker, f: Tracker, ev: Event)
    requires KnowsNoLess(r, f) && !ev.append
    ensures KnowsNoLess(DeltaOf(r, ev).0, DeltaOf(f, ev).0)
  {
    WholeLeaves(r, ev);
    WholeLeaves(f, ev);
    var r1, f1 := DeltaOf(r, ev).0, DeltaOf(f, ev).0;
    forall id ensures Before(f1, id) == [] || Before(f1, id) == Before(r1, id) {
      assert Before(f, id) == [] || Before(f, id) == Before(r, id);
    }
  }

  /** Of one artifact arriving whole, the tracker that knows more leaves less. */
  lemma LeavesLess(r: Tracker, f: Tracker, ev: Event)
    requires KnowsNoLess(r, f) && !ev.append
    ensures CutOff(f, ev) <= CutOff(r, ev)
    ensures Letters(DeltaOf(r, ev).1) <= Letters(DeltaOf(f, ev).1)
  {
    NothingSeenNothingCut(ev.text);
    LettersOut(r, ev);
    LettersOut(f, ev);
    MoreIsCut(ev.text, CutOff(f, ev), CutOff(r, ev));
  }

  // --- all artifacts -------------------------------------------------------------------------

  predicate Wholes(evs: seq<Event>)
    decreases |evs|
  {
    evs == [] || (!evs[0].append && Wholes(evs[1..]))
  }

  /** Of the finished artifacts, the letters cut off. */
  function LettersCut(tr: Tracker, whole: seq<Event>): nat
    decreases |whole|
  {
    if whole == [] then 0
    else Letters(whole[0].text[..CutOff(tr, whole[0])]) + LettersCut(DeltaOf(tr, whole[0]).0, whole[1..])
  }

  function LettersOf(whole: seq<Event>): nat
    decreases |whole|
  {
    if whole == [] then 0 else Letters(whole[0].text) + LettersOf(whole[1..])
  }

  /** What tr renders of the task, artifact by artifact. */
  function Left(tr: Tracker, whole: seq<Event>): Bytes
    decreases |whole|
  {
    if whole == [] then [] else DeltaOf(tr, whole[0]).1 + Left(DeltaOf(tr, whole[0]).0, whole[1..])
  }

  lemma {:induction false} LeftIsStreamed(tr: Tracker, whole: seq<Event>)
    ensures Left(tr, whole) == Stream(tr, whole).1
    decreases |whole|
  {
    if |whole| > 0 {
      LeftIsStreamed(DeltaOf(tr, whole[0]).0, whole[1..]);
      StreamFirst(tr, whole);
    }
  }

  lemma StreamFirst(tr: Tracker, evs: seq<Event>)
    requires evs != []
    ensures Stream(tr, evs).1 == DeltaOf(tr, evs[0]).1 + Stream(DeltaOf(tr, evs[0]).0, evs[1..]).1
  {
    assert evs == [evs[0]] + evs[1..];
    FoldJoins(DeltaOf, tr, [evs[0]], evs[1..]);
    FoldOne(DeltaOf, tr, evs[0]);
  }

  /** Every letter of the task is rendered or was cut off, each once. */
  lemma {:induction false} LettersAreKeptOrCut(tr: Tracker, whole: seq<Event>)
    requires Wholes(whole)
    ensures Letters(Left(tr, whole)) + LettersCut(tr, whole) == LettersOf(whole)
    decreases |whole|
  {
    if |whole| > 0 {
      var (after, out) := DeltaOf(tr, whole[0]);
      LettersOut(tr, whole[0]);
      LettersAreKeptOrCut(after, whole[1..]);
      LettersJoin(out, Left(after, whole[1..]));
    }
  }

  lemma {:induction false} RendersLess(r: Tracker, f: Tracker, whole: seq<Event>)
    requires KnowsNoLess(r, f) && Wholes(whole)
    ensures Letters(Left(r, whole)) <= Letters(Left(f, whole))
    decreases |whole|
  {
    if |whole| > 0 {
      var (r1, outR) := DeltaOf(r, whole[0]);
      var (f1, outF) := DeltaOf(f, whole[0]);
      LeavesLess(r, f, whole[0]);
      StillKnowsNoLess(r, f, whole[0]);
      RendersLess(r1, f1, whole[1..]);
      LettersJoin(outR, Left(r1, whole[1..]));
      LettersJoin(outF, Left(f1, whole[1..]));
    }
  }

  /** How many newlines r has had more than f since the last letter, behind one
      artifact's outputs; none when r loses a letter or has other newlines in front. */
  function Carried(ahead: int, outR: Bytes, outF: Bytes): Option<int> {
    if Letters(outF) == 0 then Some(ahead + |outR| - |outF|)
    else if Letters(outR) == Letters(outF) && ahead + Opens(outR) == Opens(outF) then Some(0)
    else None
  }

  /** By counting alone: r renders every letter of the task that f renders, and as
      many newlines in front of each artifact's first and at the end. */
  predicate ComesOutEven(r: Tracker, f: Tracker, ahead: int, whole: seq<Event>)
    decreases |whole|
  {
    if whole == [] then ahead == 0
    else
      var next := Carried(ahead, DeltaOf(r, whole[0]).1, DeltaOf(f, whole[0]).1);
      next.Some? && ComesOutEven(DeltaOf(r, whole[0]).0, DeltaOf(f, whole[0]).0, next.value, whole[1..])
  }

  lemma OpensBehind(newlines: Bytes, s: Bytes)
    requires Blank(newlines) && !Blank(s)
    ensures Opens(s) < |s| && s[Opens(s)] != NL && Opens(newlines + s) == |newlines| + Opens(s)
  {
    var o := Opens(s);
    OpensIs(s);
    assert s[..|s|] == s;
    assert (newlines + s)[..|newlines| + o] == newlines + s[..o];
    assert (newlines + s)[|newlines| + o] == s[o];
    OpensAt(newlines + s, |newlines| + o);
  }

  lemma Line(x: Bytes, n: Bytes, s: Bytes, o: nat, rest: Bytes)
    requires Blank(x) && Blank(n) && o <= |s| && Blank(s[..o])
    ensures Blank(x + n + s[..o]) && x + (n + s) + rest == x + n + s[..o] + (s[o..] + rest)
  {
    assert s == s[..o] + s[o..];
    Regroup(x + n, s[..o], s[o..]);
    Regroup(x, n, s);
    Regroup(x + n + s[..o], s[o..], rest);
  }

  lemma BehindNewlines(a: Bytes, b: Bytes, t: Bytes, u: Bytes)
    requires Blank(a) && Blank(b) && t != [] && u != [] && t[0] != NL && u[0] != NL
    ensures a + t == b + u <==> |a| == |b| && t == u
  {
    if a + t == b + u {
      assert (a + t)[..|a|] == a && (a + t)[|a|] == t[0];
      assert (b + u)[..|b|] == b && (b + u)[|b|] == u[0];
      OpensAt(a + t, |a|);
      OpensAt(b + u, |b|);
      SplitsAlike(a, t, b, u);
    }
  }

  lemma SplitsAlike(a: Bytes, b: Bytes, c: Bytes, d: Bytes)
    requires a + b == c + d && |a| == |c|
    ensures a == c && b == d
  {
    assert a == (a + b)[..|a|] && b == (a + b)[|a|..];
    assert c == (c + d)[..|c|] && d == (c + d)[|c|..];
  }

  lemma BlanksEqual(a: Bytes, b: Bytes)
    requires Blank(a) && Blank(b) && |a| == |b|
    ensures a == b
  {
  }

  /** The same text behind newlines and before what comes after. */
  lemma SameText(x: Bytes, y: Bytes, n: Bytes, m: Bytes, s: Bytes, restR: Bytes, restF: Bytes)
    requires Blank(x) && Blank(y) && Blank(n) && Blank(m) && !Blank(s)
    ensures x + (n + s) + restR == y + (m + s) + restF <==> |x| + Opens(n + s) == |y| + Opens(m + s) && restR == restF
  {
    OpensBehind(n, s);
    OpensBehind(m, s);
    OpensIs(s);
    Line(x, n, s, Opens(s), restR);
    Line(y, m, s, Opens(s), restF);
    var core := s[Opens(s)..];
    var leadR, leadF := x + n + s[..Opens(s)], y + m + s[..Opens(s)];
    BehindNewlines(leadR, leadF, core + restR, core + restF);
    if core + restR == core + restF { SplitsAlike(core, restR, core, restF); }
    if |leadR| == |leadF| { BlanksEqual(leadR, leadF); }
  }

  lemma LettersAround(x: Bytes, out: Bytes, rest: Bytes)
    requires Blank(x)
    ensures Letters(x + out + rest) == Letters(out) + Letters(rest)
  {
    LettersJoin(x + out, rest);
    LettersJoin(x, out);
    BlankHasNoLetters(x);
  }

  /** Two outputs of one artifact, the one without the letters cut, behind the
      newlines before them and with what comes after: the texts are the same
      exactly when none is missing, the first letters stand at the same place,
      and the rest is the same. */
  lemma Alongside(x: Bytes, y: Bytes, n: Bytes, m: Bytes, cut: Bytes, s: Bytes, restR: Bytes, restF: Bytes)
    requires Blank(x) && Blank(y) && Blank(n) && Blank(m)
    requires Letters(m + (cut + s)) > 0 && Letters(restR) <= Letters(restF)
    ensures x + (n + s) + restR == y + (m + (cut + s)) + restF <==>
      Letters(n + s) == Letters(m + (cut + s)) && |x| + Opens(n + s) == |y| + Opens(m + (cut + s)) && restR == restF
  {
    LettersAround(x, n + s, restR);
    LettersAround(y, m + (cut + s), restF);
    LettersLost(n, m, cut, s);
    if Letters(n + s) == Letters(m + (cut + s)) {
      BlankHasNoLetters(cut);
      BlankHasNoLetters(s);
      Regroup(m, cut, s);
      SameText(x, y, n, m + cut, s, restR, restF);
    }
  }

  lemma LettersLost(n: Bytes, m: Bytes, cut: Bytes, s: Bytes)
    requires Blank(n) && Blank(m)
    ensures Letters(n + s) == Letters(s) && Letters(m + (cut + s)) == Letters(cut) + Letters(s)
  {
    LettersJoin(n, s);
    LettersJoin(m, cut + s);
    LettersJoin(cut, s);
    BlankHasNoLetters(n);
    BlankHasNoLetters(m);
  }

  lemma WholeOut(tr: Tracker, ev: Event) returns (n: Bytes)
    requires !ev.append
    ensures Blank(n) && DeltaOf(tr, ev).1 == n + ev.text[CutOff(tr, ev)..]
  {
    WholeLeaves(tr, ev);
    n := if CutOff(tr, ev) == |ev.text| then [] else Front(tr, ev);
  }

  lemma Slices(text: Bytes, i: nat, j: nat)
    requires i <= j <= |text|
    ensures text[i..] == text[i..j] + text[j..]
  {
  }

  /** What the two leave of one artifact: the same text, with more of it in front
      where f renders it, each behind newlines. */
  lemma Leavings(r: Tracker, f: Tracker, ev: Event) returns (n: Bytes, m: Bytes, cut: Bytes, s: Bytes)
    requires KnowsNoLess(r, f) && !ev.append
    ensures Blank(n) && Blank(m) && DeltaOf(r, ev).1 == n + s && DeltaOf(f, ev).1 == m + (cut + s)
  {
    LeavesLess(r, f, ev);
    n := WholeOut(r, ev);
    m := WholeOut(f, ev);
    Slices(ev.text, CutOff(f, ev), CutOff(r, ev));
    cut, s := ev.text[CutOff(f, ev)..CutOff(r, ev)], ev.text[CutOff(r, ev)..];
  }

  lemma FirstOfBoth(x: Bytes, y: Bytes, outR: Bytes, outF: Bytes, restR: Bytes, restF: Bytes)
    requires Blank(x) && Blank(y) && Leaves(outR, outF) && Letters(restR) <= Letters(restF)
    ensures if Letters(outF) == 0 then Blank(x + outR) && Blank(y + outF)
      else x + outR + restR == y + outF + restF <==>
        Letters(outR) == Letters(outF) && |x| + Opens(outR) == |y| + Opens(outF) && restR == restF
  {
    var n: Bytes, m: Bytes, cut: Bytes, s: Bytes :| LeavesBehind(outR, outF, n, m, cut, s);
    if Letters(outF) == 0 {
      LettersLost(n, m, cut, s);
      BlankHasNoLetters(outR);
      BlankHasNoLetters(outF);
    } else {
      Alongside(x, y, n, m, cut, s, restR, restF);
    }
  }

  lemma EvenNext(r: Tracker, f: Tracker, ahead: int, whole: seq<Event>, next: Option<int>, r1: Tracker, f1: Tracker, rest: seq<Event>)
    requires whole != [] && next == Carried(ahead, DeltaOf(r, whole[0]).1, DeltaOf(f, whole[0]).1)
    requires r1 == DeltaOf(r, whole[0]).0 && f1 == DeltaOf(f, whole[0]).0 && rest == whole[1..]
    ensures ComesOutEven(r, f, ahead, whole) <==> next.Some? && ComesOutEven(r1, f1, next.value, rest)
  {
  }

  /** The texts past the first artifact: behind the newlines still to be compared. */
  lemma Past(x: Bytes, y: Bytes, outR: Bytes, outF: Bytes, restR: Bytes, restF: Bytes) returns (x1: Bytes, y1: Bytes)
    requires Blank(x) && Blank(y)
    requires if Letters(outF) == 0 then Blank(x + outR) && Blank(y + outF)
      else x + outR + restR == y + outF + restF <==>
        Letters(outR) == Letters(outF) && |x| + Opens(outR) == |y| + Opens(outF) && restR == restF
    ensures var next := Carried(|x| - |y|, outR, outF);
      && Blank(x1) && Blank(y1) && (next.Some? ==> |x1| - |y1| == next.value)
      && (x + outR + restR == y + outF + restF <==> next.Some? && x1 + restR == y1 + restF)
  {
    if Letters(outF) == 0 {
      x1, y1 := x + outR, y + outF;
    } else {
      x1, y1 := x[..0], y[..0];
      NothingFirst(x1, restR);
      NothingFirst(y1, restF);
    }
  }

  /** The two render the same text behind x and y. */
  ghost predicate Alike(r: Tracker, f: Tracker, x: Bytes, y: Bytes, whole: seq<Event>) {
    x + Left(r, whole) == y + Left(f, whole)
  }

  lemma LeftFirst(tr: Tracker, whole: seq<Event>, after: Tracker, out: Bytes, rest: seq<Event>)
    requires whole != [] && (after, out) == DeltaOf(tr, whole[0]) && rest == whole[1..]
    ensures Left(tr, whole) == out + Left(after, rest)
  {
  }

  lemma LeavesOne(r: Tracker, f: Tracker, ev: Event)
    requires KnowsNoLess(r, f) && !ev.append
    ensures Leaves(DeltaOf(r, ev).1, DeltaOf(f, ev).1)
  {
    var n, m, cut, s := Leavings(r, f, ev);
    assert LeavesBehind(DeltaOf(r, ev).1, DeltaOf(f, ev).1, n, m, cut, s);
  }

  /** The first artifact's outputs, and what follows them. */
  lemma Outputs(r: Tracker, f: Tracker, ahead: int, whole: seq<Event>)
    returns (r1: Tracker, f1: Tracker, outR: Bytes, outF: Bytes, rest: seq<Event>, next: Option<int>)
    requires whole != [] && KnowsNoLess(r, f) && Wholes(whole)
    ensures |rest| < |whole| && Wholes(rest) && KnowsNoLess(r1, f1)
    ensures Letters(Left(r1, rest)) <= Letters(Left(f1, rest))
    ensures Left(r, whole) == outR + Left(r1, rest) && Left(f, whole) == outF + Left(f1, rest)
    ensures Leaves(outR, outF) && next == Carried(ahead, outR, outF)
    ensures ComesOutEven(r, f, ahead, whole) <==> next.Some? && ComesOutEven(r1, f1, next.value, rest)
  {
    r1, outR := DeltaOf(r, whole[0]).0, DeltaOf(r, whole[0]).1;
    f1, outF := DeltaOf(f, whole[0]).0, DeltaOf(f, whole[0]).1;
    rest, next := whole[1..], Carried(ahead, outR, outF);
    StillKnowsNoLess(r, f, whole[0]);
    RendersLess(r1, f1, rest);
    LeavesOne(r, f, whole[0]);
    LeftFirst(r, whole, r1, outR, rest);
    LeftFirst(f, whole, f1, outF, rest);
    EvenNext(r, f, ahead, whole, next, r1, f1, rest);
  }

  predicate LeavesBehind(outR: Bytes, outF: Bytes, n: Bytes, m: Bytes, cut: Bytes, s: Bytes) {
    Blank(n) && Blank(m) && outR == n + s && outF == m + (cut + s)
  }

  /** Of one artifact the first leaves no more than the second. */
  ghost predicate Leaves(outR: Bytes, outF: Bytes) {
    exists n: Bytes, m: Bytes, cut: Bytes, s: Bytes :: LeavesBehind(outR, outF, n, m, cut, s)
  }

  lemma OneStep(x: Bytes, y: Bytes, outR: Bytes, outF: Bytes, restR: Bytes, restF: Bytes, next: Option<int>)
    returns (x1: Bytes, y1: Bytes)
    requires Blank(x) && Blank(y) && Leaves(outR, outF) && Letters(restR) <= Letters(restF)
    requires next == Carried(|x| - |y|, outR, outF)
    ensures Blank(x1) && Blank(y1) && (next.Some? ==> next.value == |x1| - |y1|)
    ensures x + (outR + restR) == y + (outF + restF) <==> next.Some? && x1 + restR == y1 + restF
  {
    FirstOfBoth(x, y, outR, outF, restR, restF);
    Regroup(x, outR, restR);
    Regroup(y, outF, restF);
    x1, y1 := Past(x, y, outR, outF, restR, restF);
  }

  /** One step of the comparison: what is to be compared past the first artifact,
      unless the two have parted. */
  lemma Next(r: Tracker, f: Tracker, x: Bytes, y: Bytes, ahead: int, whole: seq<Event>)
    returns (r1: Tracker, f1: Tracker, x1: Bytes, y1: Bytes, rest: seq<Event>, next: Option<int>)
    requires whole != [] && ahead == |x| - |y| && KnowsNoLess(r, f) && Wholes(whole) && Blank(x) && Blank(y)
    ensures |rest| < |whole| && Wholes(rest) && KnowsNoLess(r1, f1)
    ensures Blank(x1) && Blank(y1) && (next.Some? ==> next.value == |x1| - |y1|)
    ensures Alike(r, f, x, y, whole) <==> next.Some? && Alike(r1, f1, x1, y1, rest)
    ensures ComesOutEven(r, f, ahead, whole) <==> next.Some? && ComesOutEven(r1, f1, next.value, rest)
  {
    var outR, outF;
    r1, f1, outR, outF, rest, next := Outputs(r, f, ahead, whole);
    x1, y1 := OneStep(x, y, outR, outF, Left(r1, rest), Left(f1, rest), next);
  }

  lemma {:induction false} EvenBehind(r: Tracker, f: Tracker, x: Bytes, y: Bytes, ahead: int, whole: seq<Event>)
    requires ahead == |x| - |y| && KnowsNoLess(r, f) && Wholes(whole) && Blank(x) && Blank(y)
    ensures Alike(r, f, x, y, whole) <==> ComesOutEven(r, f, ahead, whole)
    decreases |whole|
  {
    if |whole| == 0 {
      Nothing(x, Left(r, whole));
      Nothing(y, Left(f, whole));
      if |x| == |y| { BlanksEqual(x, y); }
    } else {
      var r1, f1, x1, y1, rest, next := Next(r, f, x, y, ahead, whole);
      if next.Some? { EvenBehind(r1, f1, x1, y1, next.value, rest); }
    }
  }

  /** The finished task, whatever its artifacts and whatever the tracker has seen,
      is rendered as its whole text exactly when it comes out even. */
  lemma WholeTextIsLeft(tr: Tracker, whole: seq<Event>)
    requires Wholes(whole)
    ensures Left(tr, whole) == Left(NOTHING, whole) <==> ComesOutEven(tr, NOTHING, 0, whole)
  {
    var none: Bytes := [];
    EvenBehind(tr, NOTHING, none, none, 0, whole);
    NothingFirst(none, Left(tr, whole));
    NothingFirst(none, Left(NOTHING, whole));
  }

  // --- artifacts that say something ------------------------------------------------------------

  /** Every artifact has an id of its own, and no text or text that is not just newlines. */
  predicate Worded(whole: seq<Event>) {
    && Wholes(whole)
    && (forall i :: 0 <= i < |whole| ==> whole[i].text == [] || !Blank(whole[i].text))
    && (forall i, j :: 0 <= i < j < |whole| ==> whole[i].id == "" || whole[i].id != whole[j].id)
  }

  predicate NoneCut(tr: Tracker, whole: seq<Event>) { forall i :: 0 <= i < |whole| ==> CutOff(tr, whole[i]) == 0 }

  /** No artifact loses anything but the first that has text, and that one just
      what its paragraph break puts in front instead. */
  predicate OnlyFrontCut(tr: Tracker, whole: seq<Event>)
    decreases |whole|
  {
    whole == [] ||
    if whole[0].text == [] then OnlyFrontCut(tr, whole[1..])
    else whole[0].text[..CutOff(tr, whole[0])] == Front(tr, whole[0]) && NoneCut(tr, whole[1..])
  }

  lemma BlankJoin(a: Bytes, b: Bytes)
    ensures Blank(a + b) <==> Blank(a) && Blank(b)
  {
    LettersJoin(a, b);
    BlankHasNoLetters(a);
    BlankHasNoLetters(b);
    BlankHasNoLetters(a + b);
  }

  lemma CarriedLetters(b: Bytes, c: Bytes, gone: Bytes, s: Bytes)
    requires Blank(b) && Blank(c) && !Blank(gone + s)
    ensures Letters(c + (gone + s)) > 0
    ensures Letters(if s == [] then [] else b + s) == Letters(c + (gone + s)) <==> Blank(gone)
  {
    LettersLost(b, c, gone, s);
    LettersJoin(gone, s);
    BlankHasNoLetters(gone);
    BlankHasNoLetters(gone + s);
  }

  lemma CarriedOpens(b: Bytes, c: Bytes, gone: Bytes, s: Bytes)
    requires Blank(b) && Blank(c) && Blank(gone) && !Blank(gone + s)
    ensures Opens(if s == [] then [] else b + s) - Opens(c + (gone + s)) == |b| - |c| - |gone|
  {
    BlankJoin(gone, s);
    BlankJoin(c, gone);
    Regroup(c, gone, s);
    OpensBehind(b, s);
    OpensBehind(c + gone, s);
  }

  /** An artifact with text leaves the two even exactly when what it loses is
      newlines, and just as many as it has more in front. */
  lemma CarriedText(ahead: int, b: Bytes, c: Bytes, gone: Bytes, s: Bytes)
    requires Blank(b) && Blank(c) && !Blank(gone + s)
    ensures Carried(ahead, if s == [] then [] else b + s, c + (gone + s))
         == if Blank(gone) && ahead + |b| == |c| + |gone| then Some(0) else None
  {
    CarriedLetters(b, c, gone, s);
    if Blank(gone) { CarriedOpens(b, c, gone, s); }
  }

  lemma OutIs(tr: Tracker, ev: Event)
    requires !ev.append
    ensures var s := ev.text[CutOff(tr, ev)..]; DeltaOf(tr, ev).1 == if s == [] then [] else Front(tr, ev) + s
  {
    WholeLeaves(tr, ev);
  }

  lemma SplitText(text: Bytes, cut: nat) returns (gone: Bytes, s: Bytes)
    requires cut <= |text|
    ensures gone == text[..cut] && s == text[cut..] && text == gone + s && text[0..] == text
  {
    gone, s := text[..cut], text[cut..];
  }

  lemma TextStep(r: Tracker, f: Tracker, ahead: int, ev: Event)
    requires !ev.append && CutOff(f, ev) == 0 && !Blank(ev.text)
    ensures Carried(ahead, DeltaOf(r, ev).1, DeltaOf(f, ev).1) ==
      if Blank(ev.text[..CutOff(r, ev)]) && ahead + |Front(r, ev)| == |Front(f, ev)| + CutOff(r, ev) then Some(0) else None
  {
    var gone, s := SplitText(ev.text, CutOff(r, ev));
    OutIs(r, ev);
    OutIs(f, ev);
    CarriedText(ahead, Front(r, ev), Front(f, ev), gone, s);
  }

  lemma NoTextStep(r: Tracker, f: Tracker, ahead: int, ev: Event)
    requires !ev.append && |ev.text| == 0
    ensures DeltaOf(r, ev).1 == [] && Carried(ahead, DeltaOf(r, ev).1, DeltaOf(f, ev).1) == Some(ahead)
    ensures DeltaOf(r, ev).0.tail == r.tail && DeltaOf(r, ev).0.last == r.last
    ensures DeltaOf(f, ev).0.tail == f.tail && DeltaOf(f, ev).0.last == f.last
  {
    OutIs(r, ev);
    OutIs(f, ev);
    WholeLeaves(r, ev);
    WholeLeaves(f, ev);
  }

  /** An artifact's own arrival changes nothing about the later ones. */
  lemma OthersKeepCuts(tr: Tracker, whole: seq<Event>)
    requires whole != [] && Worded(whole)
    ensures Worded(whole[1..])
    ensures forall i :: 0 <= i < |whole[1..]| ==> CutOff(DeltaOf(tr, whole[0]).0, whole[1..][i]) == CutOff(tr, whole[1..][i])
  {
    var rest, after := whole[1..], DeltaOf(tr, whole[0]).0;
    WholeLeaves(tr, whole[0]);
    forall i | 0 <= i < |rest| ensures rest[i] == whole[i + 1] && CutOff(after, rest[i]) == CutOff(tr, rest[i]) {
      assert whole[0].id == "" || whole[0].id != whole[i + 1].id;
    }
    forall i, j | 0 <= i < j < |rest| ensures rest[i].id == "" || rest[i].id != rest[j].id {
      assert whole[i + 1].id == "" || whole[i + 1].id != whole[j + 1].id;
    }
  }

  /** The two would put the same break in front of any artifact. */
  predicate SameFront(r: Tracker, f: Tracker) {
    r.last == f.last && Ending(r.tail) == Ending(f.tail) && (r.tail == [] <==> f.tail == [])
  }

  lemma SameFrontAfter(r: Tracker, f: Tracker, ev: Event)
    requires !ev.append && (if ev.text == [] then SameFront(r, f) else DeltaOf(r, ev).1 == DeltaOf(f, ev).1 != [])
    ensures SameFront(DeltaOf(r, ev).0, DeltaOf(f, ev).0)
  {
    if |ev.text| == 0 {
      NoTextStep(r, f, 0, ev);
    } else {
      WholeLeaves(r, ev);
      WholeLeaves(f, ev);
    }
  }

  lemma NoneCutSplits(tr: Tracker, whole: seq<Event>)
    requires whole != []
    ensures NoneCut(tr, whole) <==> CutOff(tr, whole[0]) == 0 && NoneCut(tr, whole[1..])
  {
    assert whole == [whole[0]] + whole[1..];
  }

  lemma {:induction false} LevelEven(r: Tracker, f: Tracker, whole: seq<Event>)
    requires Worded(whole) && NoneCut(f, whole) && SameFront(r, f)
    ensures ComesOutEven(r, f, 0, whole) <==> NoneCut(r, whole)
    decreases |whole|
  {
    if |whole| > 0 {
      var ev, r1, f1 := whole[0], DeltaOf(r, whole[0]).0, DeltaOf(f, whole[0]).0;
      var next := Carried(0, DeltaOf(r, ev).1, DeltaOf(f, ev).1);
      EvenNext(r, f, 0, whole, next, r1, f1, whole[1..]);
      NoneCutSplits(r, whole);
      NoneCutSplits(f, whole);
      OthersKeepCuts(r, whole);
      OthersKeepCuts(f, whole);
      LevelStep(r, f, ev);
      if next.Some? { LevelEven(r1, f1, whole[1..]); }
    }
  }

  lemma LevelStep(r: Tracker, f: Tracker, ev: Event)
    requires !ev.append && (ev.text == [] || !Blank(ev.text)) && CutOff(f, ev) == 0 && SameFront(r, f)
    ensures Carried(0, DeltaOf(r, ev).1, DeltaOf(f, ev).1) == if CutOff(r, ev) == 0 then Some(0) else None
    ensures CutOff(r, ev) == 0 ==> SameFront(DeltaOf(r, ev).0, DeltaOf(f, ev).0)
  {
    if |ev.text| == 0 {
      NoTextStep(r, f, 0, ev);
    } else {
      TextStep(r, f, 0, ev);
      OutIs(r, ev);
      OutIs(f, ev);
    }
    if CutOff(r, ev) == 0 { SameFrontAfter(r, f, ev); }
  }

  /** Where the break puts in front what was cut, the artifact comes out whole. */
  lemma FrontMakesUp(r: Tracker, f: Tracker, ev: Event)
    requires !ev.append && !Blank(ev.text) && f.tail == [] && CutOff(f, ev) == 0 && ev.text[..CutOff(r, ev)] == Front(r, ev)
    ensures DeltaOf(r, ev).1 == DeltaOf(f, ev).1 == ev.text
  {
    var gone, s := SplitText(ev.text, CutOff(r, ev));
    OutIs(r, ev);
    OutIs(f, ev);
    Nothing(gone, s);
    NothingFirst(Front(f, ev), ev.text);
  }

  lemma FirstTextStep(r: Tracker, f: Tracker, ev: Event, gone: Bytes)
    requires !ev.append && !Blank(ev.text) && f.tail == [] && CutOff(f, ev) == 0 && gone == ev.text[..CutOff(r, ev)]
    ensures Carried(0, DeltaOf(r, ev).1, DeltaOf(f, ev).1) == if gone == Front(r, ev) then Some(0) else None
    ensures gone == Front(r, ev) ==> SameFront(DeltaOf(r, ev).0, DeltaOf(f, ev).0)
  {
    TextStep(r, f, 0, ev);
    if Blank(gone) && |gone| == |Front(r, ev)| { BlanksEqual(gone, Front(r, ev)); }
    if gone == Front(r, ev) {
      FrontMakesUp(r, f, ev);
      SameFrontAfter(r, f, ev);
    }
  }

  lemma {:induction false} SameCuts(r: Tracker, f: Tracker, whole: seq<Event>)
    requires r.tail == f.tail && r.last == f.last
    requires forall i :: 0 <= i < |whole| ==> CutOff(r, whole[i]) == CutOff(f, whole[i])
    ensures OnlyFrontCut(r, whole) <==> OnlyFrontCut(f, whole)
    decreases |whole|
  {
    if |whole| > 0 {
      forall i | 0 <= i < |whole[1..]| ensures CutOff(r, whole[1..][i]) == CutOff(f, whole[1..][i]) {
        assert whole[1..][i] == whole[i + 1];
      }
      SameCuts(r, f, whole[1..]);
    }
  }

  lemma {:induction false} FirstEven(r: Tracker, f: Tracker, whole: seq<Event>)
    requires Worded(whole) && NoneCut(f, whole) && f.tail == []
    ensures ComesOutEven(r, f, 0, whole) <==> OnlyFrontCut(r, whole)
    decreases |whole|
  {
    if |whole| > 0 {
      var ev, r1, f1 := whole[0], DeltaOf(r, whole[0]).0, DeltaOf(f, whole[0]).0;
      var next := Carried(0, DeltaOf(r, ev).1, DeltaOf(f, ev).1);
      EvenNext(r, f, 0, whole, next, r1, f1, whole[1..]);
      NoneCutSplits(f, whole);
      OthersKeepCuts(r, whole);
      OthersKeepCuts(f, whole);
      if |ev.text| == 0 {
        NoTextStep(r, f, 0, ev);
        FirstEven(r1, f1, whole[1..]);
        SameCuts(r, r1, whole[1..]);
      } else {
        FirstTextStep(r, f, ev, ev.text[..CutOff(r, ev)]);
        if next.Some? { LevelEven(r1, f1, whole[1..]); }
      }
    }
  }

  /** Where every artifact says something, the whole text is left exactly when
      nothing is cut but, of the first that has text, what its own break replaces. */
  lemma WordedTextIsLeft(tr: Tracker, whole: seq<Event>)
    requires Worded(whole)
    ensures Left(tr, whole) == Left(NOTHING, whole) <==> OnlyFrontCut(tr, whole)
  {
    forall i | 0 <= i < |whole| ensures CutOff(NOTHING, whole[i]) == 0 { NothingSeenNothingCut(whole[i].text); }
    WholeTextIsLeft(tr, whole);
    FirstEven(tr, NOTHING, whole);
  }

  // --- one artifact alone -------------------------------------------------------------------------

  /** A task of one artifact, whatever its text: what is left of it, and when that is all. */
  lemma OneIsLeft(tr: Tracker, ev: Event, whole: seq<Event>)
    requires !ev.append && whole == [ev]
    ensures var cut, front := CutOff(tr, ev), Front(tr, ev);
      && Left(tr, whole) == (if cut == |ev.text| then [] else front + ev.text[cut..])
      && (Left(tr, whole) == ev.text <==> ev.text == [] || (cut < |ev.text| && front == ev.text[..cut]))
  {
    var cut, front, out := CutOff(tr, ev), Front(tr, ev), DeltaOf(tr, ev).1;
    WholeLeaves(tr, ev);
    Nothing(out, Left(DeltaOf(tr, ev).0, whole[1..]));
    Slices(ev.text, 0, cut);
    if front + ev.text[cut..] == ev.text { SplitsAlike(front, ev.text[cut..], ev.text[..cut], ev.text[cut..]); }
  }

  lemma OneIsWhole(ev: Event, whole: seq<Event>)
    requires !ev.append && whole == [ev]
    ensures Left(NOTHING, whole) == ev.text
  {
    OneIsLeft(NOTHING, ev, whole);
    NothingSeenNothingCut(ev.text);
    NothingFirst(Front(NOTHING, ev), ev.text);
  }

  /** Where only its own updates came before, no break is put in front. */
  lemma {:induction false} OwnHasNoFront(evs: seq<Event>, id: ArtifactID)
    requires forall i :: 0 <= i < |evs| ==> evs[i].id == id
    ensures var tr := Stream(NOTHING, evs).0; tr.tail == [] || tr.last == id
  {
    if |evs| > 0 { OwnHasNoFront(evs[..|evs| - 1], id); }
  }

  /** No rune starts in b behind its first byte and up to i. */
  predicate InFirstRune(b: Bytes, i: nat) { forall j :: 0 < j <= i ==> j < |b| && !RuneStart(b[j]) }

  /** Nothing is cut exactly when the two texts part inside the first rune. */
  lemma NothingIsCut(seen: Bytes, text: Bytes)
    ensures Cut(seen, text) == 0 <==> InFirstRune(text, CommonPrefix(seen, text))
  {
    BacksOffToStart(text, CommonPrefix(seen, text));
  }

  lemma {:induction false} BacksOffToStart(b: Bytes, i: nat)
    requires i <= |b|
    ensures BackOff(b, i) == 0 <==> InFirstRune(b, i)
  {
    if i > 0 { BacksOffToStart(b, i - 1); }
  }
}
