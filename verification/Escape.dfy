/** Text escaped for Slack's mrkdwn, back again, and cut short without cutting
    an entity. Strings are sequences of runes. */
module Escape {
  const ELLIPSIS := "\U{2026}"

  /** strings.ReplaceAll for a one-rune pattern. */
  function ReplaceAll(s: string, c: char, r: string): string {
    if s == "" then "" else (if s[0] == c then r else [s[0]]) + ReplaceAll(s[1..], c, r)
  }

  /** escapeMrkdwn: three passes, ampersands first. */
  function Escaped(s: string): string {
    ReplaceAll(ReplaceAll(ReplaceAll(s, '&', "&amp;"), '<', "&lt;"), '>', "&gt;")
  }

  function Entity(c: char): string {
    if c == '&' then "&amp;" else if c == '<' then "&lt;" else if c == '>' then "&gt;" else [c]
  }

  /** Rune by rune. */
  function EachEscaped(s: string): string {
    if s == "" then "" else EachEscaped(s[..|s| - 1]) + Entity(s[|s| - 1])
  }

  lemma {:induction false} ReplaceJoins(a: string, b: string, c: char, r: string)
    ensures ReplaceAll(a + b, c, r) == ReplaceAll(a, c, r) + ReplaceAll(b, c, r)
    decreases |a|
  {
    if |a| == 0 {
      assert a + b == b;
    } else {
      ReplaceJoins(a[1..], b, c, r);
      assert (a + b)[1..] == a[1..] + b;
      var first, x, y := if a[0] == c then r else [a[0]], ReplaceAll(a[1..], c, r), ReplaceAll(b, c, r);
      assert first + (x + y) == (first + x) + y;
    }
  }

  lemma ReplaceOne(s: string, c: char, r: string)
    requires |s| == 1
    ensures ReplaceAll(s, c, r) == if s[0] == c then r else s
  {
    assert s[1..] == "" && r + "" == r && [s[0]] + "" == s;
  }

  lemma {:induction false} ReplaceNone(s: string, c: char, r: string)
    requires c !in s
    ensures ReplaceAll(s, c, r) == s
  {
    if |s| > 0 { ReplaceNone(s[1..], c, r); }
  }

  lemma EscapedOne(s: string)
    requires |s| == 1
    ensures Escaped(s) == Entity(s[0])
  {
    ReplaceOne(s, '&', "&amp;");
    if s[0] == '&' {
      ReplaceNone("&amp;", '<', "&lt;");
      ReplaceNone("&amp;", '>', "&gt;");
    } else {
      ReplaceOne(s, '<', "&lt;");
      if s[0] == '<' { ReplaceNone("&lt;", '>', "&gt;"); } else { ReplaceOne(s, '>', "&gt;"); }
    }
  }

  /** The passes do not escape each other's entities: each rune is escaped once. */
  lemma {:induction false} EscapedEach(s: string)
    ensures Escaped(s) == EachEscaped(s)
    decreases |s|
  {
    if |s| > 0 {
      var init, last := s[..|s| - 1], s[|s| - 1..];
      EscapedEach(init);
      EscapedOne(last);
      assert s == init + last;
      ReplaceJoins(init, last, '&', "&amp;");
      var a, b := ReplaceAll(init, '&', "&amp;"), ReplaceAll(last, '&', "&amp;");
      ReplaceJoins(a, b, '<', "&lt;");
      ReplaceJoins(ReplaceAll(a, '<', "&lt;"), ReplaceAll(b, '<', "&lt;"), '>', "&gt;");
    }
  }

  // --- back again ------------------------------------------------------------------------

  /** slackTextUnescaper, from the left. */
  function Unescaped(s: string): string {
    if |s| >= 4 && s[..4] == "&lt;" then "<" + Unescaped(s[4..])
    else if |s| >= 4 && s[..4] == "&gt;" then ">" + Unescaped(s[4..])
    else if |s| >= 5 && s[..5] == "&amp;" then "&" + Unescaped(s[5..])
    else if s == "" then "" else [s[0]] + Unescaped(s[1..])
  }

  lemma UnescapeFirst(c: char, rest: string)
    ensures Unescaped(Entity(c) + rest) == [c] + Unescaped(rest)
  {
    var s := Entity(c) + rest;
    if c == '&' {
      assert s[..5] == "&amp;" && s[5..] == rest && s[1] == 'a';
      assert s[..4][1] == 'a';
    } else if c == '<' {
      assert s[..4] == "&lt;" && s[4..] == rest;
    } else if c == '>' {
      assert s[..4] == "&gt;" && s[4..] == rest && s[..4][1] == 'g';
    } else {
      assert s[0] == c && s[1..] == rest;
      assert |s| >= 4 ==> s[..4][0] == c;
      assert |s| >= 5 ==> s[..5][0] == c;
    }
  }

  lemma Regroup(a: string, b: string, c: string)
    ensures (a + b) + c == a + (b + c)
  {
  }

  lemma {:induction false} UnescapeEach(s: string, rest: string, text: string)
    requires Unescaped(rest) == text
    ensures Unescaped(EachEscaped(s) + rest) == s + text
    decreases |s|
  {
    if |s| == 0 {
      assert EachEscaped(s) + rest == rest && s + text == text;
    } else {
      var init, c := s[..|s| - 1], s[|s| - 1];
      UnescapeFirst(c, rest);
      UnescapeEach(init, Entity(c) + rest, [c] + text);
      Regroup(EachEscaped(init), Entity(c), rest);
      Regroup(init, [c], text);
      assert s == init + [c];
    }
  }

  /** Unescaping an escaped text restores it, whatever it holds. */
  lemma RoundTrip(s: string)
    ensures Unescaped(Escaped(s)) == s
  {
    EscapedEach(s);
    UnescapeEach(s, "", "");
    assert EachEscaped(s) + "" == EachEscaped(s) && s + "" == s;
  }

  // --- cut short -------------------------------------------------------------------------

  /** How many runes of s fit, escaped, in room. */
  function FitLen(s: string, room: int): (k: nat)
    ensures k <= |s|
    ensures room >= 0 ==> |EachEscaped(s[..k])| <= room
  {
    if s == "" || |EachEscaped(s)| <= room then (assert s[..|s|] == s; |s|)
    else
      var k := FitLen(s[..|s| - 1], room);
      assert s[..|s| - 1][..k] == s[..k];
      k
  }

  /** The escape of s in at most max runes, an ellipsis where it is cut. */
  function Capped(s: string, max: int): (r: string)
    ensures max >= 1 ==> |r| <= max
  {
    if |Escaped(s)| <= max then Escaped(s) else EachEscaped(s[..FitLen(s, max - 1)]) + ELLIPSIS
  }

  lemma {:induction false} EscapeGrows(s: string, i: nat, j: nat)
    requires i < j <= |s|
    ensures |EachEscaped(s[..i])| < |EachEscaped(s[..j])|
    decreases j
  {
    assert s[..j][..j - 1] == s[..j - 1];
    if i < j - 1 { EscapeGrows(s, i, j - 1); }
  }

  /** FitLen is the longest prefix that fits. */
  lemma FitIsLongest(s: string, room: nat, k: nat)
    requires k <= |s| && |EachEscaped(s[..k])| <= room && (k < |s| ==> |EachEscaped(s[..k + 1])| > room)
    ensures FitLen(s, room) == k
  {
    FitIsAtLeast(s, room, k);
    if k < |s| { FitIsAtMost(s, room, k); }
  }

  lemma {:induction false} FitIsAtMost(s: string, room: nat, k: nat)
    requires k < |s| && |EachEscaped(s[..k + 1])| > room
    ensures FitLen(s, room) <= k
    decreases |s|
  {
    assert s[..|s|] == s;
    if |EachEscaped(s)| <= room {
      EscapeGrows(s, k + 1, |s|);
    } else if k + 1 < |s| {
      assert s[..|s| - 1][..k + 1] == s[..k + 1];
      FitIsAtMost(s[..|s| - 1], room, k);
    }
  }

  lemma {:induction false} FitIsAtLeast(s: string, room: nat, k: nat)
    requires k <= |s| && |EachEscaped(s[..k])| <= room
    ensures k <= FitLen(s, room)
    decreases |s|
  {
    assert s[..|s|] == s;
    if |EachEscaped(s)| > room && k < |s| {
      assert s[..|s| - 1][..k] == s[..k];
      FitIsAtLeast(s[..|s| - 1], room, k);
    }
  }

  /** escapeMrkdwnCapped. */
  method EscapeMrkdwnCapped(s: string, max: int) returns (r: string)
    ensures r == Capped(s, max)
  {
    var escaped := Escaped(s);
    if |escaped| <= max {
      return escaped;
    }
    var b, n, i := "", 0, 0;
    EscapedEach(s);
    while i < |s|
      invariant i <= |s| && b == EachEscaped(s[..i]) && n == |b|
      invariant i == 0 || n <= max - 1
    {
      assert s[..i + 1][..i] == s[..i];
      var e := Escaped([s[i]]);
      EscapedOne([s[i]]);
      if n + |e| > max - 1 {
        break;
      }
      b := b + e;
      n := n + |e|;
      i := i + 1;
    }
    if i == |s| {
      assert s[..i] == s;
    }
    CapEnds(s, max, i);
    r := b + ELLIPSIS;
  }

  lemma CapEnds(s: string, max: int, i: nat)
    requires |EachEscaped(s)| > max && i <= |s| && (i == 0 || |EachEscaped(s[..i])| <= max - 1)
    requires i < |s| ==> |EachEscaped(s[..i + 1])| > max - 1
    ensures s[..FitLen(s, max - 1)] == s[..i]
  {
    if max >= 1 {
      assert s[..0] == "";
      FitIsLongest(s, max - 1, i);
    } else {
      NothingFits(s, max - 1);
    }
  }

  lemma {:induction false} NothingFits(s: string, room: int)
    requires room < 0
    ensures FitLen(s, room) == 0
    decreases |s|
  {
    if |s| > 0 { NothingFits(s[..|s| - 1], room); }
  }

  // --- cut after escaping ---------------------------------------------------------------

  /** Where a cut of escaped text kept backs off to: an ampersand in its last
      four runes with no semicolon behind it, else its end. */
  function BackOff(kept: string, from: int): (n: nat)
    requires -1 <= from < |kept|
    ensures n <= |kept|
    decreases from + 1
  {
    if from < 0 || from < |kept| - 4 || kept[from] == ';' then |kept|
    else if kept[from] == '&' then from
    else BackOff(kept, from - 1)
  }

  function Cut(s: string, max: int): string
    requires |s| > max ==> max >= 1
  {
    if |s| <= max then s
    else
      var kept := s[..max - 1];
      kept[..BackOff(kept, |kept| - 1)] + ELLIPSIS
  }

  /** cutEscaped. */
  method CutEscaped(s: string, max: int) returns (r: string)
    requires |s| > max ==> max >= 1
    ensures r == Cut(s, max)
  {
    if |s| <= max {
      return s;
    }
    var kept := s[..max - 1];
    ghost var whole := kept;
    var i := |kept| - 1;
    while i >= 0 && i >= |kept| - 4
      invariant -1 <= i < |kept| && kept == whole
      invariant BackOff(whole, |whole| - 1) == BackOff(whole, i)
      decreases i + 1
    {
      if kept[i] == ';' {
        break;
      }
      if kept[i] == '&' {
        kept := kept[..i];
        break;
      }
      i := i - 1;
    }
    assert whole[..|whole|] == whole;
    assert kept == whole[..BackOff(whole, |whole| - 1)];
    r := kept + ELLIPSIS;
  }

  lemma {:induction false} BackOffMeets(kept: string, from: int, i: int)
    requires -1 <= i <= from < |kept| && |kept| - 4 <= i + 1
    requires forall j :: i < j <= from ==> kept[j] != ';' && kept[j] != '&'
    ensures BackOff(kept, from) == BackOff(kept, i)
    decreases from - i
  {
    if i < from { BackOffMeets(kept, from - 1, i); }
  }

  /** A semicolon follows every ampersand of escaped text. */
  lemma {:induction false} EntitiesEnd(s: string, i: nat)
    requires i < |EachEscaped(s)| && EachEscaped(s)[i] == '&'
    ensures exists j :: i < j < |EachEscaped(s)| && EachEscaped(s)[j] == ';'
    decreases |s|
  {
    var init, e := EachEscaped(s[..|s| - 1]), Entity(s[|s| - 1]);
    if i < |init| {
      EntitiesEnd(s[..|s| - 1], i);
      var j :| i < j < |init| && init[j] == ';';
      assert EachEscaped(s)[j] == ';';
    } else {
      assert e[i - |init|] == '&';
      assert EachEscaped(s)[|init| + |e| - 1] == ';';
    }
  }

  /** A cut of whole entities stays as it is. */
  lemma {:induction false} WholeStays(kept: string, from: int)
    requires -1 <= from < |kept|
    requires forall i :: 0 <= i <= from && kept[i] == '&' ==> exists j :: i < j <= from && kept[j] == ';'
    ensures BackOff(kept, from) == |kept|
    decreases from + 1
  {
    if from >= 0 && kept[from] != ';' && kept[from] != '&' {
      forall i | 0 <= i <= from - 1 && kept[i] == '&' ensures exists j :: i < j <= from - 1 && kept[j] == ';' {
        var j :| i < j <= from && kept[j] == ';';
        assert j != from;
      }
      WholeStays(kept, from - 1);
    }
  }

  /** A cut inside an entity backs off to the entity's start. */
  lemma PartialGoes(kept: string, n: nat, e: char)
    requires n < |kept| < n + |Entity(e)| && kept[n..] == Entity(e)[..|kept| - n]
    ensures BackOff(kept, |kept| - 1) == n
  {
    var part := Entity(e)[..|kept| - n];
    assert kept[n] == part[0] == '&';
    forall j | n < j < |kept| ensures kept[j] != ';' && kept[j] != '&' {
      assert kept[j] == part[j - n];
    }
    BackOffMeets(kept, |kept| - 1, n);
  }

  lemma WholeEntitiesStay(t: string, kept: string)
    requires kept == EachEscaped(t)
    ensures BackOff(kept, |kept| - 1) == |kept|
  {
    forall i | 0 <= i <= |kept| - 1 && kept[i] == '&' ensures exists j :: i < j <= |kept| - 1 && kept[j] == ';' {
      EntitiesEnd(t, i);
    }
    WholeStays(kept, |kept| - 1);
  }

  /** The rune after those that fit starts in all's last bytes before the cut, and ends behind it. */
  lemma NextRune(s: string, max: int, k: nat) returns (fit: string, c: char)
    requires max >= 1 && |EachEscaped(s)| > max && k == FitLen(s, max - 1)
    ensures k < |s| && c == s[k] && fit == EachEscaped(s[..k]) && |fit| <= max - 1 < |fit| + |Entity(c)|
    ensures fit + Entity(c) <= EachEscaped(s)
  {
    assert s[..|s|] == s;
    fit, c := EachEscaped(s[..k]), s[k];
    EscapePrefix(s, k + 1);
    assert s[..k + 1][..k] == s[..k];
    if |fit| + |Entity(c)| <= max - 1 { FitIsAtLeast(s, max - 1, k + 1); }
  }

  lemma CutBacksOff(t: string, fit: string, c: char, kept: string)
    requires fit == EachEscaped(t) && |fit| <= |kept| < |fit| + |Entity(c)| && kept <= fit + Entity(c)
    ensures kept[..BackOff(kept, |kept| - 1)] == fit
  {
    if |fit| == |kept| {
      assert kept == fit;
      WholeEntitiesStay(t, kept);
    } else {
      assert kept[|fit|..] == Entity(c)[..|kept| - |fit|];
      PartialGoes(kept, |fit|, c);
    }
  }

  /** The two capped forms agree: cutting the escaped text never leaves part of
      an entity, and keeps as many whole runes as fit. */
  lemma CutIsCapped(s: string, max: int)
    requires max >= 1
    ensures Cut(Escaped(s), max) == Capped(s, max)
  {
    EscapedEach(s);
    if |Escaped(s)| > max {
      var k := FitLen(s, max - 1);
      var fit, c := NextRune(s, max, k);
      CutBacksOff(s[..k], fit, c, Escaped(s)[..max - 1]);
    }
  }

  lemma {:induction false} EscapePrefix(s: string, k: nat)
    requires k <= |s|
    ensures EachEscaped(s[..k]) <= EachEscaped(s)
    decreases |s|
  {
    if k < |s| {
      EscapePrefix(s[..|s| - 1], k);
      assert s[..|s| - 1][..k] == s[..k];
    } else {
      assert s[..k] == s;
    }
  }

  /** A capped text is the escaped source, or, when that is too long, the escape of
      a proper prefix and the ellipsis: no entity is split, and what stands before
      the ellipsis reads back as that prefix. */
  lemma CappedReadsBack(s: string, max: int) returns (k: nat)
    ensures k <= |s| && (|Escaped(s)| <= max ==> k == |s| && Capped(s, max) == Escaped(s))
    ensures |Escaped(s)| > max ==> (max >= 0 ==> k < |s|) && Capped(s, max) == Escaped(s[..k]) + ELLIPSIS
    ensures Unescaped(Escaped(s[..k])) == s[..k]
  {
    k := |s|;
    if |Escaped(s)| > max {
      k := FitLen(s, max - 1);
      EscapedEach(s[..k]);
      EscapedEach(s);
      if max == 0 { NothingFits(s, -1); }
    }
    assert s[..|s|] == s;
    RoundTrip(s[..k]);
  }
}
