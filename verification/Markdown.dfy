/** Narration cut into messages: chunks within a byte budget, with a fenced code
    block closed where a chunk ends inside it and reopened in the next one. */
module Markdown {
  import opened Streaming

  const TICK: Byte := 96
  const FENCE: Bytes := [TICK, TICK, TICK]

  predicate EndsLine(s: Bytes) { s != [] && s[|s| - 1] == NL }

  /** The length of s up to its first newline, and with it. */
  function LineLen(s: Bytes): (n: nat)
    ensures n <= |s| && (n == 0 <==> s == []) && (n < |s| ==> s[n - 1] == NL)
  {
    if s == [] then 0 else if s[0] == NL then 1 else 1 + LineLen(s[1..])
  }

  /** The first newline of s, if any, is its last byte. */
  predicate IsLine(s: Bytes) { s != [] && LineLen(s) == |s| }

  /** A text's first line goes up to its first newline, and to its end without one. */
  lemma {:induction false} FirstNewline(s: Bytes)
    requires s != []
    ensures (forall k :: 0 <= k < LineLen(s) - 1 ==> s[k] != NL) && (s[LineLen(s) - 1] == NL || LineLen(s) == |s|)
  {
    if s[0] != NL && |s| > 1 { FirstNewline(s[1..]); }
  }

  function TrimBlanks(s: Bytes): Bytes {
    if s != [] && (s[0] == 32 || s[0] == 9) then TrimBlanks(s[1..]) else s
  }

  predicate Ticks(s: Bytes) { |s| >= 3 && s[0] == TICK && s[1] == TICK && s[2] == TICK }

  predicate IsFenceLine(line: Bytes) { Ticks(TrimBlanks(line)) }

  /** A fence line is three backticks behind nothing but spaces and tabs. */
  lemma {:induction false} FenceLineMeans(line: Bytes)
    ensures IsFenceLine(line) <==> exists n: nat :: Indented(line, n)
    decreases |line|
  {
    if |line| > 0 && (line[0] == 32 || line[0] == 9) {
      FenceLineMeans(line[1..]);
      if IsFenceLine(line) {
        var n: nat :| Indented(line[1..], n);
        assert Indented(line, n + 1);
      }
      if n: nat :| Indented(line, n) { assert Indented(line[1..], n - 1); }
    } else if IsFenceLine(line) {
      assert Indented(line, 0);
    }
  }

  predicate Indented(line: Bytes, n: nat) {
    n + 3 <= |line| && (forall k :: 0 <= k < n ==> line[k] == 32 || line[k] == 9)
    && line[n] == line[n + 1] == line[n + 2] == 96
  }

  /** How many lines of s p holds of. */
  function CountLines(p: Bytes -> bool, s: Bytes): nat
    decreases |s|
  {
    if s == [] then 0 else (if p(s[..LineLen(s)]) then 1 else 0) + CountLines(p, s[LineLen(s)..])
  }

  /** Every fence opened in s is closed in it. */
  predicate Balanced(s: Bytes) { Fences(s) % 2 == 0 }

  // --- counting lines ---------------------------------------------------------------

  lemma {:induction false} LineLenJoins(a: Bytes, b: Bytes)
    requires EndsLine(a)
    ensures LineLen(a + b) == LineLen(a)
  {
    if a[0] != NL {
      LineLenJoins(a[1..], b);
      assert (a + b)[1..] == a[1..] + b;
    }
  }

  /** Two texts with the same first line differ in count by what follows it. */
  lemma SameFirstLine(p: Bytes -> bool, a: Bytes, ab: Bytes, n: nat, more: int)
    requires a != [] && ab != [] && n == LineLen(a) == LineLen(ab) && ab[..n] == a[..n]
    requires CountLines(p, ab[n..]) == CountLines(p, a[n..]) + more
    ensures CountLines(p, ab) == CountLines(p, a) + more
  {
  }

  lemma {:induction false} LinesJoin(p: Bytes -> bool, a: Bytes, b: Bytes)
    requires a == [] || EndsLine(a)
    ensures CountLines(p, a + b) == CountLines(p, a) + CountLines(p, b)
    decreases |a|
  {
    if |a| == 0 {
      NothingFirst(a, b);
    } else {
      var n, ab, rest := LineLen(a), a + b, a[LineLen(a)..];
      LineLenJoins(a, b);
      LinesJoin(p, rest, b);
      CutJoined(a, b, n);
      SameFirstLine(p, a, ab, n, CountLines(p, b));
    }
  }

  lemma CutJoined<T>(a: seq<T>, b: seq<T>, n: nat)
    requires n <= |a|
    ensures (a + b)[n..] == a[n..] + b && (a + b)[..n] == a[..n]
  {
  }

  lemma OneLine(p: Bytes -> bool, line: Bytes)
    requires IsLine(line)
    ensures CountLines(p, line) == if p(line) then 1 else 0
  {
    assert line[..|line|] == line && |line[|line|..]| == 0;
  }

  lemma {:induction false} TrimJoins(s: Bytes, end: Bytes)
    requires end == [NL]
    ensures IsFenceLine(s + end) <==> IsFenceLine(s)
  {
    if |s| > 0 && (s[0] == 32 || s[0] == 9) {
      TrimJoins(s[1..], end);
      assert (s + end)[1..] == s[1..] + end;
    } else if |s| > 0 {
      assert TrimBlanks(s + end) == s + end;
    } else {
      assert s + end == end && TrimBlanks(end) == end;
    }
  }

  lemma {:induction false} UnfinishedLine(s: Bytes, end: Bytes)
    requires s != [] && !EndsLine(s) && end == [NL]
    ensures LineLen(s + end) == if LineLen(s) == |s| then |s| + 1 else LineLen(s)
  {
    assert (s + end)[1..] == s[1..] + end;
    if |s| > 1 && s[0] != NL {
      UnfinishedLine(s[1..], end);
    } else if |s| == 1 {
      assert (s + end)[1..] == end;
    }
  }

  /** A newline after an unfinished line completes it, and adds none. */
  lemma {:induction false} NewlineAddsNone(p: Bytes -> bool, s: Bytes, end: Bytes)
    requires s != [] && !EndsLine(s) && end == [NL]
    requires forall t: Bytes {:trigger p(t)} :: p(t + end) == p(t)
    ensures CountLines(p, s + end) == CountLines(p, s)
    decreases |s|
  {
    var n := LineLen(s);
    UnfinishedLine(s, end);
    if n == |s| {
      OneLine(p, s);
      OneLine(p, s + end);
    } else {
      NewlineAddsNone(p, s[n..], end);
      assert (s + end)[n..] == s[n..] + end && (s + end)[..n] == s[..n];
    }
  }

  function Fences(s: Bytes): nat { CountLines(IsFenceLine, s) }

  lemma FenceLine(fence: Bytes)
    requires fence == FENCE
    ensures IsLine(fence) && IsFenceLine(fence) && Fences(fence) == 1
  {
    assert LineLen(fence[3..]) == 0 && LineLen(fence[2..]) == 1 && LineLen(fence[1..]) == 2;
    assert TrimBlanks(fence) == fence;
    OneLine(IsFenceLine, fence);
  }

  lemma FencesAdd(s: Bytes, more: Bytes, n: nat, m: nat)
    requires (s == [] || EndsLine(s)) && Fences(s) == n && Fences(more) == m
    ensures Fences(s + more) == n + m
  {
    LinesJoin(IsFenceLine, s, more);
  }

  lemma NewlineAddsNoFence(s: Bytes, end: Bytes, n: nat)
    requires s != [] && !EndsLine(s) && end == [NL] && Fences(s) == n
    ensures Fences(s + end) == n && EndsLine(s + end)
  {
    forall t: Bytes ensures IsFenceLine(t + end) == IsFenceLine(t) { TrimJoins(t, end); }
    NewlineAddsNone(IsFenceLine, s, end);
  }

  /** s with its open fence closed. */
  function Closed(s: Bytes): Bytes { (if EndsLine(s) then s else s + [NL]) + FENCE }

  lemma ClosedIsBalanced(s: Bytes, n: nat)
    requires s != [] && Fences(s) == n && n % 2 == 1
    ensures Balanced(Closed(s))
  {
    var end, fence := [NL], FENCE;
    FenceLine(fence);
    if EndsLine(s) {
      FencesAdd(s, fence, n, 1);
    } else {
      NewlineAddsNoFence(s, end, n);
      FencesAdd(s + end, fence, n, 1);
    }
  }

  // --- hard splits ---------------------------------------------------------------------

  /** b behind a, where either may be missing. */
  function Behind(a: Bytes, b: Bytes): Bytes { if a == [] then b else if b == [] then a else a + b }

  lemma BehindMore(a: Bytes, b: Bytes, c: Bytes)
    ensures Behind(Behind(a, b), c) == Behind(a, Behind(b, c))
  {
    if a != [] && b != [] && c != [] {
      Regroup(a, b, c);
      assert |b + c| > 0;
    }
  }

  function Flatten(chunks: seq<Bytes>): Bytes {
    if chunks == [] then [] else Behind(Flatten(chunks[..|chunks| - 1]), chunks[|chunks| - 1])
  }

  /** None of text[1..k + 1] starts a rune. */
  predicate NoRune(text: Bytes, k: nat)
    requires k < |text|
  {
    k == 0 || (!RuneStart(text[k]) && NoRune(text, k - 1))
  }

  /** A cut of text no later than max: behind a newline when there is one in reach,
      else at a rune, unless not even one rune fits. */
  predicate GoodCut(text: Bytes, cut: nat, max: nat)
    requires max < |text|
  {
    0 < cut <= max && (text[cut - 1] == NL || RuneStart(text[cut]) || (cut == max && NoRune(text, max)))
  }

  /** The last newline of text before max, -1 when there is none. */
  function LastIndex(text: Bytes, max: nat): (cut: int)
    requires max <= |text|
    ensures -1 <= cut < max && (cut >= 0 ==> text[cut] == NL) && forall k :: cut < k < max ==> text[k] != NL
  {
    if max == 0 then -1 else if text[max - 1] == NL then max - 1 else LastIndex(text, max - 1)
  }

  lemma {:induction false} NoRuneBefore(text: Bytes, i: nat)
    requires i < |text| && BackOff(text, i) == 0
    ensures NoRune(text, i)
  {
    if i > 0 { NoRuneBefore(text, i - 1); }
  }

  /** Where splitAtLines cuts a text over its limit. */
  function CutLen(text: Bytes, maxLen: nat): (cut: nat)
    requires 1 <= maxLen < |text|
    ensures GoodCut(text, cut, maxLen)
  {
    var at, rune := LastIndex(text, maxLen), BackOff(text, maxLen);
    if rune == 0 then NoRuneBefore(text, maxLen); if at > 0 then at + 1 else maxLen
    else if at > 0 then at + 1 else rune
  }

  lemma {:induction false} BackOffIsLast(b: Bytes, i: nat)
    requires i < |b|
    ensures forall k :: BackOff(b, i) < k <= i ==> !RuneStart(b[k])
  {
    if i > 0 && !RuneStart(b[i]) { BackOffIsLast(b, i - 1); }
  }

  /** No cut leaves out what was in reach: it is behind the very last newline there,
      and without one at the last rune, and with none of these at the limit. */
  lemma CutsAtLast(text: Bytes, max: nat)
    requires 1 <= max < |text|
    ensures var cut := CutLen(text, max);
      if exists k :: 0 < k < max && text[k] == NL then text[cut - 1] == NL && forall k :: cut <= k < max ==> text[k] != NL
      else (RuneStart(text[cut]) || cut == max) && forall k :: cut < k <= max ==> !RuneStart(text[k])
  {
    BackOffIsLast(text, max);
    assert LastIndex(text, max) > 0 <==> exists k :: 0 < k < max && text[k] == NL;
  }

  /** The pieces of text, each cut where CutLen says. */
  function LineCuts(text: Bytes, maxLen: nat): seq<Bytes>
    requires maxLen >= 1
    decreases |text|
  {
    if text == [] then []
    else if |text| <= maxLen then [text]
    else [text[..CutLen(text, maxLen)]] + LineCuts(text[CutLen(text, maxLen)..], maxLen)
  }

  lemma {:induction false} FlattenFirst(first: Bytes, rest: seq<Bytes>)
    ensures Flatten([first] + rest) == Behind(first, Flatten(rest))
    decreases |rest|
  {
    var all, n := [first] + rest, |rest|;
    if n == 0 {
      assert all[..0] == [] && all[0] == first;
    } else {
      assert all[..n] == [first] + rest[..n - 1] && all[n] == rest[n - 1];
      FlattenFirst(first, rest[..n - 1]);
      BehindMore(first, Flatten(rest[..n - 1]), rest[n - 1]);
    }
  }

  lemma Halves<T>(s: seq<T>, n: nat)
    requires n <= |s|
    ensures s == s[..n] + s[n..]
  {
  }

  lemma OneFits(first: Bytes, rest: seq<Bytes>, max: nat)
    requires 0 < |first| <= max && forall i :: 0 <= i < |rest| ==> 0 < |rest[i]| <= max
    ensures forall i :: 0 <= i < |[first] + rest| ==> 0 < |([first] + rest)[i]| <= max
  {
  }

  /** The pieces make up the text, none of them empty or over the limit. */
  lemma {:induction false} CutsMakeUp(text: Bytes, maxLen: nat)
    requires maxLen >= 1
    ensures Flatten(LineCuts(text, maxLen)) == text
    ensures forall i :: 0 <= i < |LineCuts(text, maxLen)| ==> 0 < |LineCuts(text, maxLen)[i]| <= maxLen
    decreases |text|
  {
    if |text| > maxLen {
      var cut := CutLen(text, maxLen);
      var rest := LineCuts(text[cut..], maxLen);
      CutsMakeUp(text[cut..], maxLen);
      FlattenFirst(text[..cut], rest);
      Halves(text, cut);
      OneFits(text[..cut], rest, maxLen);
    } else if text != [] {
      FlattenFirst(text, LineCuts(text[..0], maxLen));
    }
  }

  /** splitAtLines: pieces of at most maxLen bytes that make up text, each cut
      behind the last newline in reach, else at a rune. */
  method SplitAtLines(text: Bytes, maxLen: nat) returns (chunks: seq<Bytes>)
    requires maxLen >= 1
    ensures chunks == LineCuts(text, maxLen) && Flatten(chunks) == text
    ensures forall i :: 0 <= i < |chunks| ==> 0 < |chunks[i]| <= maxLen
  {
    CutsMakeUp(text, maxLen);
    chunks := [];
    var rest := text;
    while |rest| > 0
      invariant chunks + LineCuts(rest, maxLen) == LineCuts(text, maxLen)
      decreases |rest|
    {
      var piece, next := NextPiece(rest, maxLen);
      Regroup(chunks, [piece], LineCuts(next, maxLen));
      chunks, rest := chunks + [piece], next;
    }
  }

  /** The next piece, all of a text that fits. */
  method NextPiece(text: Bytes, maxLen: nat) returns (piece: Bytes, rest: Bytes)
    requires maxLen >= 1 && text != []
    ensures |rest| < |text|
    ensures LineCuts(text, maxLen) == [piece] + LineCuts(rest, maxLen)
  {
    if |text| <= maxLen {
      rest := text[..0];
      return text, rest;
    }
    var cut := CutAt(text, maxLen);
    piece, rest := text[..cut], text[cut..];
  }

  /** Behind the last newline in reach, else at a rune, unless not even one fits. */
  method CutAt(text: Bytes, maxLen: nat) returns (cut: nat)
    requires 1 <= maxLen < |text|
    ensures cut == CutLen(text, maxLen) && GoodCut(text, cut, maxLen)
    ensures LastIndex(text, maxLen) > 0 ==> cut == LastIndex(text, maxLen) + 1
  {
    var at := LastIndex(text, maxLen);
    if at > 0 {
      return at + 1;
    }
    cut := maxLen;
    while cut > 0 && !RuneStart(text[cut])
      invariant cut <= maxLen && BackOff(text, cut) == BackOff(text, maxLen)
    {
      cut := cut - 1;
    }
    if cut == 0 {
      cut := maxLen;
    }
  }

  /** Every cut but the end of the text is a good one in what was left to cut. */
  lemma {:induction false} CutsAreGood(text: Bytes, maxLen: nat, i: nat) returns (rest: Bytes)
    requires maxLen >= 1 && i < |LineCuts(text, maxLen)|
    ensures LineCuts(text, maxLen)[i..] == LineCuts(rest, maxLen) && LineCuts(text, maxLen)[i] <= rest
    ensures if i + 1 == |LineCuts(text, maxLen)| then rest == LineCuts(text, maxLen)[i]
            else |rest| > maxLen && GoodCut(rest, |LineCuts(text, maxLen)[i]|, maxLen)
    decreases |text|
  {
    rest := text;
    if |text| > maxLen {
      var first, later := text[..CutLen(text, maxLen)], text[CutLen(text, maxLen)..];
      if i > 0 {
        rest := CutsAreGood(later, maxLen, i - 1);
        DropFirst(first, LineCuts(later, maxLen), i);
      } else {
        assert LineCuts(later, maxLen) != [];
      }
    }
  }

  lemma DropFirst<T>(first: T, rest: seq<T>, i: nat)
    requires 0 < i <= |rest|
    ensures ([first] + rest)[i..] == rest[i - 1..] && ([first] + rest)[i] == rest[i - 1]
  {
  }

  lemma FlattenMore(chunks: seq<Bytes>, chunk: Bytes)
    ensures Flatten(chunks + [chunk]) == Behind(Flatten(chunks), chunk)
  {
    assert (chunks + [chunk])[..|chunks + [chunk]| - 1] == chunks;
  }
}
