/** splitMarkdown: the buffer and fence state its closures share, line by line. */
module MarkdownSplitter {
  import opened LinkModel
  import opened Streaming
  import opened Markdown

  /** The bytes a fence closed at a chunk's end may add. */
  const CLOSE := 4

  /** Whether a fence is open, and the line that opened it. */
  type State = (bool, Bytes)

  /** What became of a stretch of the text that begins where the fence state is at:
      a chunk of it, with the fence line put before it and the close put after it,
      whole lines unless it is a piece of one; or an opening fence line dropped. */
  datatype Part = Chunk(at: State, reopen: Bytes, core: Bytes, close: Bytes, piece: bool) | Lone(at: State, line: Bytes)

  function CloseOf(s: Bytes): Bytes { if EndsLine(s) then FENCE else [NL] + FENCE }

  /** The fence line a chunk begun at opens with: that of the fence open there, when
      there is room for it. */
  function Reopened(at: State, maxLen: nat): Bytes { if at.0 && Viable(true, at.1, maxLen) then at.1 else [] }

  /** A chunk needs its fence closed: a piece of a line when it is in a reopened one,
      and lines when a fence is open behind them that shows in the chunk. */
  predicate Shut(at: State, reopen: Bytes, core: Bytes, piece: bool) {
    if piece then reopen != [] else InFence(at, core) && (reopen != [] || Fences(core) > 0)
  }

  /** A fence is open behind these lines, begun at: each fence line among them opens or
      closes one. */
  predicate InFence(at: State, lines: Bytes) { at.0 != (Fences(lines) % 2 == 1) }

  /** A chunk fits, opens with the fence open where it begins and has its own closed; and
      a line dropped is one that opens a fence where it stands. */
  predicate Sound(p: Part, maxLen: nat) {
    match p
    case Chunk(at, reopen, core, close, piece) =>
      && core != [] && reopen == Reopened(at, maxLen)
      && close == (if Shut(at, reopen, core, piece) then CloseOf(Behind(reopen, core)) else [])
      && |Wrapped(p)| <= maxLen
    case Lone(at, line) => !at.0 && IsLine(line) && IsFenceLine(line)
  }

  function TextOf(p: Part): Bytes { if p.Chunk? then p.core else p.line }

  function Wrapped(p: Part): Bytes
    requires p.Chunk?
  {
    Behind(Behind(p.reopen, p.core), p.close)
  }

  function Posted(parts: seq<Part>): seq<Bytes> {
    if parts == [] then []
    else
      var p := parts[|parts| - 1];
      Posted(parts[..|parts| - 1]) + if p.Chunk? then [Wrapped(p)] else []
  }

  /** The text without what was put in, and with what was dropped. */
  function Source(parts: seq<Part>): Bytes {
    if parts == [] then [] else Behind(Source(parts[..|parts| - 1]), TextOf(parts[|parts| - 1]))
  }

  predicate AllFit(chunks: seq<Bytes>, max: nat) { forall c :: c in chunks ==> |c| <= max }

  predicate AllBalanced(chunks: seq<Bytes>) { forall c :: c in chunks ==> Balanced(c) }

  predicate AllSound(parts: seq<Part>, maxLen: nat) { forall p :: p in parts ==> Sound(p, maxLen) }

  predicate AllChunks(parts: seq<Part>) { forall p :: p in parts ==> p.Chunk? }

  lemma OneMore(parts: seq<Part>, p: Part)
    ensures Posted(parts + [p]) == Posted(parts) + if p.Chunk? then [Wrapped(p)] else []
    ensures Source(parts + [p]) == Behind(Source(parts), TextOf(p))
  {
    assert (parts + [p])[..|parts + [p]| - 1] == parts;
  }

  lemma {:induction false} PostedFit(parts: seq<Part>, maxLen: nat)
    requires AllSound(parts, maxLen)
    ensures AllFit(Posted(parts), maxLen)
  {
    if |parts| > 0 {
      PostedFit(parts[..|parts| - 1], maxLen);
      assert Sound(parts[|parts| - 1], maxLen);
    }
  }

  /** The fence state after a line. */
  function FenceAfter(inFence: bool, fenceOpen: Bytes, line: Bytes): State {
    if !IsFenceLine(line) then (inFence, fenceOpen) else if inFence then (false, []) else (true, line)
  }

  /** The pieces of a line too long for one chunk, each cut where splitAtLines cuts what
      is left of it at the length a chunk has room for beside the fence line it opens
      with and its close. */
  function CutsOf(line: Bytes, at: State, maxLen: nat): seq<Bytes>
    requires maxLen >= 1
  {
    LineCuts(line, if at.0 && |at.1| + 4 < maxLen then maxLen - |at.1| - 4 else maxLen)
  }

  predicate Viable(inFence: bool, fenceOpen: Bytes, maxLen: nat) { !inFence || |fenceOpen| + CLOSE < maxLen }

  function Budget(inFence: bool, fenceOpen: Bytes, maxLen: nat): (n: nat)
    ensures maxLen >= 1 ==> 1 <= n <= maxLen
  {
    if inFence && |fenceOpen| + CLOSE < maxLen then maxLen - |fenceOpen| - CLOSE else maxLen
  }

  /** The line fits its budget, and leaves room to reopen and close a fence it opens. */
  predicate FitsLine(inFence: bool, fenceOpen: Bytes, line: Bytes, maxLen: nat) {
    && |line| <= Budget(inFence, fenceOpen, maxLen) && Viable(inFence, fenceOpen, maxLen)
    && (!inFence && IsFenceLine(line) ==> |line| + CLOSE < maxLen)
  }

  predicate FitsText(inFence: bool, fenceOpen: Bytes, text: Bytes, maxLen: nat)
    decreases |text|
  {
    text == []
    || (var line := text[..LineLen(text)];
        var (inside, open) := FenceAfter(inFence, fenceOpen, line);
        FitsLine(inFence, fenceOpen, line, maxLen) && FitsText(inside, open, text[LineLen(text)..], maxLen))
  }

  /** A buffer of len bytes that n more, with the close they may need, do not fit behind. */
  predicate Full(len: nat, n: nat, fence: bool, maxLen: nat) { len > 0 && len + n + (if fence then CLOSE else 0) > maxLen }

  /** What was flushed for n bytes to be put behind the buffer b. */
  ghost predicate MakesWay(flushed: Option<Part>, b: Bytes, n: nat, fence: bool, inside: bool, open: Bytes, had: bool, maxLen: nat) {
    && (flushed.Some? ==> ShownAs(flushed.value, b, inside, had))
    && (Viable(inside, open, maxLen) ==> !IsLone(flushed) && (flushed.Some? <==> Full(|b|, n, inside || fence, maxLen)))
  }

  /** What the splitter knows of the fence its buffer is in: core, begun at. */
  ghost predicate Tells(at: State, reopened: Bytes, core: Bytes, inFence: bool, hasOpenFence: bool) {
    core != [] ==> inFence == InFence(at, core) && (hasOpenFence <==> Shut(at, reopened, core, false))
  }

  /** One more line, and the splitter still knows. */
  lemma LineTells(at: State, reopened: Bytes, core: Bytes, inFence: bool, has: bool, line: Bytes)
    requires Tells(at, reopened, core, inFence, has) && (core == [] || EndsLine(core)) && IsLine(line)
    requires core == [] ==> at.0 == inFence && (has <==> inFence && reopened != [])
    ensures if IsFenceLine(line) then Tells(at, reopened, Behind(core, line), !inFence, !inFence)
            else Tells(at, reopened, Behind(core, line), inFence, has)
  {
    OneLine(IsFenceLine, line);
    if core != [] { FencesAdd(core, line, Fences(core), Fences(line)); }
  }

  class Splitter {
    const maxLen: nat
    var chunks: seq<Bytes>
    var b: Bytes
    var inFence: bool
    var fenceOpen: Bytes
    var bufHasOpenFence: bool
    ghost var parts: seq<Part>     // of the chunks so far
    ghost var start: State         // where the buffer's text begins
    ghost var reopened: Bytes      // b is the reopened fence line
    ghost var core: Bytes          // and this stretch of the text

    ghost predicate Valid()
      reads this
    {
      && maxLen >= 1 && Kept()
      && |b| <= maxLen && b == Behind(reopened, core) && (core == [] ==> reopened == [])
      && (reopened != [] ==> IsFenceLine(reopened) && EndsLine(reopened))
      && (inFence ==> IsFenceLine(fenceOpen) && IsLine(fenceOpen))
      && (bufHasOpenFence ==> inFence && b != [] && (b == fenceOpen || |b| + CLOSE <= maxLen))
      && (inFence && b != [] && !bufHasOpenFence ==> !Viable(inFence, fenceOpen, maxLen))
      && (if core == [] then start == State() else reopened == Reopened(start, maxLen))
      && (core != [] && inFence && b == fenceOpen ==> reopened == [] && !start.0)
      && Tells(start, reopened, core, inFence, bufHasOpenFence)
    }

    ghost function State(): State
      reads this`inFence, this`fenceOpen
    {
      (inFence, fenceOpen)
    }

    /** What was buffered, begun at, stays in the buffer or became a part. */
    ghost predicate Moved(was: seq<Part>, at: State, text: Bytes, flushed: Option<Part>)
      reads this`parts, this`start
    {
      && parts == With(was, flushed)
      && if flushed.Some? then Is(flushed.value, at, text) else start == at
    }

    /** The text taken so far. */
    ghost function Taken(): Bytes
      reads this`parts, this`core
    {
      Behind(Source(parts), core)
    }

    /** Only whole lines so far. */
    predicate Whole()
      reads this`b, this`inFence, this`fenceOpen
    {
      (b == [] || EndsLine(b)) && (inFence ==> EndsLine(fenceOpen))
    }

    /** Every chunk is balanced, and the buffer is, but for the fence it is in. */
    predicate Even()
      reads this`chunks, this`b, this`inFence, this`bufHasOpenFence
    {
      && AllBalanced(chunks)
      && (if inFence then b != [] ==> bufHasOpenFence && Fences(b) % 2 == 1 else Balanced(b))
    }

    constructor (maxLen: nat)
      requires maxLen >= 1
      ensures Valid() && Taken() == [] && Even() && Whole() && this.maxLen == maxLen
      ensures !inFence && fenceOpen == [] && b == [] && chunks == []
      ensures View() == Standing(maxLen, [], (false, []), [], (false, [])) && AllLines(View())
    {
      this.maxLen := maxLen;
      chunks, b, inFence, fenceOpen, bufHasOpenFence := [], [], false, [], false;
      parts, start, reopened, core := [], (false, []), [], [];
    }

    /** The chunks so far are those of the parts, and fit. */
    ghost predicate Kept()
      reads this`chunks, this`parts
    {
      chunks == Posted(parts) && AllSound(parts, maxLen)
    }

    method Push(s: Bytes, ghost p: Part)
      requires Kept() && p.Chunk? && Sound(p, maxLen) && s == Wrapped(p) && |s| <= maxLen
      modifies this`chunks, this`parts
      ensures Kept() && chunks == old(chunks) + [s] && parts == old(parts) + [p]
      ensures Source(parts) == Behind(Source(old(parts)), p.core)
    {
      OneMore(parts, p);
      chunks, parts := chunks + [s], parts + [p];
    }

    ghost method Drop(at: State, line: Bytes)
      requires Kept() && Sound(Lone(at, line), maxLen)
      modifies this`parts
      ensures Kept() && Source(parts) == Behind(Source(old(parts)), line) && parts == old(parts) + [Lone(at, line)]
    {
      OneMore(parts, Lone(at, line));
      parts := parts + [Lone(at, line)];
      assert chunks == Posted(parts);
    }

    /** Finalizes the buffer as a chunk, closing an open fence; an opening fence
        line alone is dropped. */
    method Emit() returns (ghost flushed: Option<Part>)
      requires Valid()
      modifies this`chunks, this`b, this`bufHasOpenFence, this`parts, this`start, this`reopened, this`core
      ensures Valid() && b == [] && Taken() == old(Taken())
      ensures parts == With(old(parts), flushed) && start == State() && core == [] && reopened == []
      ensures Source(parts) == old(Taken())
      ensures if old(core) == [] then flushed.None? else flushed.Some? && Is(flushed.value, old(start), old(core))
      ensures IsLone(flushed) <==> old(b) != [] && inFence && old(b) == fenceOpen
      ensures flushed.Some? ==> ShownAs(flushed.value, old(b), inFence, old(bufHasOpenFence))
    {
      flushed := None;
      if b == [] {
        return;
      }
      var s, hadOpenFence := b, bufHasOpenFence;
      ghost var at, before, piece := start, reopened, core;
      b, bufHasOpenFence := [], false;
      start, reopened, core := State(), [], [];
      if inFence && s == fenceOpen {
        Drop(at, s);
        flushed := Some(Lone(at, s));
        return;
      }
      ghost var p := PushPart(s, inFence && hadOpenFence, at, before, piece, false);
      flushed := Some(p);
    }

    /** s as a chunk, closed when its fence is open in it. */
    method PushPart(s: Bytes, close: bool, ghost at: State, ghost reopen: Bytes, ghost piece: Bytes, ghost cut: bool)
      returns (ghost p: Part)
      requires Kept() && piece != [] && reopen == Reopened(at, maxLen) && s == Behind(reopen, piece)
      requires close == Shut(at, reopen, piece, cut)
      requires |s| + (if close then CLOSE else 0) <= maxLen
      modifies this`chunks, this`parts
      ensures Kept() && Source(parts) == Behind(Source(old(parts)), piece)
      ensures parts == old(parts) + [p] && p.Chunk? && p.at == at && p.core == piece && p.piece == cut
      ensures Wrapped(p) == if close then Closed(s) else s
    {
      p := Chunk(at, reopen, piece, if close then CloseOf(s) else [], cut);
      ClosedIs(s);
      Push(if close then Closed(s) else s, p);
    }

    /** The buffer a line that fits is put behind, and whether it is a fresh one. */
    ghost predicate Base(base: Bytes, anew: bool, was: Bytes, inside: bool, open: Bytes)
    {
      base == if !anew then was else if inside && Viable(inside, open, maxLen) then open else []
    }

    /** There is room for n bytes behind the buffer, with the close they may need,
        fence saying whether they are a fence line. */
    ghost predicate Room(n: nat, fence: bool)
      reads this
    {
      && maxLen >= 1 && Kept() && b == Behind(reopened, core) && (b == [] || EndsLine(b))
      && reopened == Reopened(start, maxLen) && (reopened != [] ==> IsFenceLine(reopened) && EndsLine(reopened))
      && (core == [] ==> start == State())
      && (inFence ==> IsFenceLine(fenceOpen) && IsLine(fenceOpen))
      && (bufHasOpenFence ==> inFence && b != []) && (inFence && !bufHasOpenFence ==> !Viable(inFence, fenceOpen, maxLen))
      && Tells(start, reopened, core, inFence, bufHasOpenFence)
      && n <= maxLen && (b == [] || |b| + n + (if bufHasOpenFence || (!inFence && fence) then CLOSE else 0) <= maxLen)
    }

    /** Makes room for a line within its budget: emits a buffer it does not fit
        behind, and reopens the fence on a fresh one. */
    method MakeRoom(n: nat, fence: bool) returns (ghost anew: bool, ghost flushed: Option<Part>)
      requires Valid() && Whole() && n <= Budget(inFence, fenceOpen, maxLen)
      modifies this`chunks, this`b, this`bufHasOpenFence, this`parts, this`start, this`reopened, this`core
      ensures Room(n, fence) && Taken() == old(Taken())
      ensures Moved(old(parts), old(start), old(core), flushed) && (flushed.Some? ==> start == State())
      ensures core == if flushed.Some? then [] else old(core)
      ensures Viable(inFence, fenceOpen, maxLen) ==> !IsLone(flushed)
      ensures Base(b, anew, old(b), inFence, fenceOpen) && (old(b) == [] ==> anew) && (flushed.Some? ==> old(core) != [])
      ensures bufHasOpenFence == if anew then inFence && Viable(inFence, fenceOpen, maxLen) else old(bufHasOpenFence)
      ensures flushed.Some? ==> ShownAs(flushed.value, old(b), inFence, old(bufHasOpenFence))
      ensures flushed.Some? ==> |old(b)| + n + (if old(bufHasOpenFence) || (!inFence && fence) then CLOSE else 0) > maxLen
    {
      flushed := EmitWhenFull(n, fence);
      anew := Refresh(n, fence);
    }

    /** The buffer if there is one, or else a fresh one. */
    method Refresh(n: nat, ghost fence: bool) returns (ghost anew: bool)
      requires Valid() && Whole() && n <= Budget(inFence, fenceOpen, maxLen) && (b != [] ==> Room(n, fence))
      modifies this`b, this`bufHasOpenFence, this`reopened
      ensures Room(n, fence) && anew == (old(b) == [])
      ensures Base(b, anew, old(b), inFence, fenceOpen)
      ensures bufHasOpenFence == if anew then inFence && Viable(inFence, fenceOpen, maxLen) else old(bufHasOpenFence)
    {
      anew := b == [];
      if b == [] {
        ReopenFence(n, fence);
      }
    }

    method EmitWhenFull(n: nat, fence: bool) returns (ghost flushed: Option<Part>)
      requires Valid() && Whole() && n <= Budget(inFence, fenceOpen, maxLen)
      modifies this`chunks, this`b, this`bufHasOpenFence, this`parts, this`start, this`reopened, this`core
      ensures Valid() && Taken() == old(Taken())
      ensures flushed.None? ==>
        b == old(b) && core == old(core) && parts == old(parts) && start == old(start)
        && bufHasOpenFence == old(bufHasOpenFence)
      ensures flushed.Some? ==>
        old(core) != [] && b == [] && core == [] && parts == old(parts) + [flushed.value] && start == State() && Is(flushed.value, old(start), old(core))
      ensures flushed.Some? ==> ShownAs(flushed.value, old(b), inFence, old(bufHasOpenFence))
      ensures Viable(inFence, fenceOpen, maxLen) ==> !IsLone(flushed)
      ensures b != [] ==> Room(n, fence)
      ensures flushed.Some? ==> |old(b)| + n + (if old(bufHasOpenFence) || (!inFence && fence) then CLOSE else 0) > maxLen
    {
      flushed := None;
      var overhead := 0;
      if inFence && bufHasOpenFence {
        overhead := CLOSE;
      } else if inFence && b == [] && Viable(inFence, fenceOpen, maxLen) {
        overhead := |fenceOpen| + CLOSE;
      } else if !inFence && fence {
        overhead := CLOSE;
      }
      if b != [] && |b| + n + overhead > maxLen {
        flushed := Emit();
      }
    }

    /** The open fence's line on a fresh buffer, when it can be reopened. */
    method ReopenFence(n: nat, ghost fence: bool)
      requires Valid() && Whole() && b == [] && n <= Budget(inFence, fenceOpen, maxLen)
      modifies this`b, this`bufHasOpenFence, this`reopened
      ensures Room(n, fence) && b == Reopened(State(), maxLen)
      ensures bufHasOpenFence == (inFence && Viable(inFence, fenceOpen, maxLen))
    {
      if inFence && Viable(inFence, fenceOpen, maxLen) {
        b := fenceOpen;
        bufHasOpenFence := true;
        reopened := fenceOpen;
      }
    }

    /** Puts a line behind the buffer that has room for it. */
    method Take(line: Bytes)
      requires Room(|line|, IsFenceLine(line)) && IsLine(line)
      modifies this`b, this`inFence, this`fenceOpen, this`bufHasOpenFence, this`core
      ensures Valid() && Taken() == Behind(old(Taken()), line) && b == Behind(old(b), line) && core == Behind(old(core), line)
      ensures (inFence, fenceOpen) == FenceAfter(old(inFence), old(fenceOpen), line)
      ensures bufHasOpenFence == if IsFenceLine(line) then !old(inFence) else old(bufHasOpenFence)
    {
      BehindMore(reopened, core, line);
      BehindMore(Source(parts), core, line);
      LineTells(start, reopened, core, inFence, bufHasOpenFence, line);
      if IsFenceLine(line) {
        if inFence {
          inFence, fenceOpen := false, [];
          bufHasOpenFence := false;
        } else {
          inFence, fenceOpen := true, line;
          bufHasOpenFence := true;
        }
      }
      b, core := Behind(b, line), Behind(core, line);
      if inFence && b == fenceOpen {
        OpenedHere(old(b), line, old(inFence), old(fenceOpen), inFence, fenceOpen);
      }
    }

    /** Puts a line within its budget on the buffer, or on a fresh one when it
        does not fit behind what is there. */
    method Append(line: Bytes) returns (ghost base: Bytes, ghost anew: bool, ghost flushed: Option<Part>)
      requires Valid() && Whole() && IsLine(line) && |line| <= Budget(inFence, fenceOpen, maxLen)
      modifies this
      ensures Valid() && Taken() == Behind(old(Taken()), line)
      ensures (inFence, fenceOpen) == FenceAfter(old(inFence), old(fenceOpen), line)
      ensures Moved(old(parts), old(start), old(core), flushed) && (flushed.Some? ==> start == old(State()))
      ensures core == if flushed.Some? then line else Behind(old(core), line)
      ensures MakesWay(flushed, old(b), |line|, IsFenceLine(line), old(inFence), old(fenceOpen), old(bufHasOpenFence), maxLen)
      ensures b == Behind(base, line) && Base(base, anew, old(b), old(inFence), old(fenceOpen)) && (old(b) == [] ==> anew) && (flushed.Some? ==> old(core) != [])
      ensures bufHasOpenFence == if IsFenceLine(line) then !old(inFence)
        else if anew then old(inFence) && Viable(old(inFence), old(fenceOpen), maxLen) else old(bufHasOpenFence)
    {
      anew, flushed := MakeRoom(|line|, IsFenceLine(line));
      base := b;
      Take(line);
    }

    /** The pieces of a line as chunks, each in the fence open when wrap is set. */
    method PushAll(pieces: seq<Bytes>, open: Bytes, wrap: bool, ghost at: State)
      returns (ghost more: seq<Part>)
      requires Kept() && pieces != [] && Reopened(at, maxLen) == (if wrap then open else []) && (wrap ==> open != [])
      requires forall i :: 0 <= i < |pieces| ==> FitsPiece(pieces[i], open, wrap)
      modifies this`chunks, this`parts
      ensures Kept() && Source(parts) == Behind(Source(old(parts)), Flatten(pieces))
      ensures parts == old(parts) + more && Pieces(more, pieces, at)
    {
      ghost var parts0, was, done: seq<Bytes> := parts, Source(parts), pieces[..0];
      more := NonePushed(parts0, done, at);
      var i := 0;
      while i < |pieces|
        invariant i <= |pieces| && done == pieces[..i]
        invariant Kept() && Pushed(parts0, was, parts, done, at, more)
      {
        more := PushNext(pieces[i], open, wrap, at, parts0, was, done, more);
        TakeNext(pieces, i);
        done := done + [pieces[i]];
        i := i + 1;
      }
      TakeAll(pieces);
      AllPushed(parts0, was, parts, done, at, more);
    }

    method PushNext(piece: Bytes, open: Bytes, wrap: bool, ghost at: State, ghost parts0: seq<Part>, ghost was: Bytes,
                    ghost done: seq<Bytes>, ghost more: seq<Part>) returns (ghost more1: seq<Part>)
      requires Kept() && FitsPiece(piece, open, wrap) && Reopened(at, maxLen) == (if wrap then open else []) && (wrap ==> open != [])
      requires Pushed(parts0, was, parts, done, at, more)
      modifies this`chunks, this`parts
      ensures Kept() && Pushed(parts0, was, parts, done + [piece], at, more1)
    {
      ghost var before := parts;
      ghost var p := PushPiece(piece, open, wrap, at);
      PushedNext(parts0, was, before, done, piece, at, more, p);
      more1 := more + [p];
    }

    method PushPiece(piece: Bytes, open: Bytes, wrap: bool, ghost at: State) returns (ghost p: Part)
      requires Kept() && FitsPiece(piece, open, wrap) && Reopened(at, maxLen) == (if wrap then open else []) && (wrap ==> open != [])
      modifies this`chunks, this`parts
      ensures Kept() && Source(parts) == Behind(Source(old(parts)), piece)
      ensures parts == old(parts) + [p] && p.Chunk? && p.at == at && p.core == piece && p.piece
    {
      var s := if wrap then Behind(open, piece) else piece;
      p := PushPart(s, wrap, at, Reopened(at, maxLen), piece, true);
    }

    predicate FitsPiece(piece: Bytes, open: Bytes, wrap: bool) {
      piece != [] && |piece| + (if wrap then |open| + CLOSE else 0) <= maxLen
    }

    method CutLine(line: Bytes, wrap: bool) returns (cut: seq<Bytes>)
      requires Valid() && line != [] && wrap == (inFence && Viable(inFence, fenceOpen, maxLen))
      ensures cut == CutsOf(line, State(), maxLen) && Flatten(cut) == line && cut != []
      ensures forall i :: 0 <= i < |cut| ==> FitsPiece(cut[i], fenceOpen, wrap)
    {
      cut := SplitAtLines(line, Budget(inFence, fenceOpen, maxLen));
    }

    /** Cuts a line over its budget into chunks of its own, each in a fence of its
        own inside one. */
    method HardSplit(line: Bytes) returns (ghost pieces: seq<Bytes>, ghost more: seq<Part>)
      requires Valid() && b == [] && IsLine(line) && |line| > Budget(inFence, fenceOpen, maxLen)
      modifies this`chunks, this`inFence, this`fenceOpen, this`parts, this`start
      ensures Valid() && Source(parts) == Behind(Source(old(parts)), line)
      ensures (inFence, fenceOpen) == FenceAfter(old(inFence), old(fenceOpen), line)
      ensures parts == old(parts) + more && Pieces(more, pieces, old(State())) && Flatten(pieces) == line
      ensures pieces == CutsOf(line, old(State()), maxLen)
      ensures forall k :: 0 <= k < |pieces| ==> pieces[k] != []
    {
      var wrap := inFence && Viable(inFence, fenceOpen, maxLen);
      var cut := CutLine(line, wrap);
      pieces := cut;
      more := PushAll(cut, fenceOpen, wrap, State());
      Toggle(line);
    }

    /** The fence state moves on over a line that never enters the buffer. */
    method Toggle(line: Bytes)
      requires Valid() && b == [] && IsLine(line)
      modifies this`inFence, this`fenceOpen, this`start
      ensures Valid() && (inFence, fenceOpen) == FenceAfter(old(inFence), old(fenceOpen), line)
    {
      if IsFenceLine(line) {
        if inFence {
          inFence, fenceOpen := false, [];
        } else {
          inFence, fenceOpen := true, line;
        }
      }
      start := State();
    }

    /** A line over its budget: flushes the buffer, and cuts the line up. */
    method SplitLine(line: Bytes, ghost inv: View -> bool)
      requires Valid() && IsLine(line) && |line| > Budget(inFence, fenceOpen, maxLen) && AllLines(View())
      modifies this
      ensures Valid() && b == [] && core == [] && Source(parts) == Behind(old(Taken()), line)
      ensures (inFence, fenceOpen) == FenceAfter(old(inFence), old(fenceOpen), line)
      ensures KeptBy(inv) && inv(old(View())) ==> inv(View())
    {
      ghost var x := View();
      ghost var flushed := Emit();
      ghost var mid := parts;
      ghost var pieces, more := HardSplit(line);
      CutSteps(inv, x, line, mid, View(), flushed, pieces, more);
    }

    /** A line within its budget leaves an even buffer even, when it fits. */
    method AppendEven(line: Bytes) returns (ghost flushed: Option<Part>)
      requires Valid() && Whole() && IsLine(line) && |line| <= Budget(inFence, fenceOpen, maxLen)
      modifies this
      ensures Valid() && Taken() == Behind(old(Taken()), line)
      ensures (inFence, fenceOpen) == FenceAfter(old(inFence), old(fenceOpen), line)
      ensures Moved(old(parts), old(start), old(core), flushed) && (flushed.Some? ==> start == old(State()))
      ensures core == if flushed.Some? then line else Behind(old(core), line)
      ensures MakesWay(flushed, old(b), |line|, IsFenceLine(line), old(inFence), old(fenceOpen), old(bufHasOpenFence), maxLen)
      ensures (b == [] || EndsLine(b)) == EndsLine(line)
      ensures old(Even()) && FitsLine(old(inFence), old(fenceOpen), line, maxLen) ==> Even()
      ensures flushed.Some? ==> old(core) != []
    {
      ghost var b0, open0, in0, has0, parts0, even := b, fenceOpen, inFence, bufHasOpenFence, parts, Even();
      ghost var base, anew;
      base, anew, flushed := Append(line);
      EndsAs(base, line);
      Nothing(line, base);
      if even && FitsLine(in0, open0, line, maxLen) {
        EvenStays(parts0, flushed, b0, in0, open0, has0, line, base, anew, maxLen);
      }
    }

    /** A line within its budget. */
    method PutLine(line: Bytes, ghost inv: View -> bool)
      requires Valid() && Whole() && AllLines(View()) && IsLine(line) && |line| <= Budget(inFence, fenceOpen, maxLen)
      modifies this
      ensures Valid() && Taken() == Behind(old(Taken()), line)
      ensures (inFence, fenceOpen) == FenceAfter(old(inFence), old(fenceOpen), line)
      ensures KeptBy(inv) && inv(old(View())) ==> inv(View())
      ensures (b == [] || EndsLine(b)) == EndsLine(line)
      ensures Viable(old(inFence), old(fenceOpen), maxLen) && AllChunks(old(parts)) ==> AllChunks(parts)
      ensures old(Even()) && FitsLine(old(inFence), old(fenceOpen), line, maxLen) ==> Even()
    {
      ghost var x := View();
      assert |b| == Length(x);
      ghost var flushed := AppendEven(line);
      BufferedSteps(inv, x, line, View(), flushed);
    }

    /** One line of the text. */
    method AddLine(line: Bytes, ghost inv: View -> bool)
      requires Valid() && Whole() && AllLines(View()) && IsLine(line)
      modifies this
      ensures Valid() && Taken() == Behind(old(Taken()), line)
      ensures (inFence, fenceOpen) == FenceAfter(old(inFence), old(fenceOpen), line)
      ensures EndsLine(line) ==> Whole() && AllLines(View())
      ensures KeptBy(inv) && inv(old(View())) ==> inv(View())
      ensures AllChunks(old(parts)) && FitsLine(old(inFence), old(fenceOpen), line, maxLen) ==> AllChunks(parts)
      ensures old(Even()) && FitsLine(old(inFence), old(fenceOpen), line, maxLen) ==> Even()
    {
      EndsAs(Taken(), line);
      if |line| > Budget(inFence, fenceOpen, maxLen) {
        SplitLine(line, inv);
      } else {
        PutLine(line, inv);
      }
    }

    ghost function View(): View
      reads this`parts, this`start, this`core, this`inFence, this`fenceOpen
    {
      Standing(maxLen, parts, start, core, State())
    }

    /** All lines of a text. */
    method AddLines(text: Bytes, ghost inv: View -> bool)
      requires Valid() && Whole() && AllLines(View())
      modifies this
      ensures Valid() && Taken() == Behind(old(Taken()), text)
      ensures KeptBy(inv) && inv(old(View())) ==> inv(View())
      ensures AllChunks(old(parts)) && FitsText(old(inFence), old(fenceOpen), text, maxLen) ==> AllChunks(parts)
      ensures old(Even()) && FitsText(old(inFence), old(fenceOpen), text, maxLen) ==> Even()
    {
      var rest := text;
      ghost var was := Taken();
      ghost var fits, even, whole := FitsText(inFence, fenceOpen, text, maxLen), Even(), AllChunks(parts);
      while rest != []
        invariant Valid() && (rest != [] ==> Whole() && AllLines(View())) && Behind(Taken(), rest) == Behind(was, text)
        invariant KeptBy(inv) && inv(old(View())) ==> inv(View())
        invariant fits ==> FitsText(inFence, fenceOpen, rest, maxLen) && (even ==> Even()) && (whole ==> AllChunks(parts))
        decreases |rest|
      {
        var n := LineLen(rest);
        var line := rest[..n];
        FirstIsLine(rest);
        Advance(Taken(), rest, n, Behind(was, text));
        if fits { FitsFirst(inFence, fenceOpen, rest, maxLen); }
        AddLine(line, inv);
        rest := rest[n..];
      }
    }

    /** The last emit. */
    method Finish() returns (ghost flushed: Option<Part>)
      requires Valid()
      modifies this`chunks, this`b, this`bufHasOpenFence, this`parts, this`start, this`reopened, this`core
      ensures Kept() && Source(parts) == old(Taken()) && parts == With(old(parts), flushed)
      ensures if flushed.Some? then old(core) != [] && Is(flushed.value, old(start), old(core)) else old(core) == []
      ensures old(Even()) ==> AllBalanced(chunks)
      ensures IsLone(flushed) <==> old(core) != [] && !old(start).0 && State() == (true, old(core))
    {
      ghost var even, b0, parts0, has0 := Even(), b, parts, bufHasOpenFence;
      flushed := Emit();
      if even { EmitKeepsEven(parts0, flushed, b0, inFence, has0, Fences(b0)); }
    }

    /** All lines, and the last emit. */
    method Split(text: Bytes, ghost inv: View -> bool) returns (ghost x: View, ghost flushed: Option<Part>)
      requires Valid() && Whole() && AllLines(View())
      modifies this
      ensures Kept() && Source(parts) == Behind(old(Taken()), text) && parts == With(x.parts, flushed)
      ensures KeptBy(inv) && inv(old(View())) ==> inv(x)
      ensures x.maxLen == maxLen
      ensures if flushed.Some? then x.core != [] && Is(flushed.value, x.start, x.core) else x.core == []
      ensures IsLone(flushed) <==> LoneBuffer(x)
      ensures FitsText(old(inFence), old(fenceOpen), text, maxLen) ==>
        (old(Even()) ==> AllBalanced(chunks)) && (AllChunks(old(parts)) ==> AllChunks(x.parts))
    {
      AddLines(text, inv);
      x := View();
      flushed := Finish();
    }
  }

  /** How a splitter stands: the parts so far, and what it buffers, begun at start;
      state is the fence state behind all of that. */
  datatype View = Standing(maxLen: nat, parts: seq<Part>, start: State, core: Bytes, state: State)

  /** What a line's step flushed, and what parts the line became if it was cut. */
  datatype Deed = Buffered(flushed: Option<Part>) | Cut(flushed: Option<Part>, pieces: seq<Bytes>, more: seq<Part>)

  /** The length of what is buffered, with the fence line it opens with. */
  function Length(x: View): nat { if x.core == [] then 0 else |Reopened(x.start, x.maxLen)| + |x.core| }

  predicate OverFull(x: View, line: Bytes) { Full(Length(x), |line|, x.state.0 || IsFenceLine(line), x.maxLen) }

  /** A line's step: what was buffered stays or becomes a part, and the line goes
      behind what is buffered, or becomes parts of its own. */
  ghost predicate Stepped(x: View, line: Bytes, y: View, d: Deed) {
    && y.maxLen == x.maxLen && y.state == FenceAfter(x.state.0, x.state.1, line)
    && (if d.flushed.Some? then x.core != [] && Is(d.flushed.value, x.start, x.core) else d.Cut? ==> x.core == [])
    && (d.Cut? <==> |line| > Budget(x.state.0, x.state.1, x.maxLen))
    && match d
       case Buffered(flushed) =>
         && y.parts == With(x.parts, flushed)
         && y.core == (if flushed.Some? then line else Behind(x.core, line))
         && y.start == (if flushed.Some? then x.state else x.start)
         && (Viable(x.state.0, x.state.1, x.maxLen) ==> (flushed.Some? <==> OverFull(x, line)))
       case Cut(flushed, pieces, more) =>
         && y.parts == With(x.parts, flushed) + more && y.core == [] && y.start == y.state
         && Pieces(more, pieces, x.state) && Flatten(pieces) == line && (forall k :: 0 <= k < |pieces| ==> pieces[k] != [])
         && (x.maxLen >= 1 ==> pieces == CutsOf(line, x.state, x.maxLen))
  }

  /** All of the text so far. */
  function Text(x: View): Bytes { Behind(Source(x.parts), x.core) }

  /** Complete lines so far. */
  ghost predicate AllLines(x: View) { Text(x) == [] || EndsLine(Text(x)) }

  /** Every line's step keeps inv. */
  ghost predicate KeptBy(inv: View -> bool) {
    forall x, line, y, d :: inv(x) && AllLines(x) && IsLine(line) && Stepped(x, line, y, d) ==> inv(y)
  }

  lemma CutSteps(inv: View -> bool, x: View, line: Bytes, mid: seq<Part>, y: View, flushed: Option<Part>,
                 pieces: seq<Bytes>, more: seq<Part>)
    requires AllLines(x) && IsLine(line) && mid == With(x.parts, flushed) && y.parts == mid + more && y.core == [] && y.start == y.state
    requires if flushed.Some? then x.core != [] && Is(flushed.value, x.start, x.core) else x.core == []
    requires y.maxLen == x.maxLen && |line| > Budget(x.state.0, x.state.1, x.maxLen)
    requires y.state == FenceAfter(x.state.0, x.state.1, line) && Pieces(more, pieces, x.state) && Flatten(pieces) == line
    requires (forall k :: 0 <= k < |pieces| ==> pieces[k] != []) && (x.maxLen >= 1 ==> pieces == CutsOf(line, x.state, x.maxLen))
    ensures KeptBy(inv) && inv(x) ==> inv(y)
  {
    assert Stepped(x, line, y, Cut(flushed, pieces, more));
  }

  lemma BufferedSteps(inv: View -> bool, x: View, line: Bytes, y: View, flushed: Option<Part>)
    requires AllLines(x) && IsLine(line) && y.parts == With(x.parts, flushed)
    requires if flushed.Some? then x.core != [] && Is(flushed.value, x.start, x.core) && y.start == x.state else y.start == x.start
    requires y.maxLen == x.maxLen && |line| <= Budget(x.state.0, x.state.1, x.maxLen)
    requires y.core == (if flushed.Some? then line else Behind(x.core, line)) && y.state == FenceAfter(x.state.0, x.state.1, line)
    requires Viable(x.state.0, x.state.1, x.maxLen) ==> (flushed.Some? <==> OverFull(x, line))
    ensures KeptBy(inv) && inv(x) ==> inv(y)
    ensures !IsLone(flushed) && AllChunks(x.parts) ==> AllChunks(y.parts)
  {
    assert Stepped(x, line, y, Buffered(flushed));
  }

  function With(parts: seq<Part>, p: Option<Part>): seq<Part> { if p.Some? then parts + [p.value] else parts }

  predicate Is(p: Part, at: State, text: Bytes) { p.at == at && TextOf(p) == text }

  /** A chunk shows the buffer b it was made of, closed when its fence is open in it. */
  predicate ShownAs(p: Part, b: Bytes, inFence: bool, hadOpenFence: bool) {
    p.Chunk? ==> b != [] && Wrapped(p) == if inFence && hadOpenFence then Closed(b) else b
  }

  predicate IsLone(p: Option<Part>) { p.Some? && p.value.Lone? }

  /** The pieces of a line as chunks, each begun at. */
  predicate Pieces(more: seq<Part>, pieces: seq<Bytes>, at: State) {
    |more| == |pieces| && forall i :: 0 <= i < |more| ==> more[i].Chunk? && more[i].at == at && more[i].core == pieces[i]
  }

  /** The pieces as parts more behind those there were. */
  ghost predicate Pushed(parts: seq<Part>, was: Bytes, parts1: seq<Part>, pieces: seq<Bytes>, at: State, more: seq<Part>) {
    && parts1 == (if more == [] then parts else parts + more) && Pieces(more, pieces, at)
    && Source(parts1) == Behind(was, Flatten(pieces))
  }

  lemma NonePushed(parts: seq<Part>, none: seq<Bytes>, at: State) returns (more: seq<Part>)
    requires |none| == 0
    ensures Pushed(parts, Source(parts), parts, none, at, more)
  {
    more := [];
    Nothing(Source(parts), Flatten(none));
  }

  lemma AllPushed(parts: seq<Part>, was: Bytes, parts1: seq<Part>, pieces: seq<Bytes>, at: State, more: seq<Part>)
    requires Pushed(parts, was, parts1, pieces, at, more) && pieces != []
    ensures parts1 == parts + more && Pieces(more, pieces, at) && Source(parts1) == Behind(was, Flatten(pieces))
  {
  }

  lemma PushedNext(parts: seq<Part>, was: Bytes, parts1: seq<Part>, pieces: seq<Bytes>, piece: Bytes, at: State, more: seq<Part>, p: Part)
    requires Pushed(parts, was, parts1, pieces, at, more) && p.Chunk? && p.at == at && p.core == piece
    ensures Pushed(parts, was, parts1 + [p], pieces + [piece], at, more + [p])
  {
    OneMore(parts1, p);
    FlattenMore(pieces, piece);
    BehindMore(was, Flatten(pieces), piece);
    PiecesMore(more, pieces, at, p);
    if more != [] { Regroup(parts, more, [p]); }
  }

  lemma PiecesMore(more: seq<Part>, pieces: seq<Bytes>, at: State, p: Part)
    requires Pieces(more, pieces, at) && p.Chunk? && p.at == at
    ensures Pieces(more + [p], pieces + [p.core], at)
  {
  }

  lemma TakeNext<T>(s: seq<T>, i: nat)
    requires i < |s|
    ensures s[..i] + [s[i]] == s[..i + 1]
  {
  }

  lemma TakeAll<T>(s: seq<T>)
    ensures s[..|s|] == s
  {
  }

  lemma FlattenNext(was: Bytes, pieces: seq<Bytes>, i: nat)
    requires i < |pieces|
    ensures Behind(was, Flatten(pieces[..i + 1])) == Behind(Behind(was, Flatten(pieces[..i])), pieces[i])
  {
    assert pieces[..i + 1] == pieces[..i] + [pieces[i]];
    FlattenMore(pieces[..i], pieces[i]);
    BehindMore(was, Flatten(pieces[..i]), pieces[i]);
  }

  /** A buffer that is its fence's opening line holds just that line, put there
      outside a fence. */
  lemma OpenedHere(base: Bytes, line: Bytes, inFence: bool, fenceOpen: Bytes, inside: bool, open: Bytes)
    requires (base == [] || EndsLine(base)) && IsLine(line)
    requires inFence ==> IsLine(fenceOpen) && IsFenceLine(fenceOpen)
    requires (inside, open) == FenceAfter(inFence, fenceOpen, line) && inside && Behind(base, line) == open
    ensures base == [] && !inFence
  {
    if base != [] {
      LineLenJoins(base, line);
    }
  }

  lemma Advance(before: Bytes, rest: Bytes, n: nat, all: Bytes)
    requires 0 < n <= |rest| && Behind(before, rest) == all
    ensures Behind(Behind(before, rest[..n]), rest[n..]) == all
  {
    assert rest == rest[..n] + rest[n..];
    BehindMore(before, rest[..n], rest[n..]);
  }

  lemma FitsFirst(inFence: bool, fenceOpen: Bytes, text: Bytes, maxLen: nat)
    requires text != [] && FitsText(inFence, fenceOpen, text, maxLen)
    ensures var line := text[..LineLen(text)];
      var (inside, open) := FenceAfter(inFence, fenceOpen, line);
      FitsLine(inFence, fenceOpen, line, maxLen) && FitsText(inside, open, text[LineLen(text)..], maxLen)
  {
  }

  lemma EndsAs(base: Bytes, line: Bytes)
    requires line != []
    ensures EndsLine(Behind(base, line)) == EndsLine(line)
  {
  }

  /** A line put behind base leaves it balanced but for the fence it is in. */
  lemma AppendKeepsEven(base: Bytes, anew: bool, was: Bytes, inside: bool, open: Bytes, line: Bytes, n: nat)
    requires IsLine(line) && Fences(was) == n && (was == [] || EndsLine(was))
    requires inside ==> IsLine(open) && IsFenceLine(open) && EndsLine(open)
    requires if inside then was != [] ==> n % 2 == 1 else n % 2 == 0
    requires base == if !anew then was else if inside then open else []
    requires was == [] ==> anew
    ensures (Fences(Behind(base, line)) % 2 == 1) <==> (inside != IsFenceLine(line))
  {
    OneLine(IsFenceLine, line);
    if inside { OneLine(IsFenceLine, open); }
    if base != [] { FencesAdd(base, line, Fences(base), Fences(line)); }
  }

  lemma ClosedIs(s: Bytes)
    ensures Closed(s) == s + CloseOf(s) && |Closed(s)| <= |s| + CLOSE
  {
    if !EndsLine(s) { assert s + CloseOf(s) == s + [NL] + FENCE; }
  }

  lemma EmitKeepsEven(parts: seq<Part>, flushed: Option<Part>, b: Bytes, inFence: bool, hadOpenFence: bool, n: nat)
    requires AllBalanced(Posted(parts)) && Fences(b) == n
    requires if inFence then b != [] ==> hadOpenFence && n % 2 == 1 else n % 2 == 0
    requires flushed.Some? ==> ShownAs(flushed.value, b, inFence, hadOpenFence)
    ensures AllBalanced(Posted(With(parts, flushed)))
  {
    if flushed.Some? {
      OneMore(parts, flushed.value);
      if inFence && flushed.value.Chunk? { ClosedIsBalanced(b, n); }
    }
  }

  lemma EvenStays(parts: seq<Part>, flushed: Option<Part>, b: Bytes, inFence: bool, open: Bytes, has: bool, line: Bytes,
                  base: Bytes, anew: bool, maxLen: nat)
    requires AllBalanced(Posted(parts)) && if inFence then b != [] ==> has && Fences(b) % 2 == 1 else Balanced(b)
    requires IsLine(line) && FitsLine(inFence, open, line, maxLen) && (b == [] || EndsLine(b))
    requires inFence ==> IsLine(open) && IsFenceLine(open) && EndsLine(open)
    requires flushed.Some? ==> ShownAs(flushed.value, b, inFence, has)
    requires base == (if !anew then b else if inFence then open else []) && (b == [] ==> anew)
    ensures AllBalanced(Posted(With(parts, flushed)))
    ensures (Fences(Behind(base, line)) % 2 == 1) <==> (inFence != IsFenceLine(line))
  {
    EmitKeepsEven(parts, flushed, b, inFence, has, Fences(b));
    AppendKeepsEven(base, anew, b, inFence, open, line, Fences(b));
  }

  // --- the fence state behind a text ----------------------------------------------------------

  lemma FenceLineIs(inFence: bool, fenceOpen: Bytes, line: Bytes)
    requires IsLine(line)
    ensures FenceFrom(inFence, fenceOpen, line) ==
      if EndsLine(line) then FenceAfter(inFence, fenceOpen, line) else (inFence, fenceOpen)
  {
    assert line[..|line|] == line && |line[|line|..]| == 0;
  }

  lemma {:induction false} FenceJoins(inFence: bool, fenceOpen: Bytes, a: Bytes, b: Bytes)
    requires a == [] || EndsLine(a)
    ensures FenceFrom(inFence, fenceOpen, a + b) == FenceFrom(FenceFrom(inFence, fenceOpen, a).0, FenceFrom(inFence, fenceOpen, a).1, b)
    decreases |a|
  {
    if |a| == 0 {
      NothingFirst(a, b);
    } else {
      LineLenJoins(a, b);
      var n := LineLen(a);
      CutJoined(a, b, n);
      if n == |a| { assert a[..n] == a; }
      var (inside, open) := FenceAfter(inFence, fenceOpen, a[..n]);
      FenceJoins(inside, open, a[n..], b);
    }
  }

  /** A line behind complete lines moves the state by itself. */
  lemma FenceMore(text: Bytes, line: Bytes)
    requires (text == [] || EndsLine(text)) && IsLine(line)
    ensures FenceIn(Behind(text, line)) ==
      if EndsLine(line) then FenceAfter(FenceIn(text).0, FenceIn(text).1, line) else FenceIn(text)
  {
    if text != [] { FenceJoins(false, [], text, line); }
    FenceLineIs(FenceIn(text).0, FenceIn(text).1, line);
  }

  lemma {:induction false} StartOfLine(line: Bytes, n: nat)
    requires n < LineLen(line)
    ensures LineLen(line[..n]) == n && !EndsLine(line[..n])
  {
    if n > 0 {
      StartOfLine(line[1..], n - 1);
      assert line[..n][1..] == line[1..][..n - 1];
      assert n > 1 ==> line[..n][|line[..n]| - 1] == line[1..][..n - 1][n - 2];
    }
  }

  /** Within a line the state is that before it. */
  lemma FenceWithin(text: Bytes, line: Bytes, n: nat)
    requires (text == [] || EndsLine(text)) && IsLine(line) && n < |line|
    ensures FenceIn(Behind(text, line[..n])) == FenceIn(text)
  {
    StartOfLine(line, n);
    if text != [] { FenceJoins(false, [], text, line[..n]); }
    assert line[..n][..n] == line[..n];
  }

  /** The fence state after the complete lines of text. */
  function FenceFrom(inFence: bool, fenceOpen: Bytes, text: Bytes): State
    decreases |text|
  {
    var line := text[..LineLen(text)];
    if !EndsLine(line) then (inFence, fenceOpen)
    else
      var (inside, open) := FenceAfter(inFence, fenceOpen, line);
      FenceFrom(inside, open, text[LineLen(text)..])
  }

  function FenceIn(text: Bytes): State { FenceFrom(false, [], text) }

  lemma {:induction false} FlattenTakes(pieces: seq<Bytes>, i: nat)
    requires i < |pieces| && forall k :: 0 <= k < |pieces| ==> pieces[k] != []
    ensures Flatten(pieces[..i]) <= Flatten(pieces) && |Flatten(pieces[..i])| < |Flatten(pieces)|
    decreases |pieces|
  {
    var n := |pieces| - 1;
    if i < n {
      FlattenTakes(pieces[..n], i);
      assert pieces[..n][..i] == pieces[..i];
    }
  }

  lemma PieceWithin(text: Bytes, line: Bytes, pieces: seq<Bytes>, i: nat)
    requires (text == [] || EndsLine(text)) && IsLine(line) && Flatten(pieces) == line && i < |pieces|
    requires forall k :: 0 <= k < |pieces| ==> pieces[k] != []
    ensures FenceIn(Behind(text, Flatten(pieces[..i]))) == FenceIn(text)
  {
    FlattenTakes(pieces, i);
    PartWithin(text, line, Flatten(pieces[..i]));
  }

  lemma PartWithin(text: Bytes, line: Bytes, part: Bytes)
    requires (text == [] || EndsLine(text)) && IsLine(line) && part <= line && |part| < |line|
    ensures FenceIn(Behind(text, part)) == FenceIn(text)
  {
    assert part == line[..|part|];
    FenceWithin(text, line, |part|);
  }

  // --- every part in its place -----------------------------------------------------------

  /** Every part begins where the fence state is what it says, fence giving the
      state behind each stretch of the text: FenceIn. */
  predicate Placed(fence: Bytes -> State, parts: seq<Part>) {
    parts == []
    || (Placed(fence, parts[..|parts| - 1]) && parts[|parts| - 1].at == fence(Source(parts[..|parts| - 1])))
  }

  lemma PlacedMore(fence: Bytes -> State, parts: seq<Part>, p: Part, at: State, text: Bytes)
    requires Placed(fence, parts) && Is(p, at, text) && at == fence(Source(parts))
    ensures Placed(fence, parts + [p]) && Source(parts + [p]) == Behind(Source(parts), text)
  {
    assert (parts + [p])[..|parts + [p]| - 1] == parts;
  }

  /** The parts and the buffer begin where they say, and the state is that behind them. */
  ghost predicate InPlace(x: View) {
    && Placed(FenceIn, x.parts) && x.start == (if x.core == [] then x.state else FenceIn(Source(x.parts)))
    && (AllLines(x) ==> FenceIn(Text(x)) == x.state)
  }

  lemma {:induction false} PiecesPlaced(fence: Bytes -> State, parts: seq<Part>, pieces: seq<Bytes>, more: seq<Part>, at: State, i: nat)
    requires Placed(fence, parts) && at == fence(Source(parts)) && Pieces(more, pieces, at) && 0 < i <= |pieces|
    requires forall k :: 0 < k < |pieces| ==> fence(Behind(Source(parts), Flatten(pieces[..k]))) == at
    ensures Placed(fence, parts + more[..i]) && Source(parts + more[..i]) == Behind(Source(parts), Flatten(pieces[..i]))
    decreases i
  {
    FlattenNext(Source(parts), pieces, i - 1);
    if i == 1 {
      PlacedMore(fence, parts, more[0], at, pieces[0]);
      assert more[..1] == [more[0]];
    } else {
      PiecesPlaced(fence, parts, pieces, more, at, i - 1);
      PlacedMore(fence, parts + more[..i - 1], more[i - 1], at, pieces[i - 1]);
      MoreNext(parts, more, i - 1);
    }
  }

  lemma MoreNext<T>(a: seq<T>, b: seq<T>, i: nat)
    requires i < |b|
    ensures a + b[..i + 1] == (a + b[..i]) + [b[i]]
  {
  }

  /** What was buffered in its place, flushed or not. */
  lemma FlushInPlace(x: View, flushed: Option<Part>)
    requires InPlace(x) && if flushed.Some? then Is(flushed.value, x.start, x.core) else x.core == []
    requires AllLines(x) || x.core != []
    ensures Placed(FenceIn, With(x.parts, flushed)) && Source(With(x.parts, flushed)) == Text(x)
  {
    if flushed.Some? {
      PlacedMore(FenceIn, x.parts, flushed.value, x.start, x.core);
    }
  }

  lemma BufferedInPlace(x: View, line: Bytes, y: View, flushed: Option<Part>)
    requires InPlace(x) && AllLines(x) && IsLine(line) && Stepped(x, line, y, Buffered(flushed))
    ensures InPlace(y) && Text(y) == Behind(Text(x), line)
  {
    FenceMore(Text(x), line);
    EndsAs(Text(x), line);
    BehindMore(Source(x.parts), x.core, line);
    if flushed.Some? {
      FlushInPlace(x, flushed);
    }
  }

  lemma CutInPlace(x: View, line: Bytes, y: View, flushed: Option<Part>, pieces: seq<Bytes>, more: seq<Part>)
    requires InPlace(x) && AllLines(x) && IsLine(line) && Stepped(x, line, y, Cut(flushed, pieces, more))
    ensures InPlace(y) && Text(y) == Behind(Text(x), line)
  {
    var mid := With(x.parts, flushed);
    FlushInPlace(x, flushed);
    AllPlaced(mid, line, pieces, more, x.state);
    LineInPlace(Source(mid), line, y, x.state);
  }

  lemma AllPlaced(parts: seq<Part>, line: Bytes, pieces: seq<Bytes>, more: seq<Part>, at: State)
    requires Placed(FenceIn, parts) && (Source(parts) == [] || EndsLine(Source(parts))) && IsLine(line) && Flatten(pieces) == line
    requires at == FenceIn(Source(parts)) && Pieces(more, pieces, at)
    requires forall k :: 0 <= k < |pieces| ==> pieces[k] != []
    ensures Placed(FenceIn, parts + more) && Source(parts + more) == Behind(Source(parts), line)
  {
    forall k | 0 < k < |pieces| ensures FenceIn(Behind(Source(parts), Flatten(pieces[..k]))) == at {
      PieceWithin(Source(parts), line, pieces, k);
    }
    PiecesPlaced(FenceIn, parts, pieces, more, at, |pieces|);
    assert more[..|pieces|] == more && pieces[..|pieces|] == pieces;
  }

  /** Behind text comes a line, and nothing is buffered. */
  lemma LineInPlace(text: Bytes, line: Bytes, y: View, state: State)
    requires (text == [] || EndsLine(text)) && IsLine(line) && FenceIn(text) == state
    requires Placed(FenceIn, y.parts) && Source(y.parts) == Behind(text, line) && y.core == [] && y.start == y.state
    requires y.state == FenceAfter(state.0, state.1, line)
    ensures InPlace(y) && Text(y) == Behind(text, line)
  {
    FenceMore(text, line);
    EndsAs(text, line);
  }

  /** A fence line that is the whole text so far is in the buffer. */
  ghost predicate Alone(x: View) {
    var text := Text(x);
    && (text == [] ==> x.parts == [] && x.core == [] && x.state == (false, []))
    && (IsLine(text) && IsFenceLine(text) && |text| <= x.maxLen ==> x.parts == [] && x.core == text && x.state == (true, text))
  }

  lemma StepsAlone(x: View, line: Bytes, y: View, d: Deed, before: Bytes, after: Bytes)
    requires Alone(x) && AllLines(x) && IsLine(line) && Stepped(x, line, y, d)
    requires before == Text(x) && after == Text(y) && after == Behind(before, line)
    ensures Alone(y)
  {
    if before != [] {
      LineLenJoins(before, line);
    }
  }

  // --- how full the buffer is -----------------------------------------------------------------

  /** The length of the buffer and the fence state behind some lines, and whether
      the buffer is an opening fence line and nothing else. */
  datatype Fill = Fill(len: nat, state: State, lone: bool)

  /** A line that fits goes behind what is buffered if there is room for it and the
      close, and else on a fresh buffer, behind the line of the fence open there. */
  function Filled(f: Fill, line: Bytes, maxLen: nat): Fill {
    var inside, anew := f.state.0, f.len == 0 || Full(f.len, |line|, f.state.0 || IsFenceLine(line), maxLen);
    Fill((if !anew then f.len else if inside then |f.state.1| else 0) + |line|, FenceAfter(inside, f.state.1, line),
         anew && !inside && IsFenceLine(line))
  }

  function FillFrom(f: Fill, text: Bytes, maxLen: nat): Fill
    decreases |text|
  {
    if text == [] then f else FillFrom(Filled(f, text[..LineLen(text)], maxLen), text[LineLen(text)..], maxLen)
  }

  function FillOf(text: Bytes, maxLen: nat): Fill { FillFrom(Fill(0, (false, []), false), text, maxLen) }

  lemma FillLine(f: Fill, line: Bytes, maxLen: nat)
    requires IsLine(line)
    ensures FillFrom(f, line, maxLen) == Filled(f, line, maxLen)
    ensures FitsText(f.state.0, f.state.1, line, maxLen) <==> FitsLine(f.state.0, f.state.1, line, maxLen)
  {
    assert line[..|line|] == line && |line[|line|..]| == 0;
  }

  lemma {:induction false} FillJoins(f: Fill, a: Bytes, b: Bytes, maxLen: nat)
    requires a == [] || EndsLine(a)
    ensures FillFrom(f, a + b, maxLen) == FillFrom(FillFrom(f, a, maxLen), b, maxLen)
    ensures var mid := FillFrom(f, a, maxLen).state;
      FitsText(f.state.0, f.state.1, a + b, maxLen) <==>
        FitsText(f.state.0, f.state.1, a, maxLen) && FitsText(mid.0, mid.1, b, maxLen)
    decreases |a|
  {
    if |a| == 0 {
      NothingFirst(a, b);
    } else {
      var n := LineLen(a);
      LineLenJoins(a, b);
      CutJoined(a, b, n);
      if n == |a| { assert a[..n] == a; }
      FillJoins(Filled(f, a[..n], maxLen), a[n..], b, maxLen);
    }
  }

  /** The buffer is an opening fence line and nothing else. */
  predicate LoneBuffer(x: View) { x.core != [] && !x.start.0 && x.state == (true, x.core) }

  /** Where the lines so far fit, the buffer is what Fill says. */
  ghost predicate Fills(x: View) {
    && (x.state.0 ==> IsLine(x.state.1))
    && (FitsText(false, [], Text(x), x.maxLen) ==> FillOf(Text(x), x.maxLen) == Fill(Length(x), x.state, LoneBuffer(x)))
  }

  lemma LineBehind(core: Bytes, line: Bytes)
    requires core != [] && EndsLine(core) && line != []
    ensures !IsLine(Behind(core, line))
  {
    LineLenJoins(core, line);
  }

  /** One line that fits, as the splitter takes it and as Fill does. */
  lemma FilledAs(x: View, line: Bytes, y: View, flushed: Option<Part>)
    requires Stepped(x, line, y, Buffered(flushed)) && IsLine(line) && (x.core == [] || EndsLine(x.core))
    requires FitsLine(x.state.0, x.state.1, line, x.maxLen) && (x.state.0 ==> IsLine(x.state.1))
    requires x.core == [] ==> x.start == x.state
    ensures Fill(Length(y), y.state, LoneBuffer(y)) == Filled(Fill(Length(x), x.state, LoneBuffer(x)), line, x.maxLen)
  {
    if x.core != [] { LineBehind(x.core, line); }
  }

  lemma StepFills(x: View, line: Bytes, y: View, d: Deed)
    requires Fills(x) && InPlace(x) && AllLines(x) && IsLine(line) && Stepped(x, line, y, d) && Text(y) == Behind(Text(x), line)
    ensures Fills(y)
  {
    var text, start := Text(x), Fill(0, (false, []), false);
    if FitsText(false, [], Text(y), x.maxLen) {
      JoinsBehind(start, text, line, x.maxLen);
      EndsBehind(Source(x.parts), x.core);
      if d.Buffered? { FilledAs(x, line, y, d.flushed); }
    }
  }

  lemma JoinsBehind(f: Fill, text: Bytes, line: Bytes, maxLen: nat)
    requires (text == [] || EndsLine(text)) && IsLine(line)
    ensures FillFrom(f, Behind(text, line), maxLen) == Filled(FillFrom(f, text, maxLen), line, maxLen)
    ensures var mid := FillFrom(f, text, maxLen).state;
      FitsText(f.state.0, f.state.1, Behind(text, line), maxLen) <==>
        FitsText(f.state.0, f.state.1, text, maxLen) && FitsLine(mid.0, mid.1, line, maxLen)
  {
    FillJoins(f, text, line, maxLen);
    FillLine(FillFrom(f, text, maxLen), line, maxLen);
  }

  lemma EndsBehind(before: Bytes, core: Bytes)
    ensures core != [] ==> EndsLine(Behind(before, core)) == EndsLine(core)
  {
  }

  // --- no chunk ends early --------------------------------------------------------------------

  /** The first line of next, begun at, would not have fit into p, with the close
      that p needs then. */
  predicate Snug(p: Part, at: State, next: Bytes, maxLen: nat) {
    |Reopened(p.at, maxLen)| + |TextOf(p)| + LineLen(next)
    + (if at.0 || IsFenceLine(next[..LineLen(next)]) then 4 else 0) > maxLen
  }

  predicate AllSnug(parts: seq<Part>, maxLen: nat) {
    forall i :: 0 <= i < |parts| - 1 ==> Snug(parts[i], parts[i + 1].at, TextOf(parts[i + 1]), maxLen)
  }

  /** Where the lines so far fit, each part but the last has no room for the next
      one's first line, and the last none for the buffer's. */
  ghost predicate Tight(x: View) {
    FitsText(false, [], Text(x), x.maxLen) ==>
      AllSnug(x.parts, x.maxLen)
      && (x.parts != [] ==> x.core != [] && Snug(x.parts[|x.parts| - 1], x.start, x.core, x.maxLen))
  }

  lemma SnugMore(parts: seq<Part>, p: Part, maxLen: nat)
    requires AllSnug(parts, maxLen) && (parts != [] ==> Snug(parts[|parts| - 1], p.at, TextOf(p), maxLen))
    ensures AllSnug(parts + [p], maxLen)
  {
  }

  lemma SameSnug(p: Part, at: State, core: Bytes, line: Bytes, maxLen: nat)
    requires core != [] && EndsLine(core) && Snug(p, at, core, maxLen)
    ensures Snug(p, at, Behind(core, line), maxLen)
  {
    LineLenJoins(core, line);
    CutJoined(core, line, LineLen(core));
  }

  lemma LineIsFirst(line: Bytes)
    requires IsLine(line)
    ensures line[..LineLen(line)] == line
  {
  }

  lemma StepTight(x: View, line: Bytes, y: View, d: Deed)
    requires Tight(x) && Fills(x) && AllLines(x) && IsLine(line) && Stepped(x, line, y, d) && Text(y) == Behind(Text(x), line)
    ensures Tight(y)
  {
    if FitsText(false, [], Text(y), x.maxLen) {
      JoinsBehind(Fill(0, (false, []), false), Text(x), line, x.maxLen);
      EndsBehind(Source(x.parts), x.core);
      TightLine(x, line, y, d.flushed);
    }
  }

  lemma TightLine(x: View, line: Bytes, y: View, flushed: Option<Part>)
    requires Stepped(x, line, y, Buffered(flushed)) && IsLine(line) && (x.core == [] || EndsLine(x.core))
    requires AllSnug(x.parts, x.maxLen) && Viable(x.state.0, x.state.1, x.maxLen)
    requires x.parts != [] ==> x.core != [] && Snug(x.parts[|x.parts| - 1], x.start, x.core, x.maxLen)
    ensures AllSnug(y.parts, y.maxLen)
    ensures y.parts != [] ==> y.core != [] && Snug(y.parts[|y.parts| - 1], y.start, y.core, y.maxLen)
  {
    if flushed.Some? {
      SnugMore(x.parts, flushed.value, x.maxLen);
      LineIsFirst(line);
    } else if x.parts != [] {
      SameSnug(x.parts[|x.parts| - 1], x.start, x.core, line, x.maxLen);
    }
  }

  lemma EndTight(x: View, flushed: Option<Part>)
    requires Tight(x) && FitsText(false, [], Text(x), x.maxLen)
    requires if flushed.Some? then x.core != [] && Is(flushed.value, x.start, x.core) else x.core == []
    ensures AllSnug(With(x.parts, flushed), x.maxLen)
  {
    if flushed.Some? { SnugMore(x.parts, flushed.value, x.maxLen); }
  }

  /** A text shorter than a chunk by a close has lines that all fit. */
  lemma {:induction false} ShortFits(inFence: bool, fenceOpen: Bytes, text: Bytes, maxLen: nat)
    requires (if inFence then |fenceOpen| else 0) + |text| + 4 < maxLen
    ensures FitsText(inFence, fenceOpen, text, maxLen)
    decreases |text|
  {
    if |text| > 0 {
      var line := text[..LineLen(text)];
      var (inside, open) := FenceAfter(inFence, fenceOpen, line);
      ShortFits(inside, open, text[LineLen(text)..], maxLen);
    }
  }

  /** Two parts come from a text that is longer than that. */
  lemma ShortIsOne(parts: seq<Part>, text: Bytes, maxLen: nat)
    requires AllSnug(parts, maxLen) && Placed(FenceIn, parts) && Source(parts) == text && |text| + 4 < maxLen
    ensures |parts| <= 1
  {
    if |parts| > 1 {
      TwoFirst(parts);
    }
  }

  lemma {:induction false} TwoFirst(parts: seq<Part>)
    requires |parts| >= 2 && Placed(FenceIn, parts)
    ensures |TextOf(parts[0])| + |TextOf(parts[1])| <= |Source(parts)| && parts[0].at == FenceIn([])
    decreases |parts|
  {
    var n := |parts| - 1;
    if n > 1 {
      TwoFirst(parts[..n]);
    } else {
      OneFirst(parts[..1]);
    }
  }

  lemma OneFirst(parts: seq<Part>)
    requires |parts| == 1 && Placed(FenceIn, parts)
    ensures Source(parts) == TextOf(parts[0]) && parts[0].at == FenceIn([])
  {
    assert |parts[..0]| == 0 && Source(parts[..0]) == [];
  }

  ghost predicate Tracked(x: View) { InPlace(x) && Alone(x) && Fills(x) && Tight(x) }

  lemma StepTracked(x: View, line: Bytes, y: View, d: Deed)
    requires Tracked(x) && AllLines(x) && IsLine(line) && Stepped(x, line, y, d)
    ensures Tracked(y)
  {
    match d {
      case Buffered(flushed) => BufferedInPlace(x, line, y, flushed);
      case Cut(flushed, pieces, more) => CutInPlace(x, line, y, flushed, pieces, more);
    }
    StepsAlone(x, line, y, d, Text(x), Text(y));
    StepFills(x, line, y, d);
    StepTight(x, line, y, d);
  }

  lemma StepsKeepTrack()
    ensures KeptBy(Tracked)
  {
    forall x, line, y, d | Tracked(x) && AllLines(x) && IsLine(line) && Stepped(x, line, y, d) ensures Tracked(y) {
      StepTracked(x, line, y, d);
    }
  }

  /** splitMarkdown. Every chunk fits maxLen; taking out the fence lines reopened
      and the closes, and putting back the opening fence lines left alone in a
      buffer, gives the text. A chunk reopens exactly the fence open where it
      begins, when there is room for that; a line left alone opens a fence there,
      so it shows again with the next chunk. Where every line fits its budget every
      chunk is balanced, no chunk had room for the first line of the next, and only the text's last line can be left alone, just when
      it opens a fence on a fresh buffer. */
  method SplitMarkdown(text: Bytes, maxLen: nat) returns (chunks: seq<Bytes>, ghost parts: seq<Part>)
    requires maxLen >= 1
    ensures chunks != [] && AllFit(chunks, maxLen)
    ensures Source(parts) == text && AllSound(parts, maxLen) && Placed(FenceIn, parts)
    ensures chunks == if Posted(parts) == [] then [[]] else Posted(parts)
    ensures FitsText(false, [], text, maxLen) ==> AllBalanced(chunks) && (parts != [] ==> AllChunks(parts[..|parts| - 1]))
    ensures FitsText(false, [], text, maxLen) && parts != [] ==> (parts[|parts| - 1].Lone? <==> FillOf(text, maxLen).lone)
    ensures FitsText(false, [], text, maxLen) ==> AllSnug(parts, maxLen)
    ensures text != [] && |text| + 4 < maxLen ==> |parts| == 1
    ensures IsLine(text) && IsFenceLine(text) && |text| <= maxLen ==> chunks == [[]]
  {
    ghost var x, flushed;
    chunks, parts, x, flushed := SplitLines(text, maxLen, Tracked);
    SplitIsTracked(text, x, flushed, maxLen);
    SplitIsTight(text, x, flushed, maxLen);
  }

  lemma SplitIsTight(text: Bytes, x: View, flushed: Option<Part>, maxLen: nat)
    requires KeptBy(Tracked) && Tracked(Standing(maxLen, [], (false, []), [], (false, []))) ==> Tracked(x)
    requires x.maxLen == maxLen && Source(With(x.parts, flushed)) == text
    requires if flushed.Some? then x.core != [] && Is(flushed.value, x.start, x.core) else x.core == []
    requires Placed(FenceIn, With(x.parts, flushed))
    ensures FitsText(false, [], text, maxLen) ==> AllSnug(With(x.parts, flushed), maxLen)
    ensures text != [] && |text| + 4 < maxLen ==> |With(x.parts, flushed)| == 1
  {
    var parts := With(x.parts, flushed);
    StepsKeepTrack();
    StartsTracked(Standing(maxLen, [], (false, []), [], (false, [])));
    if flushed.Some? { OneMore(x.parts, flushed.value); }
    if FitsText(false, [], text, maxLen) { EndTight(x, flushed); }
    if text != [] && |text| + 4 < maxLen {
      ShortFits(false, [], text, maxLen);
      ShortIsOne(parts, text, maxLen);
      assert parts != [];
    }
  }

  /** Lines, the last emit, and an empty chunk for a text that leaves none. */
  method SplitLines(text: Bytes, maxLen: nat, ghost inv: View -> bool)
    returns (chunks: seq<Bytes>, ghost parts: seq<Part>, ghost x: View, ghost flushed: Option<Part>)
    requires maxLen >= 1
    ensures chunks != [] && AllFit(chunks, maxLen)
    ensures Source(parts) == text && AllSound(parts, maxLen)
    ensures chunks == if Posted(parts) == [] then [[]] else Posted(parts)
    ensures FitsText(false, [], text, maxLen) ==> AllBalanced(chunks) && AllChunks(x.parts)
    ensures KeptBy(inv) && inv(Standing(maxLen, [], (false, []), [], (false, []))) ==> inv(x)
    ensures parts == With(x.parts, flushed) && x.maxLen == maxLen
    ensures if flushed.Some? then x.core != [] && Is(flushed.value, x.start, x.core) else x.core == []
    ensures IsLone(flushed) <==> LoneBuffer(x)
  {
    var s := new Splitter(maxLen);
    ghost var none := s.Taken();
    x, flushed := s.Split(text, inv);
    chunks, parts := s.chunks, s.parts;
    PostedFit(parts, maxLen);
    if chunks == [] {
      chunks := [[]];
      EmptyIsBalanced(chunks[0]);
    }
  }

  lemma SplitIsTracked(text: Bytes, x: View, flushed: Option<Part>, maxLen: nat)
    requires KeptBy(Tracked) && Tracked(Standing(maxLen, [], (false, []), [], (false, []))) ==> Tracked(x)
    requires x.maxLen == maxLen && Source(With(x.parts, flushed)) == text
    requires if flushed.Some? then x.core != [] && Is(flushed.value, x.start, x.core) else x.core == []
    requires IsLone(flushed) <==> LoneBuffer(x)
    ensures Placed(FenceIn, With(x.parts, flushed))
    ensures IsLine(text) && IsFenceLine(text) && |text| <= maxLen ==> Posted(With(x.parts, flushed)) == []
    ensures AllChunks(x.parts) && With(x.parts, flushed) != [] ==> AllChunks(With(x.parts, flushed)[..|With(x.parts, flushed)| - 1])
    ensures AllChunks(x.parts) && FitsText(false, [], text, maxLen) && With(x.parts, flushed) != [] ==>
      (With(x.parts, flushed)[|With(x.parts, flushed)| - 1].Lone? <==> FillOf(text, maxLen).lone)
  {
    StepsKeepTrack();
    StartsTracked(Standing(maxLen, [], (false, []), [], (false, [])));
    LastIsLone(x, flushed);
    if flushed.Some? { OneMore(x.parts, flushed.value); }
    Ends(x, flushed, text);
  }

  lemma LastIsLone(x: View, flushed: Option<Part>)
    requires if flushed.Some? then x.core != [] && Is(flushed.value, x.start, x.core) else x.core == []
    requires IsLone(flushed) <==> LoneBuffer(x)
    ensures AllChunks(x.parts) && With(x.parts, flushed) != [] ==>
      (With(x.parts, flushed)[|With(x.parts, flushed)| - 1].Lone? <==> LoneBuffer(x))
    ensures Source(With(x.parts, flushed)) == Text(x)
  {
    if flushed.Some? {
      OneMore(x.parts, flushed.value);
    } else if x.parts != [] {
      assert x.parts[|x.parts| - 1] in x.parts;
    }
  }

  lemma StartsTracked(x: View)
    requires x.parts == [] && x.core == [] && x.state == (false, []) && x.start == x.state
    ensures Tracked(x) && AllLines(x)
  {
    assert |Text(x)| == 0;
  }

  lemma Ends(x: View, flushed: Option<Part>, text: Bytes)
    requires Tracked(x) && Text(x) == text
    requires if flushed.Some? then x.core != [] && Is(flushed.value, x.start, x.core) else x.core == []
    ensures Placed(FenceIn, With(x.parts, flushed))
    ensures IsLine(text) && IsFenceLine(text) && |text| <= x.maxLen && (x.state == (true, x.core) ==> IsLone(flushed)) ==>
      Posted(With(x.parts, flushed)) == []
    ensures AllChunks(x.parts) && With(x.parts, flushed) != [] ==> AllChunks(With(x.parts, flushed)[..|With(x.parts, flushed)| - 1])
  {
    if flushed.Some? { PlacedMore(FenceIn, x.parts, flushed.value, x.start, x.core); OneMore(x.parts, flushed.value); }
    if AllChunks(x.parts) { LastAlone(x.parts, flushed); }
  }

  lemma LastAlone(parts: seq<Part>, flushed: Option<Part>)
    requires AllChunks(parts)
    ensures With(parts, flushed) != [] ==> AllChunks(With(parts, flushed)[..|With(parts, flushed)| - 1])
  {
    if flushed.Some? { assert (parts + [flushed.value])[..|parts|] == parts; }
  }

  lemma FirstIsLine(s: Bytes)
    requires s != []
    ensures IsLine(s[..LineLen(s)]) && (LineLen(s) < |s| ==> EndsLine(s[..LineLen(s)]))
  {
    FirstLineLen(s);
  }

  lemma {:induction false} FirstLineLen(s: Bytes)
    ensures LineLen(s[..LineLen(s)]) == LineLen(s)
  {
    if s != [] && s[0] != NL {
      FirstLineLen(s[1..]);
      assert s[..LineLen(s)][1..] == s[1..][..LineLen(s[1..])];
    }
  }

  lemma EmptyIsBalanced(s: Bytes)
    requires s == []
    ensures Balanced(s)
  {
  }
}
