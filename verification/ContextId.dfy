/** The byte string an A2A context id is the hash of: its parts, each with its
    length in front. */
module ContextId {
  import opened LinkModel
  import opened Streaming

  const COLON: Byte := 58
  const BAR: Byte := 124

  // --- decimal numbers ------------------------------------------------------------------

  predicate IsDigit(b: Byte) { 48 <= b <= 57 }

  predicate Digits(s: Bytes) { s != [] && forall i :: 0 <= i < |s| ==> IsDigit(s[i]) }

  function Decimal(n: nat): (s: Bytes)
    ensures Digits(s) && Number(s) == n
  {
    if n < 10 then [48 + n] else
      var s := Decimal(n / 10) + [48 + n % 10];
      assert s[..|s| - 1] == Decimal(n / 10);
      s
  }

  function Number(s: Bytes): nat
    requires forall i :: 0 <= i < |s| ==> IsDigit(s[i])
  {
    if s == [] then 0
    else
      assert IsDigit(s[|s| - 1]);
      10 * Number(s[..|s| - 1]) + (s[|s| - 1] as int - 48)
  }

  // --- the encoding -----------------------------------------------------------------------

  /** "%d:%s|" of one part. */
  function EncodePart(part: Bytes): Bytes { Decimal(|part|) + [COLON] + part + [BAR] }

  function Encode(parts: seq<Bytes>): Bytes {
    if parts == [] then [] else Encode(parts[..|parts| - 1]) + EncodePart(parts[|parts| - 1])
  }

  /** The writes to the hash, part by part. */
  method WriteParts(parts: seq<Bytes>) returns (h: Bytes)
    ensures h == Encode(parts)
  {
    h := [];
    var i := 0;
    while i < |parts|
      invariant i <= |parts| && h == Encode(parts[..i])
    {
      assert parts[..i + 1][..i] == parts[..i];
      h := h + EncodePart(parts[i]);
      i := i + 1;
    }
    assert parts[..i] == parts;
  }

  // --- its decoder --------------------------------------------------------------------------

  function DigitsLen(s: Bytes): (n: nat)
    ensures n <= |s| && (forall i :: 0 <= i < n ==> IsDigit(s[i])) && (n < |s| ==> !IsDigit(s[n]))
  {
    if s == [] || !IsDigit(s[0]) then 0 else 1 + DigitsLen(s[1..])
  }

  /** The part s begins with, and how long its encoding is. */
  function DecodePart(s: Bytes): (r: Option<(Bytes, nat)>)
    ensures r.Some? ==> 0 < r.value.1 <= |s|
  {
    var d := DigitsLen(s);
    var n := Number(s[..d]);
    if d == 0 || d + n + 2 > |s| || s[d] != COLON || s[d + 1 + n] != BAR then None
    else Some((s[d + 1..d + 1 + n], d + n + 2))
  }

  function Decode(s: Bytes): Option<seq<Bytes>>
    decreases |s|
  {
    if s == [] then Some([])
    else match DecodePart(s)
      case None => None
      case Some(first) =>
        var rest := Decode(s[first.1..]);
        if rest.None? then None else Some([first.0] + rest.value)
  }

  lemma PartRoundTrips(part: Bytes, rest: Bytes)
    ensures DecodePart(EncodePart(part) + rest) == Some((part, |EncodePart(part)|))
  {
    var s, digits := EncodePart(part) + rest, Decimal(|part|);
    var d := |digits|;
    assert s[..d] == digits && s[d] == COLON;
    assert DigitsLen(s) == d by { DigitsEnd(s, d); }
    assert s[d + 1..d + 1 + |part|] == part;
    assert s[d + 1 + |part|] == BAR;
  }

  lemma DigitsEnd(s: Bytes, d: nat)
    requires d < |s| && (forall i :: 0 <= i < d ==> IsDigit(s[i])) && !IsDigit(s[d])
    ensures DigitsLen(s) == d
  {
    var n := DigitsLen(s);
    assert n < |s| ==> !IsDigit(s[n]);
  }

  lemma {:induction false} EncodeFirst(parts: seq<Bytes>)
    requires parts != []
    ensures Encode(parts) == EncodePart(parts[0]) + Encode(parts[1..])
  {
    var n := |parts| - 1;
    if n > 0 {
      EncodeFirst(parts[..n]);
      assert parts[..n][1..] == parts[1..][..n - 1];
      var a, b, c := EncodePart(parts[0]), Encode(parts[1..][..n - 1]), EncodePart(parts[n]);
      assert (a + b) + c == a + (b + c);
    } else {
      assert |Encode(parts[..n])| == 0 && |Encode(parts[1..])| == 0;
    }
  }

  /** Decoding gives back any sequence of parts, so no two have the same encoding. */
  lemma {:induction false} DecodeEncode(parts: seq<Bytes>)
    ensures Decode(Encode(parts)) == Some(parts)
    decreases |parts|
  {
    if |parts| > 0 {
      EncodeFirst(parts);
      var rest := Encode(parts[1..]);
      var s := EncodePart(parts[0]) + rest;
      PartRoundTrips(parts[0], rest);
      assert s[|EncodePart(parts[0])|..] == rest;
      DecodeEncode(parts[1..]);
      assert [parts[0]] + parts[1..] == parts;
    }
  }

  lemma EncodingInjective(a: seq<Bytes>, b: seq<Bytes>)
    ensures Encode(a) == Encode(b) <==> a == b
  {
    DecodeEncode(a);
    DecodeEncode(b);
  }

  // --- the context id --------------------------------------------------------------------------

  /** What a conversation's context id is made from. */
  datatype Conversation = Conversation(
    channel: Bytes, channelID: Bytes, user: Bytes, thread: Bytes, agentRef: Bytes, workspace: Option<Workspace>)

  datatype Workspace = Workspace(namespace: Bytes, name: Bytes, none: bool)

  predicate Chosen(w: Option<Workspace>) { w.Some? && !w.value.none }

  /** The workspace enters only when one is chosen. */
  function Parts(c: Conversation): seq<Bytes> {
    [c.channel, c.channelID, c.user, c.thread, c.agentRef]
    + if Chosen(c.workspace) then [c.workspace.value.namespace, c.workspace.value.name] else []
  }

  /** SynthesizeContextID, up to the hash. */
  method ContextBytes(c: Conversation) returns (h: Bytes)
    ensures h == Encode(Parts(c))
  {
    var parts := [c.channel, c.channelID, c.user, c.thread, c.agentRef];
    if Chosen(c.workspace) {
      parts := parts + [c.workspace.value.namespace, c.workspace.value.name];
    } else {
      assert Parts(c) == parts;
    }
    h := WriteParts(parts);
  }

  /** Two conversations have the same bytes to hash just when every part of them
      is the same and both chose the same workspace, or neither chose one. */
  lemma ContextsApart(a: Conversation, b: Conversation)
    ensures Encode(Parts(a)) == Encode(Parts(b)) <==>
      && a.channel == b.channel && a.channelID == b.channelID && a.user == b.user && a.thread == b.thread
      && a.agentRef == b.agentRef && Chosen(a.workspace) == Chosen(b.workspace)
      && (Chosen(a.workspace) ==> a.workspace == b.workspace)
  {
    EncodingInjective(Parts(a), Parts(b));
    var p, q := Parts(a), Parts(b);
    if p == q {
      assert forall i :: 0 <= i < |p| ==> p[i] == q[i];
      assert p[0] == a.channel && p[1] == a.channelID && p[2] == a.user && p[3] == a.thread && p[4] == a.agentRef;
      if Chosen(a.workspace) { assert p[5] == a.workspace.value.namespace && p[6] == a.workspace.value.name; }
    }
  }
}
