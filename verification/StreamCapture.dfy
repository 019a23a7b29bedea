/**
 Capture of a subprocess stream: everything up to the cap, and past it a frozen
 head and a rolling tail, both cut on raw bytes at the edge of a UTF-8 scalar.
 */
module StreamCapture {
  import opened Wrappers

  /** An octet; a value outside 0..255 would count as an invalid byte. */
  type Byte = int
  type Bytes = seq<Byte>

  const MAX_STREAM_BYTES: nat := 1_048_576
  const HALF_CAP: nat := MAX_STREAM_BYTES / 2
  const TAIL_CAPTURE_BYTES: nat := HALF_CAP + 3

  // ---- UTF-8 (section 4 of RFC 3629) ----

  predicate Continuation(b: Byte) { 0x80 <= b < 0xC0 }

  function SequenceLength(b: Byte): (n: nat)
    ensures 1 <= n <= 4 && (n > 1 ==> !Continuation(b))
  {
    if b < 0x80 then 1
    else if 0xC2 <= b <= 0xDF then 2
    else if 0xE0 <= b <= 0xEF then 3
    else if 0xF0 <= b <= 0xF4 then 4
    else 1
  }

  predicate ValidSecond(lead: Byte, second: Byte) {
    && Continuation(second)
    && (lead == 0xE0 ==> second >= 0xA0) && (lead == 0xED ==> second <= 0x9F)
    && (lead == 0xF0 ==> second >= 0x90) && (lead == 0xF4 ==> second <= 0x8F)
  }

  /** A complete scalar value sits at `i` and takes `SequenceLength` bytes. */
  predicate ScalarAt(s: Bytes, i: nat)
    requires i < |s|
  {
    var n := SequenceLength(s[i]);
    if n == 1 then s[i] < 0x80
    else i + n <= |s| && ValidSecond(s[i], s[i + 1]) && forall k :: i + 2 <= k < i + n ==> Continuation(s[k])
  }

  predicate WellFormed(s: Bytes)
    decreases |s|
  {
    s == [] || (ScalarAt(s, 0) && SequenceLength(s[0]) <= |s| && WellFormed(s[SequenceLength(s[0])..]))
  }

  // ---- The two cuts ----

  /** The loop that walks back over at most `budget` continuation bytes. */
  function BackOff(s: Bytes, lead: int, budget: nat): (r: int)
    requires -1 <= lead < |s|
    ensures -1 <= r <= lead && lead - r <= budget
    ensures forall k :: r < k <= lead ==> Continuation(s[k])
    ensures r >= 0 && lead - r < budget ==> !Continuation(s[r])
    decreases budget
  {
    if lead >= 0 && budget > 0 && Continuation(s[lead]) then BackOff(s, lead - 1, budget - 1) else lead
  }

  predicate CompletablePrefix(s: Bytes, lead: nat, needed: nat)
    requires lead < |s|
  {
    && |s| - lead < needed
    && (|s| - lead == 1
        || (ValidSecond(s[lead], s[lead + 1]) && forall k :: lead + 2 <= k < |s| ==> Continuation(s[k])))
  }

  function HeadCut(s: Bytes): Bytes {
    var lead := BackOff(s, |s| - 1, 3);
    if lead < 0 then []
    else
      var needed := SequenceLength(s[lead]);
      if needed > 1 && CompletablePrefix(s, lead, needed) then s[..lead] else s
  }

  function TailCut(s: Bytes, start: nat): Bytes
    requires start < |s|
  {
    if !Continuation(s[start]) then s[start..]
    else
      var lead := BackOff(s, start - 1, 3);
      if lead < 0 then s[start..]
      else
        var needed := SequenceLength(s[lead]);
        if needed == 1 || lead + needed <= start || lead + needed > |s| || !ScalarAt(s, lead) then s[start..]
        else s[lead + needed..]
  }

  method DropTrailingPartialSequence(buf: Bytes) returns (r: Bytes)
    ensures r == HeadCut(buf)
  {
    var lead, continuationBytes := |buf| - 1, 0;
    while lead >= 0 && continuationBytes < 3 && Continuation(buf[lead])
      invariant -1 <= lead < |buf| && 0 <= continuationBytes <= 3
      invariant BackOff(buf, lead, 3 - continuationBytes) == BackOff(buf, |buf| - 1, 3)
    {
      lead := lead - 1;
      continuationBytes := continuationBytes + 1;
    }
    if lead < 0 { return []; }
    var needed := SequenceLength(buf[lead]);
    r := if needed > 1 && CompletablePrefix(buf, lead, needed) then buf[..lead] else buf;
  }

  method AlignTailToUtf8Scalar(buf: Bytes, tailStart: nat) returns (r: Bytes)
    requires tailStart < |buf|
    ensures r == TailCut(buf, tailStart)
  {
    if !Continuation(buf[tailStart]) { return buf[tailStart..]; }
    var lead := tailStart - 1;
    while lead >= 0 && tailStart - lead <= 3 && Continuation(buf[lead])
      invariant -1 <= lead < tailStart <= lead + 4
      invariant BackOff(buf, lead, 4 - (tailStart - lead)) == BackOff(buf, tailStart - 1, 3)
    {
      lead := lead - 1;
    }
    if lead < 0 { return buf[tailStart..]; }
    var needed := SequenceLength(buf[lead]);
    var end := lead + needed;
    if needed == 1 || end <= tailStart || end > |buf| { return buf[tailStart..]; }
    if !ValidSecond(buf[lead], buf[lead + 1]) { return buf[tailStart..]; }
    var index := lead + 2;
    while index < end
      invariant lead + 2 <= index && (forall k :: lead + 2 <= k < index && k < end ==> Continuation(buf[k]))
    {
      if !Continuation(buf[index]) { return buf[tailStart..]; }
      index := index + 1;
    }
    r := buf[end..];
  }

  // ---- What the cuts do to well-formed text ----

  /** Scalar boundaries of a well-formed text. */
  ghost predicate Boundary(s: Bytes, p: nat) { p <= |s| && WellFormed(s[..p]) && WellFormed(s[p..]) }

  lemma {:induction false} WellFormedJoin(a: Bytes, b: Bytes)
    requires WellFormed(a) && WellFormed(b)
    ensures WellFormed(a + b)
    decreases |a|
  {
    if a == [] {
      assert a + b == b;
    } else {
      var n := SequenceLength(a[0]);
      assert (a + b)[n..] == a[n..] + b;
      WellFormedJoin(a[n..], b);
      assert ScalarAt(a + b, 0);
    }
  }

  /** Position `p` lies in the scalar that starts at `b`. */
  ghost predicate InScalar(s: Bytes, p: nat, b: nat) {
    && b <= p < b + LengthAt(s, b) <= |s| && b < |s| && ScalarAt(s, b)
    && Boundary(s, b) && Boundary(s, b + LengthAt(s, b))
  }

  function LengthAt(s: Bytes, b: nat): (n: nat)
    ensures n <= 4
  {
    if b < |s| then SequenceLength(s[b]) else 0
  }

  /** Every position of a well-formed text lies in a scalar. */
  lemma ScalarAround(s: Bytes, p: nat) returns (b: nat)
    requires WellFormed(s) && p < |s|
    ensures InScalar(s, p, b)
  {
    WholeIsBoundary(s);
    b := ScalarFrom(s, 0, p);
  }

  lemma {:induction false} ScalarFrom(s: Bytes, from: nat, p: nat) returns (b: nat)
    requires from <= p < |s| && Boundary(s, from)
    ensures InScalar(s, p, b)
    decreases |s| - from
  {
    NextBoundary(s, from);
    hide WellFormed, Boundary, ScalarAt;
    if p < from + LengthAt(s, from) { b := from; } else { b := ScalarFrom(s, from + LengthAt(s, from), p); }
  }

  lemma NextBoundary(s: Bytes, b: nat)
    requires b < |s| && Boundary(s, b)
    ensures ScalarAt(s, b) && 0 < LengthAt(s, b) && Boundary(s, b + LengthAt(s, b))
  {
    BoundaryParts(s, b);
    hide WellFormed, Boundary, ScalarAt;
    FirstScalar(s[b..]);
    ScalarShift(s, b, 0);
    Shifted(s, b, LengthAt(s[b..], 0));
  }

  lemma WholeIsBoundary(s: Bytes)
    requires WellFormed(s)
    ensures Boundary(s, 0)
  {
    assert s[..0] == [] && s[0..] == s;
  }

  lemma BoundaryParts(s: Bytes, p: nat)
    requires Boundary(s, p)
    ensures p <= |s| && WellFormed(s[..p]) && WellFormed(s[p..])
  {
  }

  lemma ScalarShift(s: Bytes, n: nat, c: nat)
    requires n + c < |s|
    ensures s[n..][c] == s[n + c] && ScalarAt(s[n..], c) == ScalarAt(s, n + c)
      && LengthAt(s[n..], c) == LengthAt(s, n + c)
  {
    var t := s[n..];
    assert forall k :: 0 <= k < |t| ==> t[k] == s[n + k];
    if SequenceLength(s[n + c]) > 1 && c + SequenceLength(s[n + c]) <= |t| {
      var m := SequenceLength(s[n + c]);
      assert (forall k :: c + 2 <= k < c + m ==> Continuation(t[k])) ==> forall k :: n + c + 2 <= k < n + c + m ==>
        Continuation(s[k]) by {
        assert forall k :: n + c + 2 <= k < n + c + m ==> s[k] == t[k - n];
      }
    }
  }

  lemma FirstScalar(s: Bytes)
    requires WellFormed(s) && s != []
    ensures Boundary(s, LengthAt(s, 0)) && ScalarAt(s, 0) && 0 < LengthAt(s, 0) <= |s| && Boundary(s, 0)
  {
    var n := LengthAt(s, 0);
    WholeIsBoundary(s);
    assert s[..n][n..] == [];
    assert ScalarAt(s[..n], 0);
  }

  lemma Shifted(s: Bytes, n: nat, c: nat)
    requires n <= |s| && Boundary(s, n) && Boundary(s[n..], c)
    ensures Boundary(s, n + c)
  {
    assert s[..n + c] == s[..n] + s[n..][..c];
    WellFormedJoin(s[..n], s[n..][..c]);
    assert s[n + c..] == s[n..][c..];
  }

  /** Inside a scalar all bytes but the first are continuation bytes. */
  lemma ScalarShape(s: Bytes, b: nat)
    requires b < |s| && ScalarAt(s, b)
    ensures !Continuation(s[b]) && b + SequenceLength(s[b]) <= |s|
    ensures forall k :: b < k < b + SequenceLength(s[b]) ==> Continuation(s[k])
  {
  }

  /** The head cut of a well-formed stream is its longest well-formed prefix within
      the limit, at most three bytes shorter. */
  lemma HeadCutAligns(s: Bytes, h: nat)
    requires WellFormed(s) && h <= |s|
    ensures WellFormed(HeadCut(s[..h])) && HeadCut(s[..h]) <= s[..h] && |HeadCut(s[..h])| + 3 >= h
    ensures WellFormed(s[..h]) ==> HeadCut(s[..h]) == s[..h]
  {
    if h > 0 {
      var b := ScalarAround(s, h - 1);
      ScalarFacts(s, h - 1, b);
      if b + LengthAt(s, b) > h { HeadPartial(s, h, b); } else { HeadWhole(s, h, b); }
    }
  }

  lemma HeadPartial(s: Bytes, h: nat, b: nat)
    requires b < h <= |s| && InScalar(s, h - 1, b) && b + LengthAt(s, b) > h
    ensures HeadCut(s[..h]) == s[..b] && WellFormed(s[..b]) && b + 3 >= h && !WellFormed(s[..h])
  {
    ScalarShape(s, b);
    PartialNotWellFormed(s, h, b);
    BoundaryParts(s, b);
    var t := s[..h];
    assert forall k :: 0 <= k < h ==> t[k] == s[k];
    BackOffFinds(t, h - 1, b);
    hide BackOff, WellFormed, Boundary, InScalar;
    assert CompletablePrefix(t, b, LengthAt(s, b)) by { hide HeadCut; }
    assert t[..b] == s[..b];
  }

  lemma HeadWhole(s: Bytes, h: nat, b: nat)
    requires b < h <= |s| && InScalar(s, h - 1, b) && b + LengthAt(s, b) == h
    ensures HeadCut(s[..h]) == s[..h] && WellFormed(s[..h])
  {
    ScalarShape(s, b);
    BoundaryParts(s, h);
    var t := s[..h];
    assert forall k :: 0 <= k < h ==> t[k] == s[k];
    BackOffFinds(t, h - 1, b);
    hide BackOff, WellFormed, Boundary, InScalar, ScalarAt;
  }

  lemma BackOffFinds(s: Bytes, p: nat, b: nat)
    requires b <= p < |s| && p - b <= 3 && !Continuation(s[b]) && forall k :: b < k <= p ==> Continuation(s[k])
    ensures BackOff(s, p, 3) == b
  {
  }

  lemma PartialNotWellFormed(s: Bytes, h: nat, b: nat)
    requires b < h <= |s| && h < b + LengthAt(s, b) && Boundary(s, b)
    ensures !WellFormed(s[..h])
  {
    LeadIsBoundary(s, b);
    assert forall k :: 0 <= k < h ==> s[..h][k] == s[k];
    if WellFormed(s[..h]) {
      hide WellFormed, Boundary;
      var c := ScalarAround(s[..h], b);
      ScalarShape(s[..h], c);
    }
  }

  lemma LeadIsBoundary(s: Bytes, b: nat)
    requires b < |s| && Boundary(s, b)
    ensures !Continuation(s[b])
  {
    assert s[b..][0] == s[b];
  }

  /** The tail cut of a well-formed stream, given three bytes of context, is its
      longest well-formed suffix within the limit. */
  lemma TailCutAligns(s: Bytes, from: nat, start: nat)
    requires WellFormed(s) && from + start < |s| && (start >= 3 || from == 0)
    ensures AlignedSuffix(s, from + start, TailCut(s[from..], start))
  {
    hide *;
    var b := ScalarAround(s, from + start);
    ScalarFacts(s, from + start, b);
    if b == from + start {
      WholeTail(s, from, start);
      SuffixFacts(s, b, b);
    } else {
      SplitScalar(s, from, start, b);
      SuffixFacts(s, b + LengthAt(s, b), from + start);
    }
  }

  lemma ScalarFacts(s: Bytes, p: nat, b: nat)
    requires InScalar(s, p, b)
    ensures b <= p < b + LengthAt(s, b) <= |s| && Boundary(s, b) && Boundary(s, b + LengthAt(s, b))
    ensures b < |s| && ScalarAt(s, b) && p - b <= 3
  {
  }

  /** A suffix of the text from `p` on, well formed and at most three bytes shorter,
      and not shorter at all when `p` is the start of a scalar. */
  ghost predicate AlignedSuffix(s: Bytes, p: nat, r: Bytes) {
    && p <= |s| && WellFormed(r) && |r| <= |s| - p <= |r| + 3 && r == s[|s| - |r|..]
    && (WellFormed(s[p..]) ==> r == s[p..])
  }

  lemma WholeTail(s: Bytes, from: nat, start: nat)
    requires from + start < |s| && Boundary(s, from + start)
    ensures TailCut(s[from..], start) == s[from + start..]
  {
    LeadIsBoundary(s, from + start);
    var t := s[from..];
    assert t[start..] == s[from + start..] && t[start] == s[from + start];
  }

  lemma SuffixFacts(s: Bytes, e: nat, p: nat)
    requires Boundary(s, e) && p <= e <= p + 3 && p < |s| && (p == e || Continuation(s[p]))
    ensures AlignedSuffix(s, p, s[e..])
  {
    StartsWithLead(s, p);
  }

  /** A start inside a scalar moves to the end of that scalar. */
  lemma SplitScalar(s: Bytes, from: nat, start: nat, b: nat)
    requires b < from + start < |s| && (start >= 3 || from == 0) && InScalar(s, from + start, b)
    ensures TailCut(s[from..], start) == s[b + LengthAt(s, b)..] && Continuation(s[from + start])
  {
    ScalarFacts(s, from + start, b);
    ScalarShape(s, b);
    hide *;
    assert b >= from;
    ScalarShift(s, from, b - from);
    CutInside(s[from..], b - from, start);
    assert s[from..][start] == s[from + start];
    DropDrop(s, from, b - from + LengthAt(s[from..], b - from));
  }

  lemma DropDrop(s: Bytes, m: nat, n: nat)
    requires m + n <= |s|
    ensures s[m..][n..] == s[m + n..]
  {
  }

  lemma CutInside(t: Bytes, lead: nat, start: nat)
    requires lead < start < |t| && start - lead <= 3 && ScalarAt(t, lead) && start < lead + LengthAt(t, lead) <= |t|
    ensures TailCut(t, start) == t[lead + LengthAt(t, lead)..] && Continuation(t[start])
  {
    ScalarShape(t, lead);
    BackOffFinds(t, start - 1, lead);
    hide BackOff, ScalarAt, Continuation;
  }

  lemma StartsWithLead(s: Bytes, p: nat)
    requires p < |s|
    ensures WellFormed(s[p..]) ==> !Continuation(s[p])
  {
    assert s[p..][0] == s[p];
  }

  // ---- The rolling capture ----

  function Concat(parts: seq<Bytes>): Bytes {
    if parts == [] then [] else Concat(parts[..|parts| - 1]) + parts[|parts| - 1]
  }

  lemma {:induction false} ConcatDrop(parts: seq<Bytes>)
    requires parts != []
    ensures Concat(parts) == parts[0] + Concat(parts[1..])
  {
    var n := |parts| - 1;
    if n > 0 {
      ConcatDrop(parts[..n]);
      assert parts[..n][1..] == parts[1..][..n - 1];
      assert parts[0] + Concat(parts[1..][..n - 1]) + parts[n] == parts[0] + (Concat(parts[1..][..n - 1]) + parts[n]);
    } else {
      assert Concat(parts[..0]) == [] && Concat(parts[1..]) == [];
    }
  }

  /** Taking n bytes off the first part takes them off the whole. */
  lemma CutFirst(parts: seq<Bytes>, n: nat)
    requires parts != [] && n <= |parts[0]|
    ensures n <= |Concat(parts)|
    ensures Concat([parts[0][n..]] + parts[1..]) == Concat(parts)[n..]
    ensures n == |parts[0]| ==> Concat(parts[1..]) == Concat(parts)[n..]
  {
    var cut := [parts[0][n..]] + parts[1..];
    ConcatDrop(parts);
    ConcatDrop(cut);
    assert cut[1..] == parts[1..];
    hide Concat;
    assert (parts[0] + Concat(parts[1..]))[n..] == parts[0][n..] + Concat(parts[1..]);
  }

  /** The parts hold exactly the last `kept` bytes. */
  ghost predicate HoldsLast(all: Bytes, parts: seq<Bytes>, kept: nat) {
    kept <= |all| && Concat(parts) == all[|all| - kept..]
  }

  lemma TrimStep(all: Bytes, parts: seq<Bytes>, kept: nat, excess: nat)
    requires HoldsLast(all, parts, kept) && 0 < excess <= kept
    ensures parts != []
    ensures |parts[0]| <= excess ==> |parts[0]| <= kept && HoldsLast(all, parts[1..], kept - |parts[0]|)
    ensures |parts[0]| > excess ==> HoldsLast(all, [parts[0][excess..]] + parts[1..], kept - excess)
  {
    assert |Concat(parts)| == kept;
    var n := if |parts[0]| <= excess then |parts[0]| else excess;
    CutFirst(parts, n);
    hide Concat;
    SuffixOfSuffix(all, |all| - kept, n);
  }

  lemma SuffixOfSuffix(s: Bytes, from: nat, n: nat)
    requires from + n <= |s|
    ensures s[from..][n..] == s[from + n..]
  {
  }

  function Last(s: Bytes, n: nat): Bytes { if |s| <= n then s else s[|s| - n..] }

  lemma LastAppend(s: Bytes, more: Bytes)
    requires |s| >= TAIL_CAPTURE_BYTES
    ensures Last(Last(s, TAIL_CAPTURE_BYTES) + more, TAIL_CAPTURE_BYTES) == Last(s + more, TAIL_CAPTURE_BYTES)
  {
  }

  class CappedStream {
    /** Every chunk while the total fits the cap; None once truncated. */
    var wholeParts: Option<seq<Bytes>>
    var wholeBytes: nat
    var head: Bytes
    var tailParts: seq<Bytes>
    var tailBytes: nat
    var truncated: bool
    /** The whole stream so far. */
    ghost var stream: Bytes

    ghost predicate Valid()
      reads this
    {
      && truncated == (|stream| > MAX_STREAM_BYTES) == wholeParts.None?
      && (wholeParts.Some? ==> Concat(wholeParts.value) == stream && wholeBytes == |stream|)
      && (truncated ==>
            && head == stream[..HALF_CAP] && tailBytes == TAIL_CAPTURE_BYTES
            && Concat(tailParts) == Last(stream, TAIL_CAPTURE_BYTES))
    }

    constructor ()
      ensures Valid() && stream == []
    {
      wholeParts, wholeBytes, head, tailParts, tailBytes, truncated, stream := Some([]), 0, [], [], 0, false, [];
    }

    /** The chunk is copied: later writes to its buffer cannot reach the capture. */
    method Push(chunk: array<Byte>)
      requires Valid()
      modifies this
      ensures Valid() && stream == old(stream) + chunk[..]
    {
      var owned := chunk[..];
      stream := stream + owned;
      if wholeParts.Some? {
        var parts := wholeParts.value + [owned];
        assert parts[..|parts| - 1] == wholeParts.value;
        wholeParts, wholeBytes := Some(parts), wholeBytes + |owned|;
        if wholeBytes <= MAX_STREAM_BYTES { return; }
        Freeze(Concat(parts));
        return;
      }
      LastAppend(old(stream), owned);
      AppendPart(owned);
    }

    /** The first byte past the cap: the head is frozen, the tail starts to roll. */
    method Freeze(whole: Bytes)
      requires |whole| > MAX_STREAM_BYTES && stream == whole
      modifies this
      ensures Valid() && stream == old(stream)
    {
      var tail := Last(whole, TAIL_CAPTURE_BYTES);
      wholeParts, truncated, head, tailParts := None, true, whole[..HALF_CAP], [tail];
      tailBytes := |tail|;
      assert tailParts[..0] == [];
    }

    method AppendPart(owned: Bytes)
      requires truncated && wholeParts.None? && tailBytes == TAIL_CAPTURE_BYTES && |Concat(tailParts)| == tailBytes
      modifies this`tailParts, this`tailBytes
      ensures tailBytes == TAIL_CAPTURE_BYTES
      ensures Concat(tailParts) == Last(old(Concat(tailParts)) + owned, TAIL_CAPTURE_BYTES)
    {
      ghost var all := Concat(tailParts) + owned;
      tailParts := tailParts + [owned];
      assert tailParts[..|tailParts| - 1] == old(tailParts);
      tailBytes := tailBytes + |owned|;
      assert Concat(tailParts) == all;
      hide Concat;
      while tailBytes > TAIL_CAPTURE_BYTES
        invariant TAIL_CAPTURE_BYTES <= tailBytes && HoldsLast(all, tailParts, tailBytes)
        decreases tailBytes, |tailParts|
      {
        var excess := tailBytes - TAIL_CAPTURE_BYTES;
        TrimStep(all, tailParts, tailBytes, excess);
        var first := tailParts[0];
        if |first| <= excess {
          tailParts := tailParts[1..];
          tailBytes := tailBytes - |first|;
        } else {
          tailParts := [first[excess..]] + tailParts[1..];
          tailBytes := tailBytes - excess;
        }
      }
    }

    /** The kept text: one piece while nothing is lost, else the aligned head and tail. */
    method Text() returns (pieces: seq<Bytes>)
      requires Valid()
      ensures pieces == Kept(stream)
    {
      if !truncated { return [Concat(wholeParts.value)]; }
      var h := DropTrailingPartialSequence(head);
      var tailWithContext := Concat(tailParts);
      var t := AlignTailToUtf8Scalar(tailWithContext, |tailWithContext| - HALF_CAP);
      return [h, t];
    }
  }

  /** What is kept of a stream, however it was chunked. */
  function Kept(s: Bytes): seq<Bytes> { KeptOf(s, HALF_CAP) }

  function KeptOf(s: Bytes, half: nat): seq<Bytes>
    requires half >= 3
  {
    if |s| <= 2 * half then [s] else [HeadCut(s[..half]), TailCut(s[|s| - half - 3..], 3)]
  }

  lemma HeadCutTrims(s: Bytes)
    ensures HeadCut(s) <= s && |s| <= |HeadCut(s)| + (if |s| <= 3 then |s| else 3)
  {
    var lead := BackOff(s, |s| - 1, 3);
    if |s| > 3 { assert lead >= 0; }
  }

  lemma TailCutTrims(s: Bytes, start: nat)
    requires start < |s|
    ensures |TailCut(s, start)| <= |s| - start <= |TailCut(s, start)| + 3
    ensures TailCut(s, start) == s[|s| - |TailCut(s, start)|..]
  {
  }

  /** A prefix and a suffix of half the cap, each at most three bytes short. */
  ghost predicate HeadAndTail(s: Bytes, kept: seq<Bytes>, half: nat) {
    && |kept| == 2 && kept[0] <= s && |kept[1]| <= |s| && kept[1] == s[|s| - |kept[1]|..]
    && half <= |kept[0]| + 3 <= half + 3 && half <= |kept[1]| + 3 <= half + 3
  }

  ghost predicate AllWellFormed(kept: seq<Bytes>) { forall i :: 0 <= i < |kept| ==> WellFormed(kept[i]) }

  ghost predicate HeadPiece(s: Bytes, half: nat, h: Bytes) {
    h <= s && half <= |h| + 3 <= half + 3 && (WellFormed(s) ==> WellFormed(h))
  }

  ghost predicate TailPiece(s: Bytes, half: nat, t: Bytes) {
    && |t| <= |s| && half <= |t| + 3 <= half + 3 && t == s[|s| - |t|..] && (WellFormed(s) ==> WellFormed(t))
  }

  lemma HeadIsPiece(s: Bytes, half: nat)
    requires 3 < half <= |s|
    ensures HeadPiece(s, half, HeadCut(s[..half]))
  {
    HeadCutTrims(s[..half]);
    if WellFormed(s) { HeadCutAligns(s, half); }
    hide HeadCut, WellFormed;
    assert s[..half] <= s;
  }

  lemma TailIsPiece(s: Bytes, half: nat)
    requires 0 < half && half + 3 <= |s|
    ensures TailPiece(s, half, TailCut(s[|s| - half - 3..], 3))
  {
    var from := |s| - half - 3;
    TailCutTrims(s[from..], 3);
    if WellFormed(s) { TailCutAligns(s, from, 3); }
    hide TailCut, WellFormed;
    var r := TailCut(s[from..], 3);
    SuffixOfSuffix(s, from, |s[from..]| - |r|);
  }

  lemma TwoPieces(s: Bytes, half: nat, h: Bytes, t: Bytes)
    requires HeadPiece(s, half, h) && TailPiece(s, half, t)
    ensures HeadAndTail(s, [h, t], half) && (WellFormed(s) ==> AllWellFormed([h, t]))
  {
    hide WellFormed;
  }

  lemma KeptIsTwo(s: Bytes, half: nat)
    requires 3 < half && 2 * half < |s|
    ensures KeptOf(s, half) == [HeadCut(s[..half]), TailCut(s[|s| - half - 3..], 3)]
  {
    hide HeadCut, TailCut;
  }

  /** Past the cap a prefix and a suffix of half the cap survive, each at most three
      bytes short; and if the stream is well-formed UTF-8, so is all that is kept. */
  lemma KeptPieces(s: Bytes, half: nat)
    requires half > 3
    ensures |s| <= 2 * half ==> KeptOf(s, half) == [s]
    ensures |s| > 2 * half ==> HeadAndTail(s, KeptOf(s, half), half)
    ensures WellFormed(s) ==> AllWellFormed(KeptOf(s, half))
  {
    if |s| > 2 * half {
      hide *;
      HeadIsPiece(s, half);
      TailIsPiece(s, half);
      KeptIsTwo(s, half);
      TwoPieces(s, half, HeadCut(s[..half]), TailCut(s[|s| - half - 3..], 3));
    } else {
      hide HeadCut, TailCut, WellFormed;
    }
  }
}
