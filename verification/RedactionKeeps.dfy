/**
 What redaction keeps: everything outside the occurrences it replaces, verbatim and in
 order, with one marker for each match of the exact scan and one for each merged run of
 needle matches.
 */
module RedactionKeeps {
  import opened Wrappers
  import opened ArtifactPolicy
  import opened Redaction
  import opened Utf16

  /** A stretch of a text, kept as it is or replaced by one marker. */
  datatype Piece = Kept(start: nat, end: nat) | Cut(start: nat, end: nat)

  /** The pieces lie side by side and make up the text from `from` on. */
  ghost predicate Tiles(t: Text, ps: seq<Piece>, from: nat) {
    if ps == [] then from == |t|
    else ps[0].start == from && from <= ps[0].end <= |t| && Tiles(t, ps[1..], ps[0].end)
  }

  function Became(t: Text, ps: seq<Piece>, from: nat, marker: Unit): Text
    requires Tiles(t, ps, from)
    decreases |ps|
  {
    if ps == [] then []
    else (if ps[0].Kept? then t[ps[0].start..ps[0].end] else [marker]) + Became(t, ps[1..], ps[0].end, marker)
  }

  /** The form that the exact scan takes at a position: the first listed one that occurs there. */
  ghost predicate FirstThere(t: Text, forms: seq<Text>, at: nat, end: nat) {
    exists k :: 0 <= k < |forms| && IsForm(t, forms, k, at) && end == at + |forms[k]|
      && forall h :: 0 <= h < k ==> !IsForm(t, forms, h, at)
  }

  predicate IsForm(t: Text, forms: seq<Text>, k: nat, at: nat)
    requires k < |forms|
  {
    forms[k] != [] && Occurs(t, forms[k], at)
  }

  ghost predicate NoneThere(t: Text, forms: seq<Text>, at: nat) {
    forall k :: 0 <= k < |forms| ==> !IsForm(t, forms, k, at)
  }

  /** What is cut is a form, and where something is kept no form begins. */
  ghost predicate CutsForms(t: Text, forms: seq<Text>, ps: seq<Piece>) {
    forall i :: 0 <= i < |ps| ==>
      if ps[i].Cut? then FirstThere(t, forms, ps[i].start, ps[i].end)
      else forall p :: ps[i].start <= p < ps[i].end ==> NoneThere(t, forms, p)
  }

  /** Where a match of a needle lies in the text itself, separators included. */
  ghost predicate Match(t: Text, f: Unit -> Text, words: seq<Text>, s: Span) {
    exists w, j :: MatchAt(t, f, words, w, j, s)
  }

  ghost predicate MatchAt(t: Text, f: Unit -> Text, words: seq<Text>, w: Text, j: nat, s: Span) {
    && w in words && w != [] && Occurs(View(t, f), w, j)
    && s == Span(Sources(t, f, 0)[j], Sources(t, f, 0)[j + |w| - 1] + 1)
  }

  ghost predicate Hit(t: Text, n: Needles, lower: Unit -> Text, s: Span) {
    Match(t, Strip, n.tolerantCS, s) || Match(t, Fold(lower), n.tolerantCI, s)
  }

  ghost predicate BeginsHit(t: Text, n: Needles, lower: Unit -> Text, p: nat) {
    exists s :: Hit(t, n, lower, s) && s.start == p
  }

  ghost predicate EndsHit(t: Text, n: Needles, lower: Unit -> Text, p: nat) {
    exists s :: Hit(t, n, lower, s) && s.end == p
  }

  ghost predicate InHit(t: Text, n: Needles, lower: Unit -> Text, p: nat) {
    exists s :: Hit(t, n, lower, s) && s.start <= p < s.end
  }

  /** A cut goes from the begin of a match to the end of one and lies in matches
      throughout; no match begins where something is kept. */
  ghost predicate CutsHits(t: Text, n: Needles, lower: Unit -> Text, ps: seq<Piece>) {
    forall i :: 0 <= i < |ps| ==> CutOk(t, n, lower, ps[i])
  }

  ghost predicate CutOk(t: Text, n: Needles, lower: Unit -> Text, x: Piece) {
    if x.Cut? then
      && BeginsHit(t, n, lower, x.start) && EndsHit(t, n, lower, x.end)
      && forall p :: x.start <= p < x.end ==> InHit(t, n, lower, p)
    else forall p :: x.start <= p < x.end ==> !BeginsHit(t, n, lower, p)
  }

  /** Kept and cut pieces take turns, and between two cuts something is kept. */
  ghost predicate Apart(ps: seq<Piece>) {
    && (forall i :: 0 <= i < |ps| - 1 ==> ps[i].Cut? != ps[i + 1].Cut?)
    && (forall i :: 0 < i < |ps| - 1 && ps[i].Kept? ==> ps[i].start < ps[i].end)
  }

  // ---- Pieces of a replacement ----

  function PiecesOf(t: Text, spans: seq<Span>, from: nat): seq<Piece>
    decreases |spans|
  {
    if spans == [] then [Kept(from, |t|)]
    else [Kept(from, spans[0].start), Cut(spans[0].start, spans[0].end)] + PiecesOf(t, spans[1..], spans[0].end)
  }

  lemma {:induction false} ReplaceIsPieces(t: Text, spans: seq<Span>, from: nat, marker: Unit)
    requires SpansOk(spans, from, |t|)
    ensures Tiles(t, PiecesOf(t, spans, from), from)
    ensures Became(t, PiecesOf(t, spans, from), from, marker) == Replace(t, spans, from, marker)
    decreases |spans|
  {
    SpansEnd(spans, from, |t|);
    var ps := PiecesOf(t, spans, from);
    if spans == [] {
      assert ps[1..] == [];
      assert Became(t, ps[1..], |t|, marker) == [];
      assert t[from..|t|] == t[from..];
    } else {
      var rest := PiecesOf(t, spans[1..], spans[0].end);
      ReplaceIsPieces(t, spans[1..], spans[0].end, marker);
      assert ps[1..][1..] == rest;
      assert ps[1..][0] == Cut(spans[0].start, spans[0].end);
      assert Tiles(t, ps[1..], spans[0].start);
      Reassociate(t[from..spans[0].start], [marker], Became(t, rest, spans[0].end, marker));
    }
  }

  /** Where the i-th piece comes from: a span, or the gap before one or after the last. */
  lemma {:induction false} PieceIs(t: Text, spans: seq<Span>, from: nat, i: nat)
    requires SpansOk(spans, from, |t|) && i < |PiecesOf(t, spans, from)|
    ensures |PiecesOf(t, spans, from)| == 2 * |spans| + 1
    ensures PiecesOf(t, spans, from)[i].Cut? <==> i % 2 == 1
    ensures i % 2 == 1 ==> PiecesOf(t, spans, from)[i] == Cut(spans[i / 2].start, spans[i / 2].end)
    ensures i % 2 == 0 ==>
      PiecesOf(t, spans, from)[i] == Kept(if i == 0 then from else spans[i / 2 - 1].end,
                                          if i == 2 * |spans| then |t| else spans[i / 2].start)
    decreases |spans|
  {
    if spans != [] {
      if i >= 2 {
        PieceIs(t, spans[1..], spans[0].end, i - 2);
        assert (i - 2) / 2 == i / 2 - 1;
      } else {
        PieceIs(t, spans[1..], spans[0].end, 0);
      }
    }
  }

  /** Nothing in a gap is covered. */
  lemma {:induction false} GapUncovered(spans: seq<Span>, from: nat, to: nat, k: nat, p: nat)
    requires SpansOk(spans, from, to) && k <= |spans|
    requires (if k == 0 then from else spans[k - 1].end) <= p && (k < |spans| ==> p < spans[k].start)
    ensures !Covered(p, spans)
  {
    if spans != [] {
      HeadOff(spans, p);
      SpansEnd(spans, from, to);
      if k == 0 {
        BeforeSpans(spans, from, to, p);
      } else {
        SpanBefore(spans, from, to, k - 1);
        GapUncovered(spans[1..], spans[0].end, to, k - 1, p);
      }
    }
  }

  lemma {:induction false} SpanBefore(spans: seq<Span>, from: nat, to: nat, k: nat)
    requires SpansOk(spans, from, to) && k < |spans|
    ensures from <= spans[k].start < spans[k].end <= to && spans[0].end <= spans[k].end
  {
    SpansEnd(spans, from, to);
    if k > 0 {
      SpanBefore(spans[1..], spans[0].end, to, k - 1);
      SpansEnd(spans[1..], spans[0].end, to);
    }
  }

  // ---- The exact scan ----

  lemma {:induction false} FormAtIsFirst(t: Text, forms: seq<Text>, i: nat)
    ensures FormAt(t, forms, i) == 0 ==> NoneThere(t, forms, i)
    ensures FormAt(t, forms, i) > 0 ==> FirstThere(t, forms, i, i + FormAt(t, forms, i))
  {
    if forms != [] {
      if forms[0] != [] && Occurs(t, forms[0], i) {
        assert IsForm(t, forms, 0, i);
      } else {
        FormAtIsFirst(t, forms[1..], i);
        if FormAt(t, forms, i) > 0 {
          var k :| 0 <= k < |forms[1..]| && IsForm(t, forms[1..], k, i) && FormAt(t, forms, i) == |forms[1..][k]|
            && forall h :: 0 <= h < k ==> !IsForm(t, forms[1..], h, i);
          assert IsForm(t, forms, k + 1, i);
          forall h | 0 <= h < k + 1 ensures !IsForm(t, forms, h, i) {
            if h > 0 { assert !IsForm(t, forms[1..], h - 1, i); }
          }
        } else {
          forall k | 0 <= k < |forms| ensures !IsForm(t, forms, k, i) {
            if k > 0 { assert !IsForm(t, forms[1..], k - 1, i); }
          }
        }
      }
    }
  }

  lemma {:induction false} ExactSpansAreForms(t: Text, forms: seq<Text>, i: nat)
    requires i <= |t|
    ensures var spans := ExactSpans(t, forms, i);
      && (forall k :: 0 <= k < |spans| ==> FirstThere(t, forms, spans[k].start, spans[k].end))
      && (forall p: nat :: i <= p < |t| && !Covered(p, spans) ==> NoneThere(t, forms, p))
    decreases |t| - i
  {
    if i < |t| {
      var n := FormAt(t, forms, i);
      FormAtIsFirst(t, forms, i);
      var spans := ExactSpans(t, forms, i);
      if n == 0 {
        ExactSpansAreForms(t, forms, i + 1);
        assert spans == ExactSpans(t, forms, i + 1);
        hide ExactSpans, FormAt, FirstThere, NoneThere;
        forall p: nat | i <= p < |t| && !Covered(p, spans) ensures NoneThere(t, forms, p) {}
      } else {
        ExactSpansAreForms(t, forms, i + n);
        var rest := ExactSpans(t, forms, i + n);
        assert spans == [Span(i, i + n)] + rest;
        assert spans[1..] == rest;
        hide ExactSpans, FormAt, FirstThere, NoneThere;
        forall p: nat | i <= p < |t| && !Covered(p, spans) ensures NoneThere(t, forms, p) { HeadOff(spans, p); }
      }
    }
  }

  lemma ScanTakesForm(t: Text, forms: seq<Text>, k: nat)
    requires k < |ExactSpans(t, forms, 0)|
    ensures var s := ExactSpans(t, forms, 0)[k]; FirstThere(t, forms, s.start, s.end)
  {
    ExactSpansAreForms(t, forms, 0);
    hide ExactSpans;
  }

  lemma ExactPieces(t: Text, forms: seq<Text>, marker: Unit) returns (ps: seq<Piece>)
    ensures Tiles(t, ps, 0) && CutsForms(t, forms, ps) && ExactPass(t, forms, marker) == Became(t, ps, 0, marker)
  {
    var spans := ExactSpans(t, forms, 0);
    ps := PiecesOf(t, spans, 0);
    ExactSpansOk(t, forms, 0);
    ExactSpansAreForms(t, forms, 0);
    ReplaceIsPieces(t, spans, 0, marker);
    hide ExactSpans, PiecesOf, Tiles, FirstThere, NoneThere, Covered, Replace, Became;
    forall i | 0 <= i < |ps|
      ensures
        if ps[i].Cut? then FirstThere(t, forms, ps[i].start, ps[i].end)
        else forall p :: ps[i].start <= p < ps[i].end ==> NoneThere(t, forms, p)
    {
      PieceIs(t, spans, 0, i);
      if ps[i].Cut? {
        ScanTakesForm(t, forms, i / 2);
      } else {
        forall p | ps[i].start <= p < ps[i].end ensures NoneThere(t, forms, p) {
          if i / 2 < |spans| { SpanBefore(spans, 0, |t|, i / 2); }
          GapUncovered(spans, 0, |t|, i / 2, p);
        }
      }
    }
  }

  // ---- The needles ----

  lemma {:induction false} CollectedAreMatches(t: Text, f: Unit -> Text, words: seq<Text>, w: Text, from: nat)
    requires w in words && w != []
    ensures forall s :: s in Collect(View(t, f), Sources(t, f, 0), w, from) ==> Match(t, f, words, s)
    decreases |View(t, f)| - from
  {
    var h, origin := View(t, f), Sources(t, f, 0);
    var i := Redaction.IndexOf(h, w, from);
    if i >= 0 {
      CollectedAreMatches(t, f, words, w, i + |w|);
      assert MatchAt(t, f, words, w, i, Span(origin[i], origin[i + |w| - 1] + 1));
    }
  }

  lemma {:induction false} AllCollectedAreMatches(t: Text, f: Unit -> Text, words: seq<Text>, some: seq<Text>)
    requires NonEmpty(some) && forall w :: w in some ==> w in words
    ensures forall s :: s in CollectAll(View(t, f), Sources(t, f, 0), some) ==> Match(t, f, words, s)
  {
    if some != [] {
      CollectedAreMatches(t, f, words, some[0], 0);
      AllCollectedAreMatches(t, f, words, some[1..]);
    }
  }

  lemma SpansAreHits(t: Text, n: Needles, lower: Unit -> Text)
    requires NonEmpty(n.tolerantCS) && NonEmpty(n.tolerantCI)
    ensures forall s :: s in TolerantSpans(t, n, lower) ==> Hit(t, n, lower, s)
  {
    AllCollectedAreMatches(t, Strip, n.tolerantCS, n.tolerantCS);
    AllCollectedAreMatches(t, Fold(lower), n.tolerantCI, n.tolerantCI);
    hide CollectAll, Match;
  }

  lemma HitsAreTouched(t: Text, n: Needles, lower: Unit -> Text, s: Span)
    requires NonEmpty(n.tolerantCS) && NonEmpty(n.tolerantCI) && Hit(t, n, lower, s)
    ensures Covered(s.start, TolerantSpans(t, n, lower))
  {
    TolerantSpansOk(t, n, lower);
    hide View, Sources, TolerantSpans, Covered, Occurs;
    if Match(t, Strip, n.tolerantCS, s) {
      var w, j :| MatchAt(t, Strip, n.tolerantCS, w, j, s);
    } else {
      var w, j :| MatchAt(t, Fold(lower), n.tolerantCI, w, j, s);
    }
  }

  lemma {:induction false} SortedSame(s: seq<Span>)
    ensures forall x :: x in SortSpans(s) <==> x in s
  {
    if s != [] {
      SortedSame(s[1..]);
      InsertedSame(s[0], SortSpans(s[1..]));
      assert s == [s[0]] + s[1..];
    }
  }

  lemma {:induction false} InsertedSame(x: Span, s: seq<Span>)
    ensures forall y :: y in InsertSpan(x, s) <==> y == x || y in s
  {
    if s != [] {
      InsertedSame(x, s[1..]);
      assert s == [s[0]] + s[1..];
    }
  }

  ghost predicate StartsOne(x: Span, of: seq<Span>) { exists y :: y in of && y.start == x.start }

  ghost predicate EndsOne(x: Span, of: seq<Span>) { exists y :: y in of && y.end == x.end }

  /** Merged spans begin and end where given ones do, with a gap between any two. */
  ghost predicate Runs(merged: seq<Span>, of: seq<Span>) {
    && (forall x :: x in merged ==> StartsOne(x, of) && EndsOne(x, of))
    && (forall k :: 0 <= k < |merged| - 1 ==> merged[k].end < merged[k + 1].start)
  }

  lemma RunsOfMore(merged: seq<Span>, some: seq<Span>, of: seq<Span>)
    requires Runs(merged, some)
    requires forall y :: y in some ==> StartsOne(y, of) && EndsOne(y, of)
    ensures Runs(merged, of)
  {
    forall x | x in merged ensures StartsOne(x, of) && EndsOne(x, of) {
      assert StartsOne(x, some) && EndsOne(x, some);
      var y :| y in some && y.start == x.start;
      var z :| z in some && z.end == x.end;
      assert StartsOne(y, of) && EndsOne(z, of);
    }
  }

  lemma GapFirst(current: Span, tail: seq<Span>, some: seq<Span>)
    requires tail != [] && Runs(tail, some) && current.end < tail[0].start
    ensures Runs([current] + tail, [current] + some)
  {
    var merged, of := [current] + tail, [current] + some;
    assert of[0] == current && forall y :: y in some ==> y in of;
    forall x | x in merged ensures StartsOne(x, of) && EndsOne(x, of) {
      if x in tail { assert StartsOne(x, some) && EndsOne(x, some); }
      assert current in of;
    }
    forall k | 0 <= k < |merged| - 1 ensures merged[k].end < merged[k + 1].start {
      if k > 0 { assert tail[k - 1].end < tail[k - 1 + 1].start; }
    }
  }

  lemma JoinedEnds(current: Span, joined: Span, rest: seq<Span>)
    requires rest != [] && joined.start == current.start && joined.end in {current.end, rest[0].end}
    ensures forall y :: y in [joined] + rest[1..] ==> StartsOne(y, [current] + rest) && EndsOne(y, [current] + rest)
  {
    var of := [current] + rest;
    assert of[0] == current && of[1] == rest[0];
    assert current in of && rest[0] in of;
    forall y | y in [joined] + rest[1..] ensures StartsOne(y, of) && EndsOne(y, of) {
      assert y == joined || y in of;
    }
  }

  lemma {:induction false} MergeRuns(current: Span, rest: seq<Span>)
    ensures Merge(current, rest) != [] && Merge(current, rest)[0].start == current.start
    ensures Runs(Merge(current, rest), [current] + rest)
    decreases |rest|
  {
    hide Runs, StartsOne, EndsOne;
    if rest == [] {
      OneRun(current);
    } else if rest[0].start <= current.end {
      var joined := Span(current.start, if rest[0].end > current.end then rest[0].end else current.end);
      MergeRuns(joined, rest[1..]);
      JoinedEnds(current, joined, rest);
      RunsOfMore(Merge(current, rest), [joined] + rest[1..], [current] + rest);
    } else {
      MergeRuns(rest[0], rest[1..]);
      assert [rest[0]] + rest[1..] == rest;
      GapFirst(current, Merge(rest[0], rest[1..]), rest);
    }
  }

  lemma OneRun(x: Span)
    ensures Runs([x], [x] + [])
  {
    assert [x] + [] == [x] && x in [x];
  }

  lemma MergedRuns(spans: seq<Span>)
    requires spans != []
    ensures Runs(Merged(spans), spans)
  {
    var s := SortSpans(spans);
    SortedSame(spans);
    if s != [] {
      MergeRuns(s[0], s[1..]);
      assert [s[0]] + s[1..] == s;
      hide Merge, SortSpans;
      forall y | y in s ensures StartsOne(y, spans) && EndsOne(y, spans) { assert y in spans; }
      RunsOfMore(Merge(s[0], s[1..]), s, spans);
    }
  }

  lemma CoveredIsInHit(t: Text, n: Needles, lower: Unit -> Text, spans: seq<Span>, p: nat)
    requires (forall s :: s in spans ==> Hit(t, n, lower, s)) && Covered(p, spans)
    ensures InHit(t, n, lower, p)
  {
    hide Hit;
    var k :| 0 <= k < |spans| && spans[k].start <= p < spans[k].end;
    assert spans[k] in spans;
  }

  lemma RunIsHit(t: Text, n: Needles, lower: Unit -> Text, spans: seq<Span>, merged: seq<Span>, k: nat)
    requires (forall s :: s in spans ==> Hit(t, n, lower, s)) && Runs(merged, spans) && k < |merged|
    ensures BeginsHit(t, n, lower, merged[k].start) && EndsHit(t, n, lower, merged[k].end)
  {
    hide Hit;
    assert merged[k] in merged;
    assert StartsOne(merged[k], spans) && EndsOne(merged[k], spans);
    var y :| y in spans && y.start == merged[k].start;
    var z :| z in spans && z.end == merged[k].end;
    assert Hit(t, n, lower, y) && Hit(t, n, lower, z);
  }

  /** The spans of one text and what they merge to. */
  ghost predicate Covers(t: Text, n: Needles, lower: Unit -> Text, spans: seq<Span>, merged: seq<Span>) {
    && (forall s :: s in spans ==> Hit(t, n, lower, s)) && Runs(merged, spans) && SpansOk(merged, 0, |t|)
    && (forall p: nat :: Covered(p, merged) <==> Covered(p, spans))
    && (forall s :: Hit(t, n, lower, s) ==> Covered(s.start, spans))
  }

  lemma RunPiece(t: Text, n: Needles, lower: Unit -> Text, spans: seq<Span>, merged: seq<Span>, i: nat)
    requires Covers(t, n, lower, spans, merged) && i < |PiecesOf(t, merged, 0)|
    ensures CutOk(t, n, lower, PiecesOf(t, merged, 0)[i])
  {
    var x := PiecesOf(t, merged, 0)[i];
    PieceIs(t, merged, 0, i);
    hide Hit, PiecesOf, Runs;
    if x.Cut? {
      RunIsHit(t, n, lower, spans, merged, i / 2);
      forall p | x.start <= p < x.end ensures InHit(t, n, lower, p) {
        assert Covered(p, merged);
        CoveredIsInHit(t, n, lower, spans, p);
      }
    } else {
      forall p | x.start <= p < x.end ensures !BeginsHit(t, n, lower, p) {
        if i / 2 < |merged| { SpanBefore(merged, 0, |t|, i / 2); }
        GapUncovered(merged, 0, |t|, i / 2, p);
      }
    }
  }

  lemma RunsApart(t: Text, merged: seq<Span>, spans: seq<Span>)
    requires SpansOk(merged, 0, |t|) && Runs(merged, spans)
    ensures Apart(PiecesOf(t, merged, 0))
  {
    var ps := PiecesOf(t, merged, 0);
    hide PiecesOf;
    forall i | 0 <= i < |ps| - 1 ensures ps[i].Cut? != ps[i + 1].Cut? {
      PieceIs(t, merged, 0, i);
      PieceIs(t, merged, 0, i + 1);
    }
    forall i | 0 < i < |ps| - 1 && ps[i].Kept? ensures ps[i].start < ps[i].end {
      PieceIs(t, merged, 0, i);
      assert merged[i / 2 - 1].end < merged[i / 2 - 1 + 1].start;
    }
  }

  function MergedSpans(t: Text, n: Needles, lower: Unit -> Text): seq<Span>
    requires NonEmpty(n.tolerantCS) && NonEmpty(n.tolerantCI)
  {
    var spans := TolerantSpans(t, n, lower);
    if spans == [] then [] else Merged(spans)
  }

  lemma PassIsReplace(t: Text, n: Needles, lower: Unit -> Text, marker: Unit)
    requires NonEmpty(n.tolerantCS) && NonEmpty(n.tolerantCI)
    ensures var merged := MergedSpans(t, n, lower);
      SpansOk(merged, 0, |t|) && TolerantPass(t, n, marker, lower) == Replace(t, merged, 0, marker)
  {
    TolerantSpansOk(t, n, lower);
    var spans := TolerantSpans(t, n, lower);
    hide TolerantSpans, Merged, View, Sources, Occurs, Covered;
    if spans == [] { assert t[0..] == t; } else { MergedKeeps(spans, |t|); }
  }

  lemma AllHitsAreTouched(t: Text, n: Needles, lower: Unit -> Text)
    requires NonEmpty(n.tolerantCS) && NonEmpty(n.tolerantCI)
    ensures forall s :: Hit(t, n, lower, s) ==> Covered(s.start, TolerantSpans(t, n, lower))
  {
    hide *;
    forall s | Hit(t, n, lower, s) ensures Covered(s.start, TolerantSpans(t, n, lower)) {
      HitsAreTouched(t, n, lower, s);
    }
  }

  lemma MergedCover(spans: seq<Span>, n: nat)
    requires InText(spans, n)
    ensures var merged := if spans == [] then [] else Merged(spans);
      SpansOk(merged, 0, n) && Runs(merged, spans) && forall p: nat :: Covered(p, merged) <==> Covered(p, spans)
  {
    hide Merged, Runs;
    if spans != [] {
      MergedKeeps(spans, n);
      MergedRuns(spans);
      hide Covered;
    } else {
      NoRuns();
    }
  }

  lemma SpansCover(t: Text, n: Needles, lower: Unit -> Text)
    requires NonEmpty(n.tolerantCS) && NonEmpty(n.tolerantCI)
    ensures Covers(t, n, lower, TolerantSpans(t, n, lower), MergedSpans(t, n, lower))
  {
    var spans := TolerantSpans(t, n, lower);
    assert MergedSpans(t, n, lower) == if spans == [] then [] else Merged(spans);
    assert InText(spans, |t|) by {
      TolerantSpansOk(t, n, lower);
      hide View, Sources, Occurs, Covered, TolerantSpans;
    }
    hide TolerantSpans, MergedSpans, NonEmpty, InText, Hit, Covered, Runs, Merged, SpansOk;
    SpansAreHits(t, n, lower);
    AllHitsAreTouched(t, n, lower);
    MergedCover(spans, |t|);
  }

  lemma NoRuns()
    ensures Runs([], [])
  {
  }

  /** The tolerant pass in pieces. */
  lemma TolerantPieces(t: Text, n: Needles, lower: Unit -> Text, marker: Unit) returns (ps: seq<Piece>)
    requires NonEmpty(n.tolerantCS) && NonEmpty(n.tolerantCI)
    ensures Tiles(t, ps, 0) && CutsHits(t, n, lower, ps) && Apart(ps)
    ensures TolerantPass(t, n, marker, lower) == Became(t, ps, 0, marker)
  {
    var spans, merged := TolerantSpans(t, n, lower), MergedSpans(t, n, lower);
    SpansCover(t, n, lower);
    PassIsReplace(t, n, lower, marker);
    assert Runs(merged, spans) by { hide Hit, Runs, MergedSpans, TolerantSpans, Covered; }
    hide TolerantSpans, TolerantPass, MergedSpans, Covers, View, Sources, NonEmpty, CutOk, Replace, Became, Tiles, Runs,
         PiecesOf, Apart;
    ps := PiecesOf(t, merged, 0);
    ReplaceIsPieces(t, merged, 0, marker);
    forall i | 0 <= i < |ps| ensures CutOk(t, n, lower, ps[i]) { RunPiece(t, n, lower, spans, merged, i); }
    RunsApart(t, merged, spans);
  }

  // ---- What is not protected is kept ----

  /** The exact scan in pieces: the forms it takes, and everything else. */
  ghost predicate ScansTo(t: Text, forms: seq<Text>, marker: Unit, r: Text, ps: seq<Piece>) {
    Tiles(t, ps, 0) && CutsForms(t, forms, ps) && r == Became(t, ps, 0, marker)
  }

  /** The tolerant pass in pieces: merged runs of matches, and everything else. */
  ghost predicate MergesTo(t: Text, n: Needles, lower: Unit -> Text, marker: Unit, r: Text, ps: seq<Piece>) {
    Tiles(t, ps, 0) && CutsHits(t, n, lower, ps) && Apart(ps) && r == Became(t, ps, 0, marker)
  }

  /** With a marker, a redacted text is the text with the forms found by one leftmost scan
      replaced, and then with every merged run of needle matches replaced, by one marker
      each; all the rest is there, unit for unit and in order. */
  lemma RedactionKeepsTheRest(t: Text, n: Needles, lower: Unit -> Text)
    requires Compiled(n, lower) && Marker(n, lower).Some?
    ensures
      var m := Marker(n, lower).value;
      exists mid, ps, qs :: ScansTo(t, n.exact, m, mid, ps) && MergesTo(mid, n, lower, m, Redact(t, n, lower), qs)
  {
    var m := Marker(n, lower).value;
    var mid := ExactPass(t, n.exact, m);
    if t == [] { NothingToRedact(n, lower, m); }
    assert Redact(t, n, lower) == TolerantPass(mid, n, m, lower);
    hide ExactPass, TolerantPass, Redact, Tiles, CutsForms, CutsHits, Apart, Became;
    var ps := ExactPieces(t, n.exact, m);
    var qs := TolerantPieces(mid, n, lower, m);
    assert ScansTo(t, n.exact, m, mid, ps);
    assert MergesTo(mid, n, lower, m, Redact(t, n, lower), qs);
  }

  lemma NothingToRedact(n: Needles, lower: Unit -> Text, m: Unit)
    requires Compiled(n, lower)
    ensures TolerantPass(ExactPass([], n.exact, m), n, m, lower) == []
  {
    assert ExactSpans([], n.exact, 0) == [];
    assert ExactPass([], n.exact, m) == [];
    forall i | 0 <= i < |n.tolerantCS| ensures !Contains(View([], Strip), n.tolerantCS[i]) {}
    NoNeedleNoSpan(View([], Strip), Sources([], Strip, 0), n.tolerantCS);
    NoNeedleNoSpan(View([], Fold(lower)), Sources([], Fold(lower), 0), n.tolerantCI);
  }

  // ---- One secret in a text ----

  /** Longer forms are tried first. */
  ghost predicate LongestFirst(forms: seq<Text>) {
    forall i, j :: 0 <= i < j < |forms| ==> |forms[i]| >= |forms[j]|
  }

  /** Every form that occurs does so inside the stretch. */
  ghost predicate OnlyWithin(t: Text, forms: seq<Text>, start: nat, end: nat) {
    forall k, p :: 0 <= k < |forms| && 0 <= p <= |t| && IsForm(t, forms, k, p) ==> start <= p && p + |forms[k]| <= end
  }

  lemma {:induction false} FormAtLone(t: Text, forms: seq<Text>, i: nat, start: nat, end: nat)
    requires i <= |t| && OnlyWithin(t, forms, start, end) && (i < start || i >= end)
    ensures FormAt(t, forms, i) == 0
  {
    FormAtIsFirst(t, forms, i);
  }

  lemma LongestIsFirst(t: Text, forms: seq<Text>, w: Text, at: nat)
    requires LongestFirst(forms) && w in forms && w != [] && Occurs(t, w, at)
    requires OnlyWithin(t, forms, at, at + |w|)
    ensures FormAt(t, forms, at) == |w|
  {
    FormAtIsFirst(t, forms, at);
    FormAtFinds(t, forms, at, w);
    var h :| 0 <= h < |forms| && forms[h] == w;
    assert IsForm(t, forms, h, at);
    var k :| 0 <= k < |forms| && IsForm(t, forms, k, at) && FormAt(t, forms, at) == |forms[k]|
      && forall h :: 0 <= h < k ==> !IsForm(t, forms, h, at);
    assert k <= h;
  }

  lemma {:induction false} LoneSpan(t: Text, forms: seq<Text>, w: Text, at: nat, i: nat)
    requires i <= |t| && w != [] && (i <= at || i == at + |w|)
    requires at + |w| <= |t| && OnlyWithin(t, forms, at, at + |w|) && FormAt(t, forms, at) == |w|
    ensures ExactSpans(t, forms, i) == if i <= at then [Span(at, at + |w|)] else []
    decreases |t| - i
  {
    if i < at {
      FormAtLone(t, forms, i, at, at + |w|);
      LoneSpan(t, forms, w, at, i + 1);
    } else if i == at {
      LoneSpan(t, forms, w, at, at + |w|);
      assert [Span(at, at + |w|)] + [] == [Span(at, at + |w|)];
    } else {
      NoneAfter(t, forms, at, at + |w|, i);
    }
  }

  lemma {:induction false} NoneAfter(t: Text, forms: seq<Text>, start: nat, end: nat, i: nat)
    requires end <= i <= |t| && OnlyWithin(t, forms, start, end)
    ensures ExactSpans(t, forms, i) == []
    decreases |t| - i
  {
    if i < |t| {
      FormAtLone(t, forms, i, start, end);
      NoneAfter(t, forms, start, end, i + 1);
    }
  }

  lemma ReplaceOne(a: Text, x: Text, b: Text, marker: Unit)
    requires x != []
    ensures var s := Span(|a|, |a| + |x|);
      SpansOk([s], 0, |a + x + b|) && Replace(a + x + b, [s], 0, marker) == a + [marker] + b
  {
    var t, s := a + x + b, Span(|a|, |a| + |x|);
    assert [s][1..] == [];
    assert t[0..|a|] == a && t[|a| + |x|..] == b;
    Reassociate(a, [marker], b);
    assert Replace(t, [], |a| + |x|, marker) == b;
    assert Replace(t, [s], 0, marker) == t[0..|a|] + [marker] + Replace(t, [], |a| + |x|, marker);
  }

  /** No needle shows in the text. */
  ghost predicate NoNeedle(t: Text, n: Needles, lower: Unit -> Text) {
    && (forall i :: 0 <= i < |n.tolerantCS| ==> !Contains(View(t, Strip), n.tolerantCS[i]))
    && (forall i :: 0 <= i < |n.tolerantCI| ==> !Contains(View(t, Fold(lower)), n.tolerantCI[i]))
  }

  lemma MarkerParts(a: Text, b: Text, m: Unit, f: Unit -> Text, w: Text)
    requires |f(m)| == 1 && f(m)[0] !in w && w != []
    requires !Contains(View(a, f), w) && !Contains(View(b, f), w)
    ensures !Contains(View(a + [m] + b, f), w)
  {
    ViewJoin(a + [m], b, f);
    ViewJoin(a, [m], f);
    assert [m][1..] == [];
    assert View([m], f) == f(m) == [f(m)[0]];
    if k :| Occurs(View(a + [m] + b, f), w, k) {
      hide View;
      OneSide(View(a, f), f(m)[0], View(b, f), w, k);
    }
  }

  lemma MarkedHasNoNeedle(a: Text, b: Text, n: Needles, lower: Unit -> Text)
    requires Compiled(n, lower) && Marker(n, lower).Some? && NoNeedle(a, n, lower) && NoNeedle(b, n, lower)
    ensures NoNeedle(a + [Marker(n, lower).value] + b, n, lower)
  {
    var m := Marker(n, lower).value;
    MarkerStandsAlone(n, lower);
    hide View, Marker, Contains;
    forall i | 0 <= i < |n.tolerantCS| ensures !Contains(View(a + [m] + b, Strip), n.tolerantCS[i]) {
      MarkerParts(a, b, m, Strip, n.tolerantCS[i]);
    }
    forall i | 0 <= i < |n.tolerantCI| ensures !Contains(View(a + [m] + b, Fold(lower)), n.tolerantCI[i]) {
      MarkerParts(a, b, m, Fold(lower), n.tolerantCI[i]);
    }
  }

  lemma NoNeedleNoPass(t: Text, n: Needles, m: Unit, lower: Unit -> Text)
    requires NonEmpty(n.tolerantCS) && NonEmpty(n.tolerantCI) && NoNeedle(t, n, lower)
    ensures TolerantPass(t, n, m, lower) == t
  {
    NoNeedleNoSpan(View(t, Strip), Sources(t, Strip, 0), n.tolerantCS);
    NoNeedleNoSpan(View(t, Fold(lower)), Sources(t, Fold(lower), 0), n.tolerantCI);
  }

  /** A secret in otherwise clean text is replaced by one marker, and the text around it
      is kept. */
  lemma LoneSecretIsMarked(a: Text, w: Text, b: Text, n: Needles, lower: Unit -> Text)
    requires Compiled(n, lower) && LongestFirst(n.exact) && Marker(n, lower).Some? && w in n.exact
    requires OnlyWithin(a + w + b, n.exact, |a|, |a| + |w|) && NoNeedle(a, n, lower) && NoNeedle(b, n, lower)
    ensures Redact(a + w + b, n, lower) == a + [Marker(n, lower).value] + b
  {
    var t, m := a + w + b, Marker(n, lower).value;
    LoneFormMarked(a, w, b, n.exact, m);
    MarkedHasNoNeedle(a, b, n, lower);
    assert t != [] by { NeedleNotEmpty(n, w); }
    hide ExactPass, OnlyWithin, NoNeedle, Marker, TolerantPass, LongestFirst;
    NoNeedleNoPass(a + [m] + b, n, m, lower);
  }

  lemma LoneFormMarked(a: Text, w: Text, b: Text, forms: seq<Text>, m: Unit)
    requires NonEmpty(forms) && LongestFirst(forms) && w in forms && OnlyWithin(a + w + b, forms, |a|, |a| + |w|)
    ensures w != [] && ExactPass(a + w + b, forms, m) == a + [m] + b
  {
    var t := a + w + b;
    assert t[|a|..|a| + |w|] == w;
    hide ExactSpans, FormAt;
    LongestIsFirst(t, forms, w, |a|);
    LoneSpan(t, forms, w, |a|, 0);
    hide OnlyWithin, LongestFirst;
    ReplaceOne(a, w, b, m);
  }

  predicate AllOne(spans: seq<Span>, s: Span) { forall i :: 0 <= i < |spans| ==> spans[i] == s }

  lemma {:induction false} SortedAllOne(spans: seq<Span>, s: Span)
    requires AllOne(spans, s)
    ensures SortSpans(spans) == spans
  {
    if spans != [] {
      SortedAllOne(spans[1..], s);
      assert InsertSpan(s, spans[1..]) == [s] + spans[1..];
    }
  }

  lemma {:induction false} MergeAllOne(s: Span, rest: seq<Span>)
    requires s.start < s.end && AllOne(rest, s)
    ensures Merge(s, rest) == [s]
    decreases |rest|
  {
    if rest != [] { MergeAllOne(s, rest[1..]); }
  }

  /** A chunked secret in otherwise clean text: everything from its first unit to its last,
      separators included, becomes one marker, and the text around it is kept. */
  lemma LoneMatchIsMarked(a: Text, x: Text, b: Text, n: Needles, lower: Unit -> Text)
    requires Compiled(n, lower) && Marker(n, lower).Some? && x != []
    requires forall w :: w in n.exact ==> !Contains(a + x + b, w)
    requires var s := Span(|a|, |a| + |x|);
      Hit(a + x + b, n, lower, s) && forall q :: Hit(a + x + b, n, lower, q) ==> q == s
    ensures Redact(a + x + b, n, lower) == a + [Marker(n, lower).value] + b
  {
    var t, m, s := a + x + b, Marker(n, lower).value, Span(|a|, |a| + |x|);
    NoFormNoSpan(t, n.exact, 0);
    assert t[0..] == t;
    assert ExactPass(t, n.exact, m) == t;
    var spans := TolerantSpans(t, n, lower);
    SpansAreHits(t, n, lower);
    HitsAreTouched(t, n, lower, s);
    assert spans != [] by { var k :| 0 <= k < |spans| && spans[k].start <= s.start < spans[k].end; }
    assert t != [];
    hide ExactPass, Hit, View, Sources, TolerantSpans, Contains, Marker, Covered;
    forall i | 0 <= i < |spans| ensures spans[i] == s { assert spans[i] in spans; }
    SortedAllOne(spans, s);
    MergeAllOne(s, spans[1..]);
    assert Merged(spans) == [s];
    ReplaceOne(a, x, b, m);
    assert TolerantPass(t, n, m, lower) == Replace(t, [s], 0, m);
  }
}
