/**
 Secret redaction: one leftmost scan for the exact forms, then a pass that looks
 for the needles in views of the text without separators. Forms and needles are
 arbitrary; `lower` is the case folding of one code unit.
 */
module Redaction {
  import opened Wrappers
  import opened ArtifactPolicy
  import opened Utf16

  /** The forms a set of secrets compiles to. */
  datatype Needles = Needles(exact: seq<Text>, tolerantCS: seq<Text>, tolerantCI: seq<Text>)

  datatype Span = Span(start: nat, end: nat)

  predicate Separator(u: Unit) {
    // space, tab, LF, CR, FF, VT and : ; . , | ~ * _ - / \
    u in {0x20, 0x09, 0x0A, 0x0D, 0x0C, 0x0B, 0x3A, 0x3B, 0x2E, 0x2C, 0x7C, 0x7E, 0x2A, 0x5F, 0x2D, 0x2F, 0x5C}
  }

  // ---- Views of a text ----

  function Plain(u: Unit): Text { [u] }
  function Strip(u: Unit): Text { if Separator(u) then [] else [u] }
  function Fold(lower: Unit -> Text): Unit -> Text { u => if Separator(u) then [] else lower(u) }

  function View(t: Text, f: Unit -> Text): Text {
    if t == [] then [] else f(t[0]) + View(t[1..], f)
  }

  /** For every unit of the view, the index of the unit it comes from. */
  function Sources(t: Text, f: Unit -> Text, at: nat): (r: seq<nat>)
    ensures |r| == |View(t, f)|
    ensures forall x :: 0 <= x < |r| ==> at <= r[x] < at + |t|
  {
    if t == [] then [] else seq(|f(t[0])|, _ => at) + Sources(t[1..], f, at + 1)
  }

  lemma {:induction false} ViewJoin(a: Text, b: Text, f: Unit -> Text)
    ensures View(a + b, f) == View(a, f) + View(b, f)
  {
    if a == [] {
      assert a + b == b;
    } else {
      assert (a + b)[1..] == a[1..] + b;
      ViewJoin(a[1..], b, f);
    }
  }

  lemma {:induction false} SourcesJoin(a: Text, b: Text, f: Unit -> Text, at: nat)
    ensures Sources(a + b, f, at) == Sources(a, f, at) + Sources(b, f, at + |a|)
  {
    if a == [] {
      assert a + b == b;
    } else {
      assert (a + b)[1..] == a[1..] + b;
      SourcesJoin(a[1..], b, f, at + 1);
      hide View;
    }
  }

  lemma ViewAppend(a: Text, b: Text, f: Unit -> Text, at: nat)
    ensures View(a + b, f) == View(a, f) + View(b, f)
    ensures Sources(a + b, f, at) == Sources(a, f, at) + Sources(b, f, at + |a|)
  {
    ViewJoin(a, b, f);
    SourcesJoin(a, b, f, at);
  }

  lemma {:induction false} PlainView(t: Text)
    ensures View(t, Plain) == t
  {
    if t != [] { PlainView(t[1..]); }
  }

  lemma {:induction false} SourcesRise(t: Text, f: Unit -> Text, at: nat, x: nat, y: nat)
    requires x <= y < |View(t, f)|
    ensures Sources(t, f, at)[x] <= Sources(t, f, at)[y]
  {
    if t != [] && x >= |f(t[0])| { SourcesRise(t[1..], f, at + 1, x - |f(t[0])|, y - |f(t[0])|); }
  }

  predicate Occurs(h: Text, w: Text, j: int) { 0 <= j && j + |w| <= |h| && h[j..j + |w|] == w }

  ghost predicate Contains(h: Text, w: Text) { exists j :: Occurs(h, w, j) }

  // ---- Replacing spans ----

  ghost predicate SpansOk(spans: seq<Span>, from: nat, to: nat) {
    if spans == [] then from <= to
    else from <= spans[0].start < spans[0].end && SpansOk(spans[1..], spans[0].end, to)
  }

  lemma {:induction false} SpansEnd(spans: seq<Span>, from: nat, to: nat)
    requires SpansOk(spans, from, to)
    ensures from <= to && (spans != [] ==> spans[0].end <= to)
  {
    if spans != [] { SpansEnd(spans[1..], spans[0].end, to); }
  }

  /** The text from `from` on with every span replaced by one marker. */
  function Replace(t: Text, spans: seq<Span>, from: nat, marker: Unit): Text
    requires SpansOk(spans, from, |t|)
    decreases |spans|
  {
    SpansEnd(spans, from, |t|);
    if spans == [] then t[from..]
    else t[from..spans[0].start] + [marker] + Replace(t, spans[1..], spans[0].end, marker)
  }

  ghost predicate Covered(p: nat, spans: seq<Span>) {
    exists i :: 0 <= i < |spans| && spans[i].start <= p < spans[i].end
  }

  lemma {:induction false} BeforeSpans(spans: seq<Span>, from: nat, to: nat, p: nat)
    requires SpansOk(spans, from, to) && (spans == [] || p < spans[0].start)
    ensures !Covered(p, spans)
  {
    if spans != [] {
      BeforeSpans(spans[1..], spans[0].end, to, p);
      assert forall i :: 0 < i < |spans| ==> spans[i] == spans[1..][i - 1];
    }
  }

  /** A word without the middle unit lies on one side of it. */
  lemma OneSide(x: Text, m: Unit, y: Text, w: Text, k: int)
    requires Occurs(x + [m] + y, w, k) && m !in w && w != []
    ensures Occurs(x, w, k) || (k > |x| && Occurs(y, w, k - |x| - 1))
  {
    var v := x + [m] + y;
    assert v[|x|] == m;
    assert forall i :: k <= i < k + |w| ==> v[i] == w[i - k];
    if k <= |x| {
      assert x[k..k + |w|] == v[k..k + |w|];
    } else {
      assert y[k - |x| - 1..k - |x| - 1 + |w|] == v[k..k + |w|];
    }
  }

  lemma Inside(x: Text, y: Text, z: Text, w: Text, k: int)
    requires Occurs(y, w, k)
    ensures Occurs(x + y + z, w, |x| + k)
  {
    assert (x + y + z)[|x| + k..|x| + k + |w|] == y[k..k + |w|];
  }

  /** The part before the first span survives as it is. */
  lemma HeadOccurs(t: Text, from: nat, stop: nat, f: Unit -> Text, w: Text, k: int)
    requires from <= stop <= |t| && Occurs(View(t[from..stop], f), w, k)
    ensures Occurs(View(t, f), w, |View(t[..from], f)| + k)
  {
    SplitView(t, from, stop, f);
    Inside(View(t[..from], f), View(t[from..stop], f), View(t[stop..], f), w, k);
  }

  lemma HeadUntouched(t: Text, spans: seq<Span>, from: nat, stop: nat, f: Unit -> Text, x: nat)
    requires SpansOk(spans, from, |t|) && from <= stop <= |t| && (spans != [] ==> stop == spans[0].start)
    requires |View(t[..from], f)| <= x < |View(t[..from], f)| + |View(t[from..stop], f)|
    ensures x < |View(t, f)| && from <= Sources(t, f, 0)[x] && !Covered(Sources(t, f, 0)[x], spans)
  {
    SourceInMiddle(t, from, stop, f, x);
    hide View, Sources;
    BeforeSpans(spans, from, |t|, Sources(t, f, 0)[x]);
  }

  lemma SourceInMiddle(t: Text, from: nat, stop: nat, f: Unit -> Text, x: nat)
    requires from <= stop <= |t| && |View(t[..from], f)| <= x < |View(t[..from], f)| + |View(t[from..stop], f)|
    ensures x < |View(t, f)| && from <= Sources(t, f, 0)[x] < stop
  {
    SplitView(t, from, stop, f);
    hide View, Sources;
    MiddleOf(Sources(t[..from], f, 0), Sources(t[from..stop], f, from), Sources(t[stop..], f, stop), x);
  }

  lemma HeadSurvives(t: Text, spans: seq<Span>, from: nat, stop: nat, f: Unit -> Text, w: Text, k: int) returns (j: int)
    requires SpansOk(spans, from, |t|) && from <= stop <= |t| && (spans != [] ==> stop == spans[0].start)
    requires Occurs(View(t[from..stop], f), w, k)
    ensures Occurs(View(t, f), w, j)
    ensures forall x :: j <= x < j + |w| ==> from <= Sources(t, f, 0)[x] && !Covered(Sources(t, f, 0)[x], spans)
  {
    j := |View(t[..from], f)| + k;
    HeadOccurs(t, from, stop, f, w, k);
    hide View, Sources, Covered;
    forall x | j <= x < j + |w| ensures from <= Sources(t, f, 0)[x] && !Covered(Sources(t, f, 0)[x], spans) {
      HeadUntouched(t, spans, from, stop, f, x);
    }
  }

  lemma MiddleOf(x: seq<nat>, y: seq<nat>, z: seq<nat>, i: nat)
    requires |x| <= i < |x| + |y|
    ensures (x + y + z)[i] == y[i - |x|]
  {
  }

  /** Where a word of the replaced text comes from: an occurrence in the original
      that no span touches. */
  lemma {:induction false} Survivor(t: Text, spans: seq<Span>, from: nat, marker: Unit, f: Unit -> Text, w: Text,
                                    k: int) returns (j: int)
    requires SpansOk(spans, from, |t|) && w != [] && Occurs(View(Replace(t, spans, from, marker), f), w, k)
    requires |f(marker)| == 1 && f(marker)[0] !in w
    ensures Occurs(View(t, f), w, j)
    ensures forall x :: j <= x < j + |w| ==> from <= Sources(t, f, 0)[x] && !Covered(Sources(t, f, 0)[x], spans)
    decreases |spans|
  {
    SpansEnd(spans, from, |t|);
    if spans == [] {
      assert t[from..|t|] == t[from..];
      j := HeadSurvives(t, spans, from, |t|, f, w, k);
    } else {
      ReplacedView(t, spans, from, marker, f);
      var mid, rest := t[from..spans[0].start], Replace(t, spans[1..], spans[0].end, marker);
      assert f(marker) == [f(marker)[0]];
      hide View, Replace;
      OneSide(View(mid, f), f(marker)[0], View(rest, f), w, k);
      if Occurs(View(mid, f), w, k) {
        j := HeadSurvives(t, spans, from, spans[0].start, f, w, k);
      } else {
        j := Survivor(t, spans[1..], spans[0].end, marker, f, w, k - |View(mid, f)| - 1);
        CoveredTail(spans);
      }
    }
  }

  lemma CoveredTail(spans: seq<Span>)
    requires spans != []
    ensures forall p :: p >= spans[0].end && !Covered(p, spans[1..]) ==> !Covered(p, spans)
  {
    assert forall i :: 0 < i < |spans| ==> spans[i] == spans[1..][i - 1];
  }

  lemma SplitView(t: Text, a: nat, b: nat, f: Unit -> Text)
    requires a <= b <= |t|
    ensures View(t, f) == View(t[..a], f) + View(t[a..b], f) + View(t[b..], f)
    ensures Sources(t, f, 0) == Sources(t[..a], f, 0) + Sources(t[a..b], f, a) + Sources(t[b..], f, b)
  {
    hide View, Sources;
    assert t == t[..b] + t[b..] && t[..b] == t[..a] + t[a..b];
    ViewAppend(t[..b], t[b..], f, 0);
    ViewAppend(t[..a], t[a..b], f, 0);
  }

  lemma ReplacedView(t: Text, spans: seq<Span>, from: nat, marker: Unit, f: Unit -> Text)
    requires spans != [] && SpansOk(spans, from, |t|)
    ensures spans[0].start <= |t|
    ensures View(Replace(t, spans, from, marker), f)
         == View(t[from..spans[0].start], f) + f(marker) + View(Replace(t, spans[1..], spans[0].end, marker), f)
  {
    SpansEnd(spans, from, |t|);
    var rest := Replace(t, spans[1..], spans[0].end, marker);
    assert Replace(t, spans, from, marker) == t[from..spans[0].start] + ([marker] + rest);
    ViewAppend(t[from..spans[0].start], [marker] + rest, f, 0);
    assert ([marker] + rest)[1..] == rest;
  }

  /** Spans that touch every occurrence of a word leave none behind. */
  ghost predicate Touches(t: Text, spans: seq<Span>, f: Unit -> Text, w: Text) {
    forall j :: Occurs(View(t, f), w, j) ==> exists x :: j <= x < j + |w| && Covered(Sources(t, f, 0)[x], spans)
  }

  lemma NoneLeft(t: Text, spans: seq<Span>, marker: Unit, f: Unit -> Text, w: Text)
    requires SpansOk(spans, 0, |t|) && w != [] && |f(marker)| == 1 && f(marker)[0] !in w
    requires Touches(t, spans, f, w) || !Contains(View(t, f), w)
    ensures !Contains(View(Replace(t, spans, 0, marker), f), w)
  {
    if k :| Occurs(View(Replace(t, spans, 0, marker), f), w, k) {
      var j := Survivor(t, spans, 0, marker, f, w, k);
    }
  }

  lemma {:induction false} NeverLonger(t: Text, spans: seq<Span>, from: nat, marker: Unit)
    requires SpansOk(spans, from, |t|)
    ensures from <= |t| && |Replace(t, spans, from, marker)| <= |t| - from
    decreases |spans|
  {
    SpansEnd(spans, from, |t|);
    if spans != [] { NeverLonger(t, spans[1..], spans[0].end, marker); }
  }

  // ---- The exact pass: one leftmost scan ----

  /** The first form, in list order, that matches at a position. */
  function FormAt(t: Text, forms: seq<Text>, i: nat): (n: nat)
    ensures n > 0 ==> i + n <= |t|
  {
    if forms == [] then 0
    else if forms[0] != [] && Occurs(t, forms[0], i) then |forms[0]|
    else FormAt(t, forms[1..], i)
  }

  lemma {:induction false} FormAtFinds(t: Text, forms: seq<Text>, i: nat, w: Text)
    requires w in forms && w != [] && Occurs(t, w, i)
    ensures FormAt(t, forms, i) > 0
  {
    if w != forms[0] { FormAtFinds(t, forms[1..], i, w); }
  }

  function ExactSpans(t: Text, forms: seq<Text>, i: nat): seq<Span>
    requires i <= |t|
    decreases |t| - i
  {
    if i == |t| then []
    else
      var n := FormAt(t, forms, i);
      if n == 0 then ExactSpans(t, forms, i + 1) else [Span(i, i + n)] + ExactSpans(t, forms, i + n)
  }

  lemma {:induction false} ExactSpansOk(t: Text, forms: seq<Text>, i: nat)
    requires i <= |t|
    ensures SpansOk(ExactSpans(t, forms, i), i, |t|)
    decreases |t| - i
  {
    if i < |t| {
      var n := FormAt(t, forms, i);
      if n == 0 {
        ExactSpansOk(t, forms, i + 1);
      } else {
        ExactSpansOk(t, forms, i + n);
        assert ExactSpans(t, forms, i)[1..] == ExactSpans(t, forms, i + n);
      }
    }
  }

  lemma {:induction false} ExactSpansCover(t: Text, forms: seq<Text>, i: nat, w: Text, j: nat)
    requires i <= j <= |t| && w in forms && w != [] && Occurs(t, w, j)
    ensures Covered(j, ExactSpans(t, forms, i))
    decreases |t| - i
  {
    var n, all := FormAt(t, forms, i), ExactSpans(t, forms, i);
    if i == j { FormAtFinds(t, forms, i, w); }
    assert i < |t|;
    hide FormAt, Covered;
    if n == 0 {
      assert all == ExactSpans(t, forms, i + 1);
      ExactSpansCover(t, forms, i + 1, w, j);
    } else {
      assert all[0] == Span(i, i + n) && all[1..] == ExactSpans(t, forms, i + n);
      hide ExactSpans;
      if j >= i + n { ExactSpansCover(t, forms, i + n, w, j); }
      HeadOff(all, j);
    }
  }

  // ---- The tolerant pass: collect, sort, merge ----

  /** `haystack.indexOf(needle, from)`. */
  function IndexOf(h: Text, w: Text, from: nat): (i: int)
    ensures i == -1 || (from <= i && Occurs(h, w, i))
    ensures forall j :: from <= j && (i == -1 || j < i) ==> !Occurs(h, w, j)
    decreases |h| - from
  {
    if from + |w| > |h| then -1 else if Occurs(h, w, from) then from else IndexOf(h, w, from + 1)
  }

  function Collect(h: Text, origin: seq<nat>, w: Text, from: nat): seq<Span>
    requires |origin| == |h| && w != []
    decreases |h| - from
  {
    var i := IndexOf(h, w, from);
    if i < 0 then [] else [Span(origin[i], origin[i + |w| - 1] + 1)] + Collect(h, origin, w, i + |w|)
  }

  ghost predicate Rising(m: seq<nat>) { forall x, y :: 0 <= x <= y < |m| ==> m[x] <= m[y] }

  ghost predicate InText(spans: seq<Span>, n: nat) {
    forall i :: 0 <= i < |spans| ==> spans[i].start < spans[i].end <= n
  }

  /** Collected spans lie in the text and touch every occurrence of the needle. */
  lemma {:induction false} CollectTouches(h: Text, origin: seq<nat>, w: Text, from: nat, n: nat)
    requires |origin| == |h| && w != [] && Rising(origin) && forall x :: 0 <= x < |origin| ==> origin[x] < n
    ensures InText(Collect(h, origin, w, from), n)
    ensures forall j :: from <= j && Occurs(h, w, j) ==> Covered(origin[j], Collect(h, origin, w, from))
    decreases |h| - from
  {
    var i := IndexOf(h, w, from);
    if i >= 0 {
      var head, rest := Span(origin[i], origin[i + |w| - 1] + 1), Collect(h, origin, w, i + |w|);
      var all := Collect(h, origin, w, from);
      assert all == [head] + rest;
      CollectTouches(h, origin, w, i + |w|, n);
      forall j | from <= j && Occurs(h, w, j) ensures Covered(origin[j], all) {
        if j < i + |w| {
          assert all[0] == head && origin[i] <= origin[j] <= origin[i + |w| - 1];
        } else {
          var k :| 0 <= k < |rest| && rest[k].start <= origin[j] < rest[k].end;
          assert all[k + 1] == rest[k];
        }
      }
    }
  }

  predicate NonEmpty(words: seq<Text>) { forall i :: 0 <= i < |words| ==> words[i] != [] }

  function CollectAll(h: Text, origin: seq<nat>, words: seq<Text>): seq<Span>
    requires |origin| == |h| && NonEmpty(words)
  {
    if words == [] then [] else Collect(h, origin, words[0], 0) + CollectAll(h, origin, words[1..])
  }

  lemma {:induction false} CollectAllTouches(h: Text, origin: seq<nat>, words: seq<Text>, n: nat)
    requires |origin| == |h| && Rising(origin) && (forall x :: 0 <= x < |origin| ==> origin[x] < n) && NonEmpty(words)
    ensures InText(CollectAll(h, origin, words), n)
    ensures forall w, j :: w in words && Occurs(h, w, j) ==> Covered(origin[j], CollectAll(h, origin, words))
  {
    if words != [] {
      CollectTouches(h, origin, words[0], 0, n);
      CollectAllTouches(h, origin, words[1..], n);
      CoveredJoin(Collect(h, origin, words[0], 0), CollectAll(h, origin, words[1..]));
      assert words == [words[0]] + words[1..];
    }
  }

  lemma CoveredJoin(a: seq<Span>, b: seq<Span>)
    ensures forall p: nat :: Covered(p, a + b) <==> Covered(p, a) || Covered(p, b)
  {
    forall p: nat ensures Covered(p, a + b) <==> Covered(p, a) || Covered(p, b) {
      if i :| 0 <= i < |a| && a[i].start <= p < a[i].end { assert (a + b)[i] == a[i]; }
      if i :| 0 <= i < |b| && b[i].start <= p < b[i].end { assert (a + b)[|a| + i] == b[i]; }
    }
  }

  function InsertSpan(x: Span, s: seq<Span>): seq<Span> {
    if s == [] || x.start <= s[0].start then [x] + s else [s[0]] + InsertSpan(x, s[1..])
  }

  function SortSpans(s: seq<Span>): seq<Span> {
    if s == [] then [] else InsertSpan(s[0], SortSpans(s[1..]))
  }

  ghost predicate ByStart(s: seq<Span>) { forall i, j :: 0 <= i < j < |s| ==> s[i].start <= s[j].start }

  lemma {:induction false} InsertSpanKeeps(x: Span, s: seq<Span>, n: nat)
    requires ByStart(s) && InText(s, n) && x.start < x.end <= n
    ensures ByStart(InsertSpan(x, s)) && InText(InsertSpan(x, s), n) && |InsertSpan(x, s)| == |s| + 1
    ensures forall p: nat :: Covered(p, InsertSpan(x, s)) <==> Covered(p, [x] + s)
    ensures forall i :: 0 <= i <= |s| ==> InsertSpan(x, s)[i] == x || InsertSpan(x, s)[i] in s
  {
    if s != [] && x.start > s[0].start {
      InsertSpanKeeps(x, s[1..], n);
      CoveredJoin([x], s);
      CoveredJoin([x], s[1..]);
      assert s == [s[0]] + s[1..];
      CoveredJoin([s[0]], s[1..]);
      CoveredJoin([s[0]], InsertSpan(x, s[1..]));
    }
  }

  lemma {:induction false} SortSpansKeeps(s: seq<Span>, n: nat)
    requires InText(s, n)
    ensures ByStart(SortSpans(s)) && InText(SortSpans(s), n) && |SortSpans(s)| == |s|
    ensures forall p: nat :: Covered(p, SortSpans(s)) <==> Covered(p, s)
  {
    if s != [] {
      SortSpansKeeps(s[1..], n);
      InsertSpanKeeps(s[0], SortSpans(s[1..]), n);
      assert s == [s[0]] + s[1..];
      CoveredJoin([s[0]], s[1..]);
      CoveredJoin([s[0]], SortSpans(s[1..]));
    }
  }

  /** Overlapping and adjacent spans become one. */
  function Merge(current: Span, rest: seq<Span>): seq<Span>
    decreases |rest|
  {
    if rest == [] then [current]
    else if rest[0].start <= current.end then
      Merge(Span(current.start, if rest[0].end > current.end then rest[0].end else current.end), rest[1..])
    else [current] + Merge(rest[0], rest[1..])
  }

  lemma {:induction false} MergeOk(current: Span, rest: seq<Span>, from: nat, n: nat)
    requires from <= current.start < current.end <= n && InText(rest, n)
    ensures SpansOk(Merge(current, rest), from, n)
    decreases |rest|
  {
    if rest != [] {
      if rest[0].start <= current.end {
        MergeOk(Span(current.start, if rest[0].end > current.end then rest[0].end else current.end), rest[1..], from,
                n);
      } else {
        MergeOk(rest[0], rest[1..], current.end, n);
        assert Merge(current, rest)[1..] == Merge(rest[0], rest[1..]);
      }
    }
  }

  lemma HeadOff(s: seq<Span>, p: nat)
    requires s != []
    ensures Covered(p, s) <==> s[0].start <= p < s[0].end || Covered(p, s[1..])
  {
    assert s == [s[0]] + s[1..];
    CoveredJoin([s[0]], s[1..]);
    OneSpan(s[0], p);
  }

  lemma {:induction false} MergeCovers(current: Span, rest: seq<Span>, n: nat, p: nat)
    requires current.start < current.end && InText(rest, n) && ByStart(rest)
    requires rest != [] ==> current.start <= rest[0].start
    ensures Covered(p, Merge(current, rest)) <==> current.start <= p < current.end || Covered(p, rest)
    decreases |rest|
  {
    OneSpan(current, p);
    if rest != [] {
      HeadOff(rest, p);
      if rest[0].start <= current.end {
        hide Covered;
        MergeCovers(Span(current.start, if rest[0].end > current.end then rest[0].end else current.end), rest[1..], n,
                    p);
      } else {
        hide Covered;
        MergeCovers(rest[0], rest[1..], n, p);
        HeadOff(Merge(current, rest), p);
        assert Merge(current, rest)[1..] == Merge(rest[0], rest[1..]);
      }
    }
  }

  lemma OneSpan(s: Span, p: nat)
    ensures Covered(p, [s]) <==> s.start <= p < s.end
  {
    assert [s][0] == s;
  }

  // ---- The boundary marker ----

  ghost predicate FoldsAscii(lower: Unit -> Text) {
    forall u: Unit :: 0x21 <= u <= 0x7E ==> lower(u) == [LowerUnit(u)]
  }

  function Lowered(t: Text, lower: Unit -> Text): Text { View(t, lower) }

  predicate SafeMarker(u: Unit, forms: seq<Text>, lower: Unit -> Text) {
    u != 0x22 && !Separator(u) && forall i :: 0 <= i < |forms| ==> LowerUnit(u) !in Lowered(forms[i], lower)
  }

  /** The first printable ASCII unit that no form contains in any case. */
  function MarkerFrom(u: Unit, forms: seq<Text>, lower: Unit -> Text): (m: Option<Unit>)
    requires 0x21 <= u <= 0x7F
    ensures m.Some? ==> u <= m.value <= 0x7E && SafeMarker(m.value, forms, lower)
    ensures m.None? ==> forall v: Unit :: u <= v <= 0x7E ==> !SafeMarker(v, forms, lower)
    decreases 0x7F - u
  {
    if u == 0x7F then None else if SafeMarker(u, forms, lower) then Some(u) else MarkerFrom(u + 1, forms, lower)
  }

  function AllForms(n: Needles): seq<Text> { n.exact + n.tolerantCS + n.tolerantCI }

  function Marker(n: Needles, lower: Unit -> Text): Option<Unit> { MarkerFrom(0x21, AllForms(n), lower) }

  // ---- Redaction ----

  /** Forms are non-empty; needles are stripped of separators already, and the
      case-insensitive ones are in lower case. */
  ghost predicate Compiled(n: Needles, lower: Unit -> Text) {
    && n.exact != [] && NonEmpty(n.exact) && NonEmpty(n.tolerantCS) && NonEmpty(n.tolerantCI)
    && FoldsAscii(lower) && forall i :: 0 <= i < |n.tolerantCI| ==> Lowered(n.tolerantCI[i], lower) == n.tolerantCI[i]
  }

  function TolerantSpans(t: Text, n: Needles, lower: Unit -> Text): seq<Span>
    requires NonEmpty(n.tolerantCS) && NonEmpty(n.tolerantCI)
  {
    CollectAll(View(t, Strip), Sources(t, Strip, 0), n.tolerantCS)
    + CollectAll(View(t, Fold(lower)), Sources(t, Fold(lower), 0), n.tolerantCI)
  }

  function Merged(spans: seq<Span>): seq<Span>
    requires spans != []
  {
    var s := SortSpans(spans);
    if s == [] then [] else Merge(s[0], s[1..])
  }

  lemma MergedKeeps(spans: seq<Span>, n: nat)
    requires spans != [] && InText(spans, n)
    ensures SpansOk(Merged(spans), 0, n)
    ensures forall p: nat :: Covered(p, Merged(spans)) <==> Covered(p, spans)
  {
    SortSpansKeeps(spans, n);
    var s := SortSpans(spans);
    assert s != [] && s[0] in s;
    MergeOk(s[0], s[1..], 0, n);
    forall p: nat ensures Covered(p, Merged(spans)) <==> Covered(p, spans) {
      MergeCovers(s[0], s[1..], n, p);
      HeadOff(s, p);
    }
  }

  lemma SourcesAreRising(t: Text, f: Unit -> Text)
    ensures Rising(Sources(t, f, 0))
  {
    forall x, y | 0 <= x <= y < |Sources(t, f, 0)| ensures Sources(t, f, 0)[x] <= Sources(t, f, 0)[y] {
      SourcesRise(t, f, 0, x, y);
    }
  }

  lemma TolerantSpansOk(t: Text, n: Needles, lower: Unit -> Text)
    requires NonEmpty(n.tolerantCS) && NonEmpty(n.tolerantCI)
    ensures InText(TolerantSpans(t, n, lower), |t|)
    ensures forall w, j :: w in n.tolerantCS && Occurs(View(t, Strip), w, j)
                           ==> Covered(Sources(t, Strip, 0)[j], TolerantSpans(t, n, lower))
    ensures forall w, j :: w in n.tolerantCI && Occurs(View(t, Fold(lower)), w, j)
                           ==> Covered(Sources(t, Fold(lower), 0)[j], TolerantSpans(t, n, lower))
  {
    SourcesAreRising(t, Strip);
    SourcesAreRising(t, Fold(lower));
    var a := CollectAll(View(t, Strip), Sources(t, Strip, 0), n.tolerantCS);
    var b := CollectAll(View(t, Fold(lower)), Sources(t, Fold(lower), 0), n.tolerantCI);
    hide View, Sources, CollectAll, Rising, NonEmpty, Covered, Occurs;
    CollectAllTouches(View(t, Strip), Sources(t, Strip, 0), n.tolerantCS, |t|);
    CollectAllTouches(View(t, Fold(lower)), Sources(t, Fold(lower), 0), n.tolerantCI, |t|);
    CoveredJoin(a, b);
    assert TolerantSpans(t, n, lower) == a + b;
    InTextJoin(a, b, |t|);
  }

  lemma InTextJoin(a: seq<Span>, b: seq<Span>, n: nat)
    requires InText(a, n) && InText(b, n)
    ensures InText(a + b, n)
  {
  }

  function ExactPass(t: Text, forms: seq<Text>, marker: Unit): Text {
    ExactSpansOk(t, forms, 0);
    Replace(t, ExactSpans(t, forms, 0), 0, marker)
  }

  function TolerantPass(t: Text, n: Needles, marker: Unit, lower: Unit -> Text): Text
    requires NonEmpty(n.tolerantCS) && NonEmpty(n.tolerantCI)
  {
    var spans := TolerantSpans(t, n, lower);
    if spans == [] then t
    else
      TolerantSpansOk(t, n, lower);
      MergedKeeps(spans, |t|);
      Replace(t, Merged(spans), 0, marker)
  }

  /** No secrets, or nothing to redact: the text itself. No safe marker: nothing. */
  function Redact(t: Text, n: Needles, lower: Unit -> Text): Text
    requires NonEmpty(n.tolerantCS) && NonEmpty(n.tolerantCI)
  {
    if n.exact == [] || t == [] then t
    else
      match Marker(n, lower)
      case None => []
      case Some(marker) => TolerantPass(ExactPass(t, n.exact, marker), n, marker, lower)
  }

  // ---- What redaction achieves ----

  /** Some protected form shows in the text, exactly or through a view. */
  ghost predicate Leaks(t: Text, n: Needles, lower: Unit -> Text) {
    || (exists i :: 0 <= i < |n.exact| && Contains(t, n.exact[i]))
    || (exists i :: 0 <= i < |n.tolerantCS| && Contains(View(t, Strip), n.tolerantCS[i]))
    || (exists i :: 0 <= i < |n.tolerantCI| && Contains(View(t, Fold(lower)), n.tolerantCI[i]))
  }

  lemma {:induction false} LoweredContains(t: Text, lower: Unit -> Text, u: Unit)
    requires u in t
    ensures forall x :: x in lower(u) ==> x in Lowered(t, lower)
  {
    if t[0] != u { LoweredContains(t[1..], lower, u); }
  }

  /** The marker stands alone in every view, and in no form. */
  lemma MarkerStandsAlone(n: Needles, lower: Unit -> Text)
    requires Compiled(n, lower) && Marker(n, lower).Some?
    ensures
      var m := Marker(n, lower).value;
      && Strip(m) == [m] && Fold(lower)(m) == [LowerUnit(m)]
      && (forall w :: w in n.exact || w in n.tolerantCS ==> m !in w)
      && (forall w :: w in n.tolerantCI ==> LowerUnit(m) !in w)
  {
    var m := Marker(n, lower).value;
    assert !Separator(m) && lower(m) == [LowerUnit(m)];
    assert LowerUnit(m) in lower(m);
    hide Marker, View, Separator;
    forall w | w in n.exact || w in n.tolerantCS ensures m !in w {
      FormLacksMarker(n, lower, w);
      if m in w { LoweredContains(w, lower, m); }
    }
    forall w | w in n.tolerantCI ensures LowerUnit(m) !in w {
      FormLacksMarker(n, lower, w);
      var i :| 0 <= i < |n.tolerantCI| && n.tolerantCI[i] == w;
    }
  }

  lemma FormLacksMarker(n: Needles, lower: Unit -> Text, w: Text)
    requires Marker(n, lower).Some? && (w in n.exact || w in n.tolerantCS || w in n.tolerantCI)
    ensures LowerUnit(Marker(n, lower).value) !in Lowered(w, lower)
  {
    hide Lowered;
    var all := AllForms(n);
    assert w in all;
    var i :| 0 <= i < |all| && all[i] == w;
  }

  lemma NeedleNotEmpty(n: Needles, w: Text)
    requires NonEmpty(n.exact) && NonEmpty(n.tolerantCS) && NonEmpty(n.tolerantCI)
    requires w in n.exact || w in n.tolerantCS || w in n.tolerantCI
    ensures w != []
  {
  }

  lemma ExactPassCleans(t: Text, n: Needles, lower: Unit -> Text, w: Text)
    requires Compiled(n, lower) && Marker(n, lower).Some? && w in n.exact
    ensures !Contains(ExactPass(t, n.exact, Marker(n, lower).value), w)
  {
    var m, spans := Marker(n, lower).value, ExactSpans(t, n.exact, 0);
    MarkerStandsAlone(n, lower);
    ExactSpansOk(t, n.exact, 0);
    NeedleNotEmpty(n, w);
    PlainView(t);
    PlainSources(t, 0);
    hide ExactSpans, Marker, View, Sources;
    forall j | Occurs(View(t, Plain), w, j)
      ensures exists x :: j <= x < j + |w| && Covered(Sources(t, Plain, 0)[x], spans) {
      ExactSpansCover(t, n.exact, 0, w, j);
      assert Covered(Sources(t, Plain, 0)[j], spans);
    }
    NoneLeft(t, spans, m, Plain, w);
    PlainView(Replace(t, spans, 0, m));
  }

  lemma {:induction false} PlainSources(t: Text, at: nat)
    ensures View(t, Plain) == t && forall x :: 0 <= x < |t| ==> Sources(t, Plain, at)[x] == at + x
  {
    if t != [] { PlainSources(t[1..], at + 1); }
  }

  lemma TolerantPassCleans(t: Text, n: Needles, lower: Unit -> Text, f: Unit -> Text, w: Text)
    requires Compiled(n, lower) && Marker(n, lower).Some?
    requires
      || (f == Plain && w in n.exact && !Contains(t, w))
      || (f == Strip && w in n.tolerantCS)
      || (f == Fold(lower) && w in n.tolerantCI)
    ensures !Contains(View(TolerantPass(t, n, Marker(n, lower).value, lower), f), w)
  {
    var m, spans := Marker(n, lower).value, TolerantSpans(t, n, lower);
    MarkerStandsAlone(n, lower);
    TolerantSpansOk(t, n, lower);
    NeedleNotEmpty(n, w);
    PlainView(t);
    hide View, Sources, TolerantSpans, Marker, Compiled;
    if spans != [] {
      MergedKeeps(spans, |t|);
      if f == Plain && w in n.exact && !Contains(t, w) {
        NoneLeft(t, Merged(spans), m, f, w);
      } else {
        forall j | Occurs(View(t, f), w, j)
          ensures exists x :: j <= x < j + |w| && Covered(Sources(t, f, 0)[x], Merged(spans)) {
          assert Covered(Sources(t, f, 0)[j], spans);
        }
        NoneLeft(t, Merged(spans), m, f, w);
      }
    }
  }

  /** Redacted text shows no exact form, no needle without its separators, and no
      case-insensitive needle in the folded view. */
  lemma RedactedLeaksNothing(t: Text, n: Needles, lower: Unit -> Text)
    requires Compiled(n, lower)
    ensures !Leaks(Redact(t, n, lower), n, lower)
  {
    var r := Redact(t, n, lower);
    if t == [] || Marker(n, lower).None? {
      assert forall w, j :: Occurs([], w, j) ==> w == [];
    } else {
      var m := Marker(n, lower).value;
      var mid := ExactPass(t, n.exact, m);
      forall i | 0 <= i < |n.exact| ensures !Contains(r, n.exact[i]) {
        ExactPassCleans(t, n, lower, n.exact[i]);
        TolerantPassCleans(mid, n, lower, Plain, n.exact[i]);
        PlainView(r);
      }
      forall i | 0 <= i < |n.tolerantCS| ensures !Contains(View(r, Strip), n.tolerantCS[i]) {
        TolerantPassCleans(mid, n, lower, Strip, n.tolerantCS[i]);
      }
      forall i | 0 <= i < |n.tolerantCI| ensures !Contains(View(r, Fold(lower)), n.tolerantCI[i]) {
        TolerantPassCleans(mid, n, lower, Fold(lower), n.tolerantCI[i]);
      }
    }
  }

  lemma {:induction false} NoFormNoSpan(t: Text, forms: seq<Text>, i: nat)
    requires i <= |t| && forall w :: w in forms ==> !Contains(t, w)
    ensures ExactSpans(t, forms, i) == []
    decreases |t| - i
  {
    if i < |t| {
      NoFormNoMatch(t, forms, i);
      NoFormNoSpan(t, forms, i + 1);
    }
  }

  lemma {:induction false} NoFormNoMatch(t: Text, forms: seq<Text>, i: nat)
    requires forall w :: w in forms ==> !Contains(t, w)
    ensures FormAt(t, forms, i) == 0
  {
    if forms != [] {
      assert forms[0] in forms && !Contains(t, forms[0]);
      NoFormNoMatch(t, forms[1..], i);
    }
  }

  lemma {:induction false} NoNeedleNoSpan(h: Text, origin: seq<nat>, words: seq<Text>)
    requires |origin| == |h| && NonEmpty(words) && forall i :: 0 <= i < |words| ==> !Contains(h, words[i])
    ensures CollectAll(h, origin, words) == []
  {
    if words != [] {
      assert !Contains(h, words[0]);
      assert IndexOf(h, words[0], 0) == -1;
      NoNeedleNoSpan(h, origin, words[1..]);
    }
  }

  /** Text in which no form occurs is not touched. */
  lemma CleanTextUntouched(t: Text, n: Needles, lower: Unit -> Text)
    requires Compiled(n, lower) && !Leaks(t, n, lower) && Marker(n, lower).Some?
    ensures Redact(t, n, lower) == t
  {
    forall w | w in n.exact ensures !Contains(t, w) { var i :| 0 <= i < |n.exact| && n.exact[i] == w; }
    NoFormNoSpan(t, n.exact, 0);
    NoNeedleNoSpan(View(t, Strip), Sources(t, Strip, 0), n.tolerantCS);
    NoNeedleNoSpan(View(t, Fold(lower)), Sources(t, Fold(lower), 0), n.tolerantCI);
  }

  /** When a marker exists, redaction changes a text exactly when some protected
      form occurs in it; redacting again changes nothing; and it never gets longer. */
  lemma RedactionIsExact(t: Text, n: Needles, lower: Unit -> Text)
    requires Compiled(n, lower)
    ensures Marker(n, lower).Some? ==> (Redact(t, n, lower) != t <==> Leaks(t, n, lower))
    ensures Redact(Redact(t, n, lower), n, lower) == Redact(t, n, lower)
    ensures |Redact(t, n, lower)| <= |t|
  {
    RedactedLeaksNothing(t, n, lower);
    if Marker(n, lower).Some? {
      if !Leaks(t, n, lower) { CleanTextUntouched(t, n, lower); }
      CleanTextUntouched(Redact(t, n, lower), n, lower);
      PassesShorten(t, n, lower, Marker(n, lower).value);
    }
  }

  lemma PassesShorten(t: Text, n: Needles, lower: Unit -> Text, m: Unit)
    requires Compiled(n, lower)
    ensures |TolerantPass(ExactPass(t, n.exact, m), n, m, lower)| <= |t|
  {
    ExactSpansOk(t, n.exact, 0);
    NeverLonger(t, ExactSpans(t, n.exact, 0), 0, m);
    var mid := ExactPass(t, n.exact, m);
    var spans := TolerantSpans(mid, n, lower);
    if spans != [] {
      TolerantSpansOk(mid, n, lower);
      MergedKeeps(spans, |mid|);
      NeverLonger(mid, Merged(spans), 0, m);
    }
  }

  // ---- Bytes on the wire ----

  predicate EndsHigh(t: Text) { t != [] && High(t[|t| - 1]) }
  predicate StartsLow(t: Text) { t != [] && Low(t[0]) }

  /** Joining two texts saves bytes only where a surrogate pair closes. */
  lemma {:induction false} BytesJoin(a: Text, b: Text)
    ensures Utf8Length(a + b) == Utf8Length(a) + Utf8Length(b) - (if EndsHigh(a) && StartsLow(b) then 2 else 0)
  {
    if a == [] {
      assert a + b == b;
    } else {
      assert (a + b)[1..] == a[1..] + b;
      BytesJoin(a[1..], b);
      if |a| > 1 {
        assert (a + b)[2..] == a[2..] + b;
        BytesJoin(a[2..], b);
      } else {
        assert (a + b)[1..] == b;
        if EndsHigh(a) && StartsLow(b) { assert (a + b)[2..] == b[1..]; }
      }
    }
  }

  /** A removed piece always costs at least the marker and what its loss unpairs. */
  lemma PieceCosts(x: Text)
    requires x != []
    ensures Utf8Length(x) >= 1 + (if StartsLow(x) then 2 else 0) + (if EndsHigh(x) then 2 else 0)
  {
    var n := |x| - 1;
    assert x == x[..n] + [x[n]];
    BytesJoin(x[..n], [x[n]]);
    if StartsLow(x) && n > 0 {
      assert x[..n] == [x[0]] + x[..n][1..];
      BytesJoin([x[0]], x[..n][1..]);
    }
  }

  /** Replacing spans by an ASCII marker never adds a byte of UTF-8. */
  lemma {:induction false} NeverMoreBytes(t: Text, spans: seq<Span>, from: nat, marker: Unit)
    requires SpansOk(spans, from, |t|) && marker < 0x80
    ensures from <= |t| && Utf8Length(Replace(t, spans, from, marker)) <= Utf8Length(t[from..])
    decreases |spans|
  {
    SpansEnd(spans, from, |t|);
    if spans != [] {
      var a, x, b := t[from..spans[0].start], t[spans[0].start..spans[0].end], t[spans[0].end..];
      var rest := Replace(t, spans[1..], spans[0].end, marker);
      NeverMoreBytes(t, spans[1..], spans[0].end, marker);
      hide Replace;
      assert t[from..] == a + (x + b);
      BytesJoin(a, x + b);
      BytesJoin(x, b);
      PieceCosts(x);
      Reassociate(a, [marker], rest);
      BytesJoin(a, [marker] + rest);
      BytesJoin([marker], rest);
    }
  }

  lemma RedactionNeverGrows(t: Text, n: Needles, lower: Unit -> Text)
    requires Compiled(n, lower)
    ensures Utf8Length(Redact(t, n, lower)) <= Utf8Length(t)
  {
    if t != [] && Marker(n, lower).Some? {
      var m := Marker(n, lower).value;
      ExactSpansOk(t, n.exact, 0);
      NeverMoreBytes(t, ExactSpans(t, n.exact, 0), 0, m);
      assert t[0..] == t;
      var mid := ExactPass(t, n.exact, m);
      var spans := TolerantSpans(mid, n, lower);
      if spans != [] {
        TolerantSpansOk(mid, n, lower);
        MergedKeeps(spans, |mid|);
        NeverMoreBytes(mid, Merged(spans), 0, m);
        assert mid[0..] == mid;
      }
    }
  }

  // ---- The loops ----

  method ChooseBoundaryMarker(forms: seq<Text>, lower: Unit -> Text) returns (m: Option<Unit>)
    ensures m == MarkerFrom(0x21, forms, lower)
  {
    var u: nat := 0x21;
    while u <= 0x7E
      invariant 0x21 <= u <= 0x7F && MarkerFrom(0x21, forms, lower) == MarkerFrom(u, forms, lower)
    {
      if SafeMarker(u, forms, lower) { return Some(u); }
      u := u + 1;
    }
    return None;
  }

  /** One pass that builds a view and, beside it, where each unit came from. */
  method BuildView(t: Text, f: Unit -> Text) returns (view: Text, from: seq<nat>)
    ensures view == View(t, f) && from == Sources(t, f, 0)
  {
    view, from := [], [];
    var i := 0;
    while i < |t|
      invariant 0 <= i <= |t| && view == View(t[..i], f) && from == Sources(t[..i], f, 0)
    {
      assert t[..i + 1] == t[..i] + [t[i]];
      ViewAppend(t[..i], [t[i]], f, 0);
      assert View([t[i]], f) == f(t[i]) && Sources([t[i]], f, i) == seq(|f(t[i])|, _ => i);
      view := view + f(t[i]);
      from := from + seq(|f(t[i])|, _ => i);
      i := i + 1;
    }
    assert t[..i] == t;
  }

  method CollectSpans(h: Text, origin: seq<nat>, needle: Text) returns (spans: seq<Span>)
    requires |origin| == |h| && needle != []
    ensures spans == Collect(h, origin, needle, 0)
  {
    hide Collect, Occurs;
    spans := [];
    var from := 0;
    while true
      invariant spans + Collect(h, origin, needle, from) == Collect(h, origin, needle, 0)
      decreases |h| - from
    {
      CollectStep(h, origin, needle, from);
      var index := IndexOf(h, needle, from);
      if index < 0 { return; }
      var span := Span(origin[index], origin[index + |needle| - 1] + 1);
      Reassociate(spans, [span], Collect(h, origin, needle, index + |needle|));
      spans := spans + [span];
      from := index + |needle|;
    }
  }

  lemma CollectStep(h: Text, origin: seq<nat>, w: Text, from: nat)
    requires |origin| == |h| && w != []
    ensures
      var i := IndexOf(h, w, from);
      if i < 0 then Collect(h, origin, w, from) == []
      else from <= i && i + |w| <= |h|
           && Collect(h, origin, w, from) == [Span(origin[i], origin[i + |w| - 1] + 1)] + Collect(h, origin, w, i + |w|)
  {
    var i := IndexOf(h, w, from);
    assert i >= 0 ==> from <= i && i + |w| <= |h|;
    hide IndexOf, Occurs;
  }

  lemma Reassociate<T>(a: seq<T>, b: seq<T>, c: seq<T>)
    ensures a + (b + c) == a + b + c
  {
  }

  method CollectNeedles(h: Text, origin: seq<nat>, needles: seq<Text>) returns (spans: seq<Span>)
    requires |origin| == |h| && NonEmpty(needles)
    ensures spans == CollectAll(h, origin, needles)
  {
    spans := [];
    var i := 0;
    while i < |needles|
      invariant 0 <= i <= |needles| && spans + CollectAll(h, origin, needles[i..]) == CollectAll(h, origin, needles)
    {
      var more := CollectSpans(h, origin, needles[i]);
      assert needles[i..][1..] == needles[i + 1..];
      spans := spans + more;
      i := i + 1;
    }
  }

  /** Merge sorted spans and emit the kept pieces between markers. */
  method EmitMerged(t: Text, spans: seq<Span>, marker: Unit) returns (out: Text)
    requires spans != [] && InText(spans, |t|)
    requires SpansOk(Merge(spans[0], spans[1..]), 0, |t|)
    ensures out == Replace(t, Merge(spans[0], spans[1..]), 0, marker)
  {
    out := [];
    var cursor: nat, current, i := 0, spans[0], 1;
    ghost var whole := Replace(t, Merge(spans[0], spans[1..]), 0, marker);
    while i < |spans|
      invariant 1 <= i <= |spans| && cursor <= current.start < current.end <= |t|
      invariant SpansOk(Merge(current, spans[i..]), cursor, |t|)
      invariant out + Replace(t, Merge(current, spans[i..]), cursor, marker) == whole
    {
      assert spans[i..][0] == spans[i] && spans[i..][1..] == spans[i + 1..];
      if spans[i].start <= current.end {
        current := Span(current.start, if spans[i].end > current.end then spans[i].end else current.end);
      } else {
        EmitStep(t, current, Merge(spans[i], spans[i + 1..]), cursor, marker, out);
        out := out + (t[cursor..current.start] + [marker]);
        cursor, current := current.end, spans[i];
      }
      i := i + 1;
    }
    assert spans[i..] == [];
    EmitStep(t, current, [], cursor, marker, out);
    out := out + (t[cursor..current.start] + [marker]);
    out := out + t[current.end..];
  }

  lemma EmitStep(t: Text, current: Span, rest: seq<Span>, cursor: nat, marker: Unit, out: Text)
    requires SpansOk([current] + rest, cursor, |t|)
    ensures SpansOk(rest, current.end, |t|) && current.start <= |t|
    ensures out + Replace(t, [current] + rest, cursor, marker)
         == out + (t[cursor..current.start] + [marker]) + Replace(t, rest, current.end, marker)
  {
    assert ([current] + rest)[1..] == rest;
    SpansEnd([current] + rest, cursor, |t|);
  }

  /** Nothing starts here: the unit is kept. */
  lemma KeptStep(t: Text, forms: seq<Text>, i: nat, marker: Unit, out: Text)
    requires i < |t| && FormAt(t, forms, i) == 0
    ensures SpansOk(ExactSpans(t, forms, i), i, |t|) && SpansOk(ExactSpans(t, forms, i + 1), i + 1, |t|)
    ensures out + Replace(t, ExactSpans(t, forms, i), i, marker)
         == out + [t[i]] + Replace(t, ExactSpans(t, forms, i + 1), i + 1, marker)
  {
    hide FormAt, Replace;
    var spans := ExactSpans(t, forms, i + 1);
    assert ExactSpans(t, forms, i) == spans;
    hide ExactSpans;
    ExactSpansOk(t, forms, i + 1);
    KeepUnit(t, spans, i, marker);
    Reassociate(out, [t[i]], Replace(t, spans, i + 1, marker));
  }

  /** A form starts here: the marker stands for it. */
  lemma MarkedStep(t: Text, forms: seq<Text>, i: nat, n: nat, marker: Unit, out: Text)
    requires i < |t| && n == FormAt(t, forms, i) > 0
    ensures SpansOk(ExactSpans(t, forms, i), i, |t|) && SpansOk(ExactSpans(t, forms, i + n), i + n, |t|)
    ensures out + Replace(t, ExactSpans(t, forms, i), i, marker)
         == out + [marker] + Replace(t, ExactSpans(t, forms, i + n), i + n, marker)
  {
    hide FormAt, Replace;
    var spans := ExactSpans(t, forms, i + n);
    assert ExactSpans(t, forms, i) == [Span(i, i + n)] + spans;
    hide ExactSpans;
    ExactSpansOk(t, forms, i);
    EmitStep(t, Span(i, i + n), spans, i, marker, out);
    assert t[i..i] + [marker] == [marker];
  }

  lemma NothingLeft(t: Text, forms: seq<Text>, marker: Unit)
    ensures SpansOk(ExactSpans(t, forms, |t|), |t|, |t|) && Replace(t, ExactSpans(t, forms, |t|), |t|, marker) == []
  {
  }

  /** The single global replacement: leftmost match, longest listed form first, and
      the scan goes on after the match. */
  method ReplaceExact(t: Text, forms: seq<Text>, marker: Unit) returns (out: Text)
    ensures out == ExactPass(t, forms, marker)
  {
    hide FormAt, Replace, ExactSpans, SpansOk;
    out := [];
    var i := 0;
    ExactSpansOk(t, forms, 0);
    while i < |t|
      invariant 0 <= i <= |t| && SpansOk(ExactSpans(t, forms, i), i, |t|)
      invariant out + Replace(t, ExactSpans(t, forms, i), i, marker) == ExactPass(t, forms, marker)
    {
      var n := FormAt(t, forms, i);
      if n == 0 {
        KeptStep(t, forms, i, marker, out);
        out := out + [t[i]];
        i := i + 1;
      } else {
        MarkedStep(t, forms, i, n, marker, out);
        out := out + [marker];
        i := i + n;
      }
    }
    NothingLeft(t, forms, marker);
  }

  lemma KeepUnit(t: Text, spans: seq<Span>, i: nat, marker: Unit)
    requires i < |t| && SpansOk(spans, i + 1, |t|)
    ensures SpansOk(spans, i, |t|) && Replace(t, spans, i, marker) == [t[i]] + Replace(t, spans, i + 1, marker)
  {
    if spans != [] {
      SpansEnd(spans, i + 1, |t|);
      assert t[i..spans[0].start] == [t[i]] + t[i + 1..spans[0].start];
    }
  }

  method RedactTolerant(t: Text, n: Needles, lower: Unit -> Text, marker: Unit) returns (out: Text)
    requires NonEmpty(n.tolerantCS) && NonEmpty(n.tolerantCI)
    ensures out == TolerantPass(t, n, marker, lower)
  {
    var stripped, strippedMap := BuildView(t, Strip);
    var lowered, loweredMap := BuildView(t, Fold(lower));
    var spans := CollectNeedles(stripped, strippedMap, n.tolerantCS);
    var more := CollectNeedles(lowered, loweredMap, n.tolerantCI);
    spans := spans + more;
    if spans == [] { return t; }
    TolerantSpansOk(t, n, lower);
    MergedKeeps(spans, |t|);
    SortSpansKeeps(spans, |t|);
    out := EmitMerged(t, SortSpans(spans), marker);
  }

  method RedactNormalizedSecrets(t: Text, n: Needles, lower: Unit -> Text) returns (out: Text)
    requires NonEmpty(n.tolerantCS) && NonEmpty(n.tolerantCI)
    ensures out == Redact(t, n, lower)
  {
    if n.exact == [] || t == [] { return t; }
    var marker := ChooseBoundaryMarker(AllForms(n), lower);
    if marker.None? { return []; }
    out := ReplaceExact(t, n.exact, marker.value);
    if n.tolerantCS != [] || n.tolerantCI != [] {
      out := RedactTolerant(out, n, lower, marker.value);
    }
  }

  /** The matcher for state and task files: true exactly when a form occurs, and for
      every text when no safe marker exists. */
  method ContainsProtectedForm(t: Text, n: Needles, lower: Unit -> Text) returns (found: bool)
    requires Compiled(n, lower)
    ensures found <==> t != [] && (Marker(n, lower).None? || Leaks(t, n, lower))
  {
    if t == [] { return false; }
    var out := RedactNormalizedSecrets(t, n, lower);
    RedactionIsExact(t, n, lower);
    found := out != t;
  }
}
