/**
 Path rules of the artifact policy.
 */
module ArtifactPolicy {
  import opened Utf16
  import opened Wrappers

  const SLASH: Unit := 0x2F
  const DOT: Unit := 0x2E
  const STAR: Unit := 0x2A
  const BACKSLASH: Unit := 0x5C
  const COLON: Unit := 0x3A

  const PATH_MAX_UTF8_BYTES: nat := 1024

  /** The code units of an ASCII literal. */
  function Ascii(s: string): Text {
    seq(|s|, i requires 0 <= i < |s| => if s[i] as int < 128 then s[i] as Unit else 0xFFFD)
  }

  // ---- UTF-8 measurement ----

  /** Bytes of the UTF-8 encoding; a lone surrogate encodes as U+FFFD. */
  function Utf8Length(t: Text): (n: nat)
    ensures |t| <= n
  {
    if t == [] then 0
    else if t[0] < 0x80 then 1 + Utf8Length(t[1..])
    else if t[0] < 0x800 then 2 + Utf8Length(t[1..])
    else if High(t[0]) && |t| > 1 && Low(t[1]) then 4 + Utf8Length(t[2..])
    else 3 + Utf8Length(t[1..])
  }

  /** The fast path (more code units than bytes allowed) never changes the answer. */
  function Utf8Exceeds(t: Text, max: nat): (over: bool)
    ensures over <==> Utf8Length(t) > max
  {
    if |t| > max then true else Utf8Length(t) > max
  }

  // ---- Segments ----

  /** `path.split("/")`: always at least one segment. */
  function Split(t: Text): (segments: seq<Text>)
    ensures |segments| > 0 && forall s :: s in segments ==> SLASH !in s
    ensures t != [] ==> segments != [[]]
  {
    if t == [] then [[]]
    else
      var rest := Split(t[1..]);
      if t[0] == SLASH then [[]] + rest else [[t[0]] + rest[0]] + rest[1..]
  }

  function Join(segments: seq<Text>): Text
    requires |segments| > 0
  {
    if |segments| == 1 then segments[0] else segments[0] + [SLASH] + Join(segments[1..])
  }

  lemma {:induction false} JoinSplit(t: Text)
    ensures Join(Split(t)) == t
  {
    if t != [] {
      var rest := Split(t[1..]);
      JoinSplit(t[1..]);
      if t[0] == SLASH {
        assert Split(t)[1..] == rest;
      } else {
        assert Split(t)[1..] == rest[1..];
        assert Join(Split(t)) == [t[0]] + Join(rest);
      }
    }
  }

  lemma {:induction false} SplitSegment(s: Text)
    requires SLASH !in s
    ensures Split(s) == [s]
  {
    if s != [] {
      assert s[0] in s && s == [s[0]] + s[1..];
      SplitSegment(s[1..]);
    }
  }

  lemma {:induction false} SplitCons(s: Text, t: Text)
    requires SLASH !in s
    ensures Split(s + [SLASH] + t) == [s] + Split(t)
  {
    var all := s + [SLASH] + t;
    if s == [] {
      assert all[1..] == t;
    } else {
      assert all[1..] == s[1..] + [SLASH] + t && all[0] == s[0] && s[0] in s;
      SplitCons(s[1..], t);
      assert ([s[1..]] + Split(t))[1..] == Split(t) && s == [s[0]] + s[1..];
    }
  }

  lemma {:induction false} SplitJoin(segments: seq<Text>)
    requires |segments| > 0 && forall s :: s in segments ==> SLASH !in s
    ensures Split(Join(segments)) == segments
  {
    if |segments| == 1 {
      SplitSegment(segments[0]);
    } else {
      SplitJoin(segments[1..]);
      SplitCons(segments[0], Join(segments[1..]));
      assert segments == [segments[0]] + segments[1..];
    }
  }

  lemma {:induction false} JoinAppend(a: seq<Text>, b: seq<Text>)
    requires |a| > 0 && |b| > 0
    ensures Join(a + b) == Join(a) + [SLASH] + Join(b)
  {
    if |a| == 1 {
      assert (a + b)[1..] == b;
    } else {
      assert (a + b)[1..] == a[1..] + b;
      JoinAppend(a[1..], b);
    }
  }

  /** Path `a` is a directory above path `b`. */
  ghost predicate Above(a: Text, b: Text) { Split(a) < Split(b) }

  /** In terms of text: `b` continues `a` after a slash. */
  lemma AboveIsSlashPrefix(a: Text, b: Text)
    ensures Above(a, b) <==> a + [SLASH] <= b
  {
    JoinSplit(a);
    JoinSplit(b);
    if Above(a, b) {
      var rest := Split(b)[|Split(a)|..];
      assert Split(b) == Split(a) + rest;
      JoinAppend(Split(a), rest);
    }
    if a + [SLASH] <= b {
      var rest := b[|a| + 1..];
      assert b == a + [SLASH] + rest;
      var joined := Split(a) + Split(rest);
      JoinSplit(rest);
      JoinAppend(Split(a), Split(rest));
      SplitJoin(joined);
    }
  }

  // ---- Path validation ----

  datatype PathFailure =
    | PathEmpty | PathContainsNul | PathMalformedUnicode | PathBackslash | PathAbsolute | PathDriveLetter
    | PathEmptySegment | PathDotSegment | PathTooLong

  predicate Letter(u: Unit) { 0x41 <= u <= 0x5A || 0x61 <= u <= 0x7A }
  predicate DriveLetter(t: Text) { |t| >= 2 && Letter(t[0]) && t[1] == COLON }
  predicate DotSegment(s: Text) { s == [DOT] || s == [DOT, DOT] }

  /** The first segment that is empty or a dot segment decides. */
  function SegmentFailure(segments: seq<Text>): Option<PathFailure> {
    if segments == [] then None
    else if segments[0] == [] then Some(PathEmptySegment)
    else if DotSegment(segments[0]) then Some(PathDotSegment)
    else SegmentFailure(segments[1..])
  }

  /** Check order: the first failure found is the answer. */
  function ValidatePath(raw: Text): Option<PathFailure> {
    if raw == [] then Some(PathEmpty)
    else if 0 in raw then Some(PathContainsNul)
    else if !WellPaired(raw) then Some(PathMalformedUnicode)
    else if BACKSLASH in raw then Some(PathBackslash)
    else if raw[0] == SLASH then Some(PathAbsolute)
    else if DriveLetter(raw) then Some(PathDriveLetter)
    else if SegmentFailure(Split(raw)).Some? then SegmentFailure(Split(raw))
    else if Utf8Exceeds(raw, PATH_MAX_UTF8_BYTES) then Some(PathTooLong)
    else None
  }

  predicate LegalSegment(s: Text) {
    s != [] && !DotSegment(s) && SLASH !in s && BACKSLASH !in s && 0 !in s && WellPaired(s)
  }

  /** A canonical relative path: legal segments joined by slashes, not a drive, within the byte cap. */
  ghost predicate Canonical(segments: seq<Text>) {
    && |segments| > 0 && (forall s :: s in segments ==> LegalSegment(s))
    && !DriveLetter(segments[0]) && Utf8Length(Join(segments)) <= PATH_MAX_UTF8_BYTES
  }

  lemma {:induction false} SegmentFailureSpec(segments: seq<Text>)
    ensures SegmentFailure(segments).None? <==> forall s :: s in segments ==> s != [] && !DotSegment(s)
  {
    if segments != [] {
      SegmentFailureSpec(segments[1..]);
      assert segments[0] in segments;
      assert forall s :: s in segments <==> s == segments[0] || s in segments[1..];
    }
  }

  lemma {:induction false} WellPairedAppend(a: Text, b: Text)
    requires b != [] ==> !Low(b[0])
    ensures WellPaired(a + b) <==> WellPaired(a) && WellPaired(b)
  {
    if a == [] {
      assert a + b == b;
    } else if High(a[0]) && |a| > 1 {
      assert (a + b)[2..] == a[2..] + b;
      WellPairedAppend(a[2..], b);
    } else {
      assert (a + b)[1..] == a[1..] + b;
      WellPairedAppend(a[1..], b);
    }
  }

  /** What holds of every unit of a joined path holds of every segment and of the slash. */
  lemma {:induction false} JoinParts(segments: seq<Text>, u: Unit)
    requires |segments| > 0
    ensures u in Join(segments) <==> (exists s :: s in segments && u in s) || (u == SLASH && |segments| > 1)
    ensures WellPaired(Join(segments)) <==> AllPaired(segments)
  {
    if |segments| > 1 {
      var rest := segments[1..];
      JoinParts(rest, u);
      WellPairedAppend(segments[0], [SLASH] + Join(rest));
      assert ([SLASH] + Join(rest))[1..] == Join(rest);
      assert segments[0] + [SLASH] + Join(rest) == segments[0] + ([SLASH] + Join(rest));
      assert forall s :: s in segments <==> s == segments[0] || s in rest;
    }
  }

  ghost predicate AllPaired(segments: seq<Text>) { forall s :: s in segments ==> WellPaired(s) }

  /** Validation accepts a path exactly when its segments are canonical. */
  lemma PathAcceptedIffCanonical(raw: Text)
    ensures ValidatePath(raw).None? <==> Canonical(Split(raw))
  {
    var segments := Split(raw);
    JoinSplit(raw);
    SegmentFailureSpec(segments);
    JoinParts(segments, 0);
    JoinParts(segments, BACKSLASH);
    FirstSegment(raw);
    if forall s :: s in segments ==> LegalSegment(s) { assert segments[0] != []; }
  }

  lemma FirstSegment(raw: Text)
    ensures raw != [] ==> (raw[0] == SLASH <==> Split(raw)[0] == [])
    ensures DriveLetter(raw) <==> DriveLetter(Split(raw)[0])
  {
    if |raw| >= 2 { assert raw[1..][0] == raw[1]; }
  }

  // ---- Never-sync rules ----

  function LowerUnit(u: Unit): Unit { if 0x41 <= u <= 0x5A then u + 0x20 else u }

  function Lower(t: Text): (r: Text)
    ensures |r| == |t| && forall i :: 0 <= i < |t| ==> r[i] == LowerUnit(t[i])
  {
    seq(|t|, i requires 0 <= i < |t| => LowerUnit(t[i]))
  }

  function LowerAll(segments: seq<Text>): (r: seq<Text>)
    ensures |r| == |segments| && forall i :: 0 <= i < |r| ==> r[i] == Lower(segments[i])
  {
    seq(|segments|, i requires 0 <= i < |segments| => Lower(segments[i]))
  }

  function IndexOf(t: Text, u: Unit): (i: int)
    ensures -1 <= i < |t|
    ensures i == -1 <==> u !in t
    ensures i >= 0 ==> t[i] == u && u !in t[..i]
  {
    if t == [] then -1
    else if t[0] == u then 0
    else
      var i := IndexOf(t[1..], u);
      if i < 0 then -1 else assert t[..i + 1] == [t[0]] + t[1..][..i]; i + 1
  }

  predicate StartsWith(t: Text, head: Text) { head <= t }
  predicate EndsWith(t: Text, tail: Text) { |tail| <= |t| && t[|t| - |tail|..] == tail }

  function SegmentMatches(rule: Text, segment: Text): bool {
    var star := IndexOf(rule, STAR);
    if star == -1 then rule == segment
    else
      var head, tail := rule[..star], rule[star + 1..];
      |segment| >= |head| + |tail| && StartsWith(segment, head) && EndsWith(segment, tail)
  }

  /** A star stands for any stretch of units. */
  ghost predicate Globs(head: Text, tail: Text, segment: Text) {
    exists middle: Text :: segment == head + middle + tail
  }

  /** Where a rule splits: at its first star. */
  lemma FirstStar(head: Text, tail: Text)
    requires STAR !in head
    ensures var rule := head + [STAR] + tail;
      IndexOf(rule, STAR) == |head| && rule[..|head|] == head && rule[|head| + 1..] == tail
  {
    var rule := head + [STAR] + tail;
    assert rule[|head|] == STAR && STAR in rule;
    assert forall i :: 0 <= i < |head| ==> rule[i] == head[i];
  }

  lemma GlobIff(head: Text, tail: Text, segment: Text)
    ensures |segment| >= |head| + |tail| && StartsWith(segment, head) && EndsWith(segment, tail) <==>
      Globs(head, tail, segment)
  {
    if |segment| >= |head| + |tail| && StartsWith(segment, head) && EndsWith(segment, tail) {
      assert segment == head + segment[|head|..|segment| - |tail|] + tail;
    }
    if middle: Text :| segment == head + middle + tail {
      assert segment[|segment| - |tail|..] == tail;
    }
  }

  lemma SegmentMatchesIsGlob(rule: Text, segment: Text)
    ensures STAR !in rule ==> (SegmentMatches(rule, segment) <==> rule == segment)
    ensures forall head, tail :: rule == head + [STAR] + tail && STAR !in head ==>
              (SegmentMatches(rule, segment) <==> Globs(head, tail, segment))
  {
    forall head, tail | rule == head + [STAR] + tail && STAR !in head
      ensures SegmentMatches(rule, segment) <==> Globs(head, tail, segment)
    {
      FirstStar(head, tail);
      GlobIff(head, tail, segment);
    }
  }

  predicate WindowMatches(rule: seq<Text>, segments: seq<Text>, start: nat)
    requires start + |rule| <= |segments|
  {
    forall i :: 0 <= i < |rule| ==> SegmentMatches(rule[i], segments[start + i])
  }

  /** Some directory rule matches some contiguous window of segments. */
  ghost predicate HitsDirectoryRule(rules: seq<seq<Text>>, segments: seq<Text>) {
    exists r, start :: 0 <= r < |rules| && 0 <= start && start + |rules[r]| <= |segments|
                       && WindowMatches(rules[r], segments, start)
  }

  /** The rule scan: every rule, every start, every segment of the window. */
  method MatchesDirectoryWindow(rules: seq<seq<Text>>, segments: seq<Text>) returns (hit: bool)
    ensures hit <==> HitsDirectoryRule(rules, segments)
  {
    var r := 0;
    while r < |rules|
      invariant 0 <= r <= |rules|
      invariant forall q, s :: 0 <= q < r && 0 <= s && s + |rules[q]| <= |segments| ==>
        !WindowMatches(rules[q], segments, s)
    {
      var rule := rules[r];
      var start := 0;
      while start + |rule| <= |segments|
        invariant 0 <= start
        invariant forall s :: 0 <= s < start && s + |rule| <= |segments| ==> !WindowMatches(rule, segments, s)
        decreases |segments| - start
      {
        var i := 0;
        while i < |rule| && SegmentMatches(rule[i], segments[start + i])
          invariant 0 <= i <= |rule|
          invariant forall j :: 0 <= j < i ==> SegmentMatches(rule[j], segments[start + j])
        {
          i := i + 1;
        }
        if i == |rule| {
          assert WindowMatches(rules[r], segments, start);
          return true;
        }
        start := start + 1;
      }
      r := r + 1;
    }
    return false;
  }

  function DirectoryRules(): seq<seq<Text>> {
    [
    [Ascii(".git")], [Ascii(".hg")], [Ascii(".svn")], [Ascii("node_modules")], [Ascii(".worktrees")], [Ascii(".venv")],
    [Ascii("venv")], [Ascii(".yarn")], [Ascii(".pnpm-store")], [Ascii(".cache")], [Ascii(".next")], [Ascii(".nuxt")],
    [Ascii(".svelte-kit")], [Ascii(".turbo")], [Ascii(".parcel-cache")], [Ascii(".gradle")], [Ascii("__pycache__")],
    [Ascii(".pytest_cache")], [Ascii(".mypy_cache")], [Ascii(".ruff_cache")], [Ascii(".tox")], [Ascii(".loopzhb")],
    [Ascii(".loopany")], [Ascii(".claude")], [Ascii(".codex")], [Ascii(".ssh")], [Ascii(".aws")], [Ascii(".azure")],
    [Ascii(".kube")], [Ascii(".gnupg")], [Ascii(".config"), Ascii("gcloud")], [Ascii("loopzhb-control-*")],
    [Ascii("loopzhb-runs-*")], [Ascii("lzc-*")]]
  }

  function FileRules(): seq<Text> {
    [
    Ascii(".DS_Store"), Ascii(".env"), Ascii(".env.*"), Ascii(".npmrc"), Ascii(".netrc"), Ascii(".pypirc"),
    Ascii("credentials"), Ascii("credentials.json"), Ascii("*.pem"), Ascii("*.key"), Ascii("id_rsa*"),
    Ascii("id_ed25519*")]
  }

  function LowerRules(rules: seq<seq<Text>>): (r: seq<seq<Text>>)
    ensures |r| == |rules| && forall i :: 0 <= i < |r| ==> r[i] == LowerAll(rules[i])
  {
    seq(|rules|, i requires 0 <= i < |rules| => LowerAll(rules[i]))
  }

  ghost predicate HitsFileRule(basename: Text) {
    exists r :: 0 <= r < |FileRules()| && SegmentMatches(Lower(FileRules()[r]), basename)
  }

  ghost predicate NeverSyncDirectory(path: Text) {
    HitsDirectoryRule(LowerRules(DirectoryRules()), LowerAll(Split(path)))
  }

  ghost predicate NeverSync(path: Text) {
    NeverSyncDirectory(path) || HitsFileRule(LowerAll(Split(path))[|Split(path)| - 1])
  }

  method IsNeverSyncDirectoryPath(path: Text) returns (hit: bool)
    ensures hit <==> NeverSyncDirectory(path)
  {
    hit := MatchesDirectoryWindow(LowerRules(DirectoryRules()), LowerAll(Split(path)));
  }

  method IsNeverSyncPath(path: Text) returns (hit: bool)
    ensures hit <==> NeverSync(path)
  {
    hit := IsNeverSyncDirectoryPath(path);
    if hit { return; }
    var basename := LowerAll(Split(path))[|Split(path)| - 1];
    var r := 0;
    while r < |FileRules()|
      invariant 0 <= r <= |FileRules()|
      invariant forall q :: 0 <= q < r ==> !SegmentMatches(Lower(FileRules()[q]), basename)
    {
      if SegmentMatches(Lower(FileRules()[r]), basename) { return true; }
      r := r + 1;
    }
    return false;
  }

  /** Whatever lies below a never-sync directory is never synced. */
  lemma NeverSyncBelow(dir: Text, path: Text)
    requires Above(dir, path) && NeverSyncDirectory(dir)
    ensures NeverSyncDirectory(path)
  {
    hide Split, LowerRules;
    var rules, above, below := LowerRules(DirectoryRules()), LowerAll(Split(dir)), LowerAll(Split(path));
    assert above <= below;
    var r, start :| 0 <= r < |rules| && 0 <= start && start + |rules[r]| <= |above|
      && WindowMatches(rules[r], above, start);
    assert WindowMatches(rules[r], below, start);
  }

  /** Lower-casing neither makes nor removes a slash. */
  lemma {:induction false} SplitLower(t: Text)
    ensures Split(Lower(t)) == LowerAll(Split(t))
  {
    if t != [] {
      assert Lower(t)[1..] == Lower(t[1..]);
      SplitLower(t[1..]);
      var rest := Split(t[1..]);
      if t[0] != SLASH { assert Lower([t[0]] + rest[0]) == [LowerUnit(t[0])] + Lower(rest[0]); }
      assert LowerAll(rest[1..]) == LowerAll(rest)[1..];
    }
  }

  /** Matching ignores ASCII case. */
  lemma NeverSyncIgnoresCase(a: Text, b: Text)
    requires Lower(a) == Lower(b)
    ensures NeverSync(a) == NeverSync(b) && NeverSyncDirectory(a) == NeverSyncDirectory(b)
  {
    hide HitsDirectoryRule, HitsFileRule, Split, LowerRules;
    SplitLower(a);
    SplitLower(b);
  }
}
