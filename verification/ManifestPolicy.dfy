/**
 The one-pass manifest validator, against a specification that does not mention
 the order of the entries.
 */
module ManifestPolicy {
  import opened Wrappers
  import opened ArtifactPolicy
  import opened Utf16
  import opened TextOrder

  const FILE_MAX_BYTES: nat := 10_485_760
  const MAX_TOTAL_BYTES: nat := 268_435_456
  const MAX_ENTRIES: nat := 5000
  const MAX_SAFE_INTEGER: nat := 9_007_199_254_740_991

  /** A wire number: integral or not. */
  datatype Size = Whole(n: int) | NotIntegral

  datatype Entry = Entry(path: Text, hash: Text, size: Size)

  datatype Failure =
    | BadPath(reason: PathFailure) | PathNeverSync | HashMalformed | SizeInvalid | FileTooLarge
    | DuplicatePath | FileDirConflict | HashSizeMismatch | TooManyEntries | ManifestTooLarge

  datatype Validation = Accepted(entries: seq<Entry>) | Rejected(failure: Failure, index: Option<nat>)

  // ---- One entry ----

  predicate HexUnit(u: Unit) { 0x30 <= u <= 0x39 || 0x61 <= u <= 0x66 }
  predicate IsHash(t: Text) { |t| == 64 && forall u :: u in t ==> HexUnit(u) }

  ghost function EntryFailure(e: Entry): Option<Failure> {
    if ValidatePath(e.path).Some? then Some(BadPath(ValidatePath(e.path).value))
    else if NeverSync(e.path) then Some(PathNeverSync)
    else if !IsHash(e.hash) then Some(HashMalformed)
    else if e.size.NotIntegral? || e.size.n < 0 || e.size.n > MAX_SAFE_INTEGER then Some(SizeInvalid)
    else if e.size.n > FILE_MAX_BYTES then Some(FileTooLarge)
    else None
  }

  method CheckEntry(e: Entry) returns (failure: Option<Failure>)
    ensures failure == EntryFailure(e)
  {
    var path := ValidatePath(e.path);
    if path.Some? { return Some(BadPath(path.value)); }
    var never := IsNeverSyncPath(e.path);
    if never { return Some(PathNeverSync); }
    if !IsHash(e.hash) { return Some(HashMalformed); }
    if e.size.NotIntegral? || e.size.n < 0 || e.size.n > MAX_SAFE_INTEGER { return Some(SizeInvalid); }
    if e.size.n > FILE_MAX_BYTES { return Some(FileTooLarge); }
    return None;
  }

  function Bytes(e: Entry): nat { if e.size.Whole? && e.size.n >= 0 then e.size.n else 0 }

  function TotalBytes(entries: seq<Entry>): nat {
    if entries == [] then 0 else TotalBytes(entries[..|entries| - 1]) + Bytes(entries[|entries| - 1])
  }

  // ---- The order-free specification ----

  ghost predicate Conflict(a: Entry, b: Entry) { Above(a.path, b.path) || Above(b.path, a.path) }

  ghost predicate Compatible(a: Entry, b: Entry) {
    a.path != b.path && !Conflict(a, b) && (a.hash == b.hash ==> a.size == b.size)
  }

  /** Legal entries, distinct paths, no path above another, one size per hash. */
  ghost predicate Sound(entries: seq<Entry>) {
    && (forall i :: 0 <= i < |entries| ==> EntryFailure(entries[i]).None?)
    && (forall i, j :: 0 <= i < j < |entries| ==> Compatible(entries[i], entries[j]))
  }

  ghost predicate Acceptable(entries: seq<Entry>) {
    Sound(entries) && |entries| <= MAX_ENTRIES && TotalBytes(entries) <= MAX_TOTAL_BYTES
  }

  /** Why an entry is refused after a sound list. */
  ghost function Why(before: seq<Entry>, e: Entry): Option<Failure> {
    if EntryFailure(e).Some? then EntryFailure(e)
    else if exists i :: 0 <= i < |before| && before[i].path == e.path then Some(DuplicatePath)
    else if exists i :: 0 <= i < |before| && Conflict(before[i], e) then Some(FileDirConflict)
    else if exists i :: 0 <= i < |before| && before[i].hash == e.hash && before[i].size != e.size
    then Some(HashSizeMismatch)
    else None
  }

  lemma WhyIsRight(before: seq<Entry>, e: Entry)
    requires Sound(before)
    ensures Why(before, e).None? <==> Sound(before + [e])
  {
    hide EntryFailure, Conflict;
    var all := before + [e];
    assert all[|before|] == e && forall i :: 0 <= i < |before| ==> all[i] == before[i];
    if Why(before, e).None? {
      forall i, j | 0 <= i < j < |all| ensures Compatible(all[i], all[j]) {
        if j < |before| { assert Compatible(before[i], before[j]); }
      }
    } else if Sound(all) {
      assert forall i :: 0 <= i < |before| ==> Compatible(all[i], all[|before|]);
    }
  }

  function PathOf(e: Entry): Text { e.path }

  /** `normalized.sort` by path. */
  function SortByPath(entries: seq<Entry>): seq<Entry> { SortBy(entries, PathOf) }

  // ---- The validator ----

  lemma AboveIsTake(p: Text, path: Text)
    ensures Above(p, path) <==> exists i :: 1 <= i < |Split(path)| && p == Join(Split(path)[..i])
  {
    JoinSplit(p);
    if Above(p, path) {
      assert Split(path)[..|Split(p)|] == Split(p);
    }
    forall i | 1 <= i < |Split(path)| && p == Join(Split(path)[..i]) ensures Above(p, path) {
      SplitJoin(Split(path)[..i]);
    }
  }

  /** `segments.slice(0, n).join("/")` for every n below the length. */
  method ProperPrefixes(path: Text) returns (prefixes: seq<Text>)
    requires ValidatePath(path).None?
    ensures forall p :: p in prefixes <==> Above(p, path)
  {
    var segments := Split(path);
    PathAcceptedIffCanonical(path);
    hide Canonical, Split, ValidatePath;
    assert segments[0] != [] by { CanonicalFirst(segments); }
    prefixes := [];
    var prefix: Text := [];
    var i := 0;
    while i < |segments| - 1
      invariant 0 <= i <= |segments| - 1
      invariant if i == 0 then prefix == [] else prefix == Join(segments[..i]) && prefix != []
      invariant forall p :: p in prefixes <==> exists k :: 1 <= k <= i && p == Join(segments[..k])
    {
      ExtendPrefix(segments, i);
      prefix := if prefix == [] then segments[i] else prefix + [SLASH] + segments[i];
      prefixes := prefixes + [prefix];
      i := i + 1;
    }
    forall p ensures p in prefixes <==> Above(p, path) { AboveIsTake(p, path); }
  }

  lemma CanonicalFirst(segments: seq<Text>)
    requires Canonical(segments)
    ensures segments[0] != []
  {
    assert segments[0] in segments;
  }

  lemma ExtendPrefix(segments: seq<Text>, i: nat)
    requires i < |segments|
    ensures Join(segments[..i + 1]) == if i == 0 then segments[0] else Join(segments[..i]) + [SLASH] + segments[i]
  {
    if i > 0 {
      assert segments[..i + 1] == segments[..i] + [segments[i]];
      JoinAppend(segments[..i], [segments[i]]);
    } else {
      assert segments[..1] == [segments[0]];
    }
  }

  ghost predicate PathsSeen(before: seq<Entry>, paths: set<Text>) {
    forall p :: p in paths <==> exists i :: 0 <= i < |before| && before[i].path == p
  }

  ghost predicate DirsSeen(before: seq<Entry>, dirs: set<Text>) {
    forall p :: p in dirs <==> exists i :: 0 <= i < |before| && Above(p, before[i].path)
  }

  ghost predicate SizesSeen(before: seq<Entry>, sizes: map<Text, Size>) {
    && (forall i :: 0 <= i < |before| ==> before[i].hash in sizes && sizes[before[i].hash] == before[i].size)
    && (forall h :: h in sizes ==> exists i :: 0 <= i < |before| && before[i].hash == h)
  }

  /** One pass, in wire order, with the first failure fixed by the entries before it. */
  method Normalize(entries: seq<Entry>) returns (r: Validation)
    ensures r.Accepted? <==> Acceptable(entries)
    ensures r.Accepted? ==> r.entries == SortByPath(entries)
    ensures r.Rejected? && r.index.Some? ==>
              && r.index.value < |entries| && Sound(entries[..r.index.value])
              && Why(entries[..r.index.value], entries[r.index.value]) == Some(r.failure)
    ensures r.Rejected? && r.index.None? ==>
              Sound(entries) && r.failure == if |entries| > MAX_ENTRIES then TooManyEntries else ManifestTooLarge
  {
    hide EntryFailure, Above, ValidatePath, Compatible, Sound, Why, PathsSeen, DirsSeen, SizesSeen;
    NothingSeen(entries);
    var paths: set<Text>, dirs: set<Text>, sizes: map<Text, Size>, totalBytes: nat := {}, {}, map[], 0;
    var index := 0;
    while index < |entries|
      invariant 0 <= index <= |entries|
      invariant Sound(entries[..index])
      invariant PathsSeen(entries[..index], paths) && DirsSeen(entries[..index], dirs)
        && SizesSeen(entries[..index], sizes)
      invariant totalBytes == TotalBytes(entries[..index])
    {
      var entry := entries[index];
      ghost var before := entries[..index];
      assert entries[..index + 1] == before + [entry];
      WhyIsRight(before, entry);
      EntryComesFirst(before, entry);
      SoundTake(entries, index + 1);
      var failure := CheckEntry(entry);
      if failure.Some? { return Rejected(failure.value, Some(index)); }
      PathIsValid(entry);
      var verdict, prefixes := AgainstEarlier(before, entry, paths, dirs, sizes);
      if verdict.Some? { return Rejected(verdict.value, Some(index)); }
      SeenStep(before, entry, paths, dirs, sizes, prefixes);
      paths := paths + {entry.path};
      dirs := dirs + set p | p in prefixes;
      sizes := sizes[entry.hash := entry.size];
      totalBytes := totalBytes + Bytes(entry);
      index := index + 1;
    }
    assert entries[..index] == entries;
    if |entries| > MAX_ENTRIES { return Rejected(TooManyEntries, None); }
    if totalBytes > MAX_TOTAL_BYTES { return Rejected(ManifestTooLarge, None); }
    return Accepted(SortByPath(entries));
  }

  lemma EntryComesFirst(before: seq<Entry>, e: Entry)
    ensures EntryFailure(e).Some? ==> Why(before, e) == EntryFailure(e)
  {
  }

  lemma NothingSeen(entries: seq<Entry>)
    ensures Sound(entries[..0]) && PathsSeen(entries[..0], {}) && DirsSeen(entries[..0], {})
      && SizesSeen(entries[..0], map[])
  {
  }

  lemma PathIsValid(e: Entry)
    requires EntryFailure(e).None?
    ensures ValidatePath(e.path).None?
  {
  }

  lemma SoundTake(entries: seq<Entry>, n: nat)
    requires n <= |entries|
    ensures Sound(entries) ==> Sound(entries[..n])
  {
  }

  /** The three checks of an entry against the entries before it. */
  method AgainstEarlier(ghost before: seq<Entry>, entry: Entry, paths: set<Text>, dirs: set<Text>,
                        sizes: map<Text, Size>)
    returns (verdict: Option<Failure>, prefixes: seq<Text>)
    requires EntryFailure(entry).None? && ValidatePath(entry.path).None?
    requires PathsSeen(before, paths) && DirsSeen(before, dirs) && SizesSeen(before, sizes)
    ensures verdict == Why(before, entry)
    ensures forall p :: p in prefixes <==> Above(p, entry.path)
  {
    hide EntryFailure, Above, ValidatePath;
    prefixes := ProperPrefixes(entry.path);
    if entry.path in paths { return Some(DuplicatePath), prefixes; }
    var i := 0;
    while i < |prefixes|
      invariant 0 <= i <= |prefixes| && forall k :: 0 <= k < i ==> prefixes[k] !in paths
    {
      if prefixes[i] in paths {
        assert prefixes[i] in prefixes;
        return Some(FileDirConflict), prefixes;
      }
      i := i + 1;
    }
    assert forall p :: Above(p, entry.path) ==> p !in paths;
    if entry.path in dirs { return Some(FileDirConflict), prefixes; }
    if entry.hash in sizes && sizes[entry.hash] != entry.size { return Some(HashSizeMismatch), prefixes; }
    verdict := None;
  }

  lemma SeenStep(before: seq<Entry>, e: Entry, paths: set<Text>, dirs: set<Text>, sizes: map<Text, Size>,
                 prefixes: seq<Text>)
    requires PathsSeen(before, paths) && DirsSeen(before, dirs) && SizesSeen(before, sizes)
    requires Why(before, e).None? && forall p :: p in prefixes <==> Above(p, e.path)
    ensures PathsSeen(before + [e], paths + {e.path})
    ensures DirsSeen(before + [e], dirs + set p | p in prefixes)
    ensures SizesSeen(before + [e], sizes[e.hash := e.size])
  {
    hide EntryFailure, Above;
    var all := before + [e];
    assert all[|before|] == e && forall i :: 0 <= i < |before| ==> all[i] == before[i];
    forall p ensures p in paths + {e.path} <==> exists i :: 0 <= i < |all| && all[i].path == p {
      if i :| 0 <= i < |before| && before[i].path == p { assert all[i].path == p; }
    }
    var newDirs := dirs + set p | p in prefixes;
    forall p ensures p in newDirs <==> exists i :: 0 <= i < |all| && Above(p, all[i].path) {
      if i :| 0 <= i < |before| && Above(p, before[i].path) { assert Above(p, all[i].path); }
    }
    var newSizes := sizes[e.hash := e.size];
    forall h | h in newSizes ensures exists i :: 0 <= i < |all| && all[i].hash == h {
      if h != e.hash {
        var i :| 0 <= i < |before| && before[i].hash == h;
        assert all[i].hash == h;
      } else {
        assert all[|before|].hash == h;
      }
    }
  }

  // ---- Independence of the wire order ----

  /** The same specification on the bag of entries. */
  ghost predicate SoundBag(m: multiset<Entry>) {
    && (forall e :: e in m ==> EntryFailure(e).None? && m[e] == 1)
    && (forall a, b :: a in m && b in m && a != b ==> Compatible(a, b))
  }

  lemma {:induction false} OnceOnly(s: seq<Entry>, e: Entry)
    ensures (multiset(s)[e] <= 1) <==> forall i, j :: 0 <= i < j < |s| && s[i] == e ==> s[j] != e
  {
    if s != [] {
      var rest := s[1..];
      assert s == [s[0]] + rest;
      OnceOnly(rest, e);
      assert multiset(s)[e] == multiset(rest)[e] + (if s[0] == e then 1 else 0);
      assert multiset(rest)[e] > 0 <==> e in rest;
      if forall i, j :: 0 <= i < j < |s| && s[i] == e ==> s[j] != e {
        forall i, j | 0 <= i < j < |rest| && rest[i] == e ensures rest[j] != e {
          assert s[i + 1] == e && s[j + 1] == rest[j];
        }
        if s[0] == e { assert forall j :: 0 <= j < |rest| ==> rest[j] == s[j + 1] != e; }
      }
    }
  }

  lemma SoundIffBag(entries: seq<Entry>)
    ensures Sound(entries) <==> SoundBag(multiset(entries))
  {
    hide EntryFailure, Above;
    var m := multiset(entries);
    assert forall e :: e in m <==> e in entries;
    if Sound(entries) {
      forall e | e in m ensures m[e] == 1 {
        OnceOnly(entries, e);
        assert forall i, j :: 0 <= i < j < |entries| ==> Compatible(entries[i], entries[j]);
      }
      forall a, b | a in m && b in m && a != b ensures Compatible(a, b) {
        var i :| 0 <= i < |entries| && entries[i] == a;
        var j :| 0 <= j < |entries| && entries[j] == b;
        assert Compatible(entries[if i < j then i else j], entries[if i < j then j else i]);
      }
    }
    if SoundBag(m) {
      forall i, j | 0 <= i < j < |entries| ensures Compatible(entries[i], entries[j]) {
        OnceOnly(entries, entries[i]);
        assert entries[i] in m && entries[j] in m;
      }
    }
  }

  lemma {:induction false} TotalRemove(s: seq<Entry>, k: nat)
    requires k < |s|
    ensures TotalBytes(s) == TotalBytes(s[..k] + s[k + 1..]) + Bytes(s[k])
  {
    var n := |s| - 1;
    if k == n {
      assert s[..k] + s[k + 1..] == s[..n];
    } else {
      var t := s[..k] + s[k + 1..];
      TotalRemove(s[..n], k);
      assert t == (s[..n][..k] + s[..n][k + 1..]) + [s[n]];
    }
  }

  lemma BagRemove(s: seq<Entry>, k: nat)
    requires k < |s|
    ensures multiset(s[..k] + s[k + 1..]) == multiset(s) - multiset{s[k]}
  {
    assert s == s[..k] + [s[k]] + s[k + 1..];
  }

  lemma {:induction false} TotalOfBag(a: seq<Entry>, b: seq<Entry>)
    requires multiset(a) == multiset(b)
    ensures TotalBytes(a) == TotalBytes(b) && |a| == |b|
    decreases |a|
  {
    assert |multiset(a)| == |a| && |multiset(b)| == |b|;
    if a != [] {
      var n := |a| - 1;
      assert a[n] in multiset(b);
      var k :| 0 <= k < |b| && b[k] == a[n];
      BagRemove(a, n);
      BagRemove(b, k);
      assert a[..n] + a[n + 1..] == a[..n];
      TotalOfBag(a[..n], b[..k] + b[k + 1..]);
      TotalRemove(b, k);
    }
  }

  lemma SoundKeys(entries: seq<Entry>)
    requires Sound(entries)
    ensures DistinctKeys(entries, PathOf)
  {
    hide EntryFailure, Conflict;
    assert forall i, j :: 0 <= i < j < |entries| ==> Compatible(entries[i], entries[j]);
  }

  /** The verdict and the normalized manifest depend on the set of entries only,
      never on their wire order. */
  lemma OrderNeverMatters(a: seq<Entry>, b: seq<Entry>)
    requires multiset(a) == multiset(b)
    ensures Acceptable(a) == Acceptable(b)
    ensures Acceptable(a) ==>
      SortByPath(a) == SortByPath(b) && Increasing(SortByPath(a), PathOf) && SameElements(SortByPath(a), a)
  {
    SoundIffBag(a);
    SoundIffBag(b);
    TotalOfBag(a, b);
    hide SoundBag, Sound, EntryFailure;
    if Acceptable(a) {
      SoundKeys(a);
      SoundKeys(b);
      SortByIncreases(a, PathOf);
      forall x ensures x in a <==> x in b {
        assert x in a <==> x in multiset(a);
        assert x in b <==> x in multiset(b);
      }
      SortForgetsOrder(a, b, PathOf);
    }
  }

  /** Validation is idempotent: the normalized manifest is accepted as it is. */
  lemma NormalizedStaysNormal(entries: seq<Entry>)
    requires Acceptable(entries)
    ensures Acceptable(SortByPath(entries)) && SortByPath(SortByPath(entries)) == SortByPath(entries)
  {
    SortByBag(entries, PathOf);
    OrderNeverMatters(entries, SortByPath(entries));
  }
}
