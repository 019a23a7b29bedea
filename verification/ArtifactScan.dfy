/**
 The artifact tree scanner. The file system may answer anything at every call; a
 clean scan nevertheless always satisfies the shared manifest policy.
 */
module ArtifactScan {
  import opened Wrappers
  import opened ArtifactPolicy
  import opened Utf16
  import opened TextOrder
  import opened ManifestPolicy

  type Content = seq<bv8>

  const MAX_ATTEMPTS: nat := 3

  datatype Limits = Limits(fileMaxBytes: nat, maxEntries: nat, maxTotalBytes: nat, maxVisited: nat)

  /** A call that is refused: a loop of links on the way, or anything else. */
  datatype Refusal = Looped | Denied

  datatype Listing = Names(names: seq<Text>) | ListMissing | ListRefused(refusal: Refusal)
  /** What reading a file gives: it vanished or changed, it failed for good, or its bytes
      (read now, or remembered by the hash cache for the same file identity). */
  datatype Reading = Moved | ReadRefused(failure: Failure) | Read(content: Content)
  datatype Inspection = Gone | InspectRefused(refusal: Refusal) | Symlink | Directory | Special
    | RegularFile(size: nat, reading: Reading)
  datatype Recheck = Unchanged | Changed | RecheckRefused

  /** The file system and the caller's signal: what is answered for a path at a step of
      an attempt may differ from what was answered before. */
  datatype FileSystem = FileSystem(root: nat -> Inspection, list: (nat, nat, Text) -> Listing,
                                   inspect: (nat, nat, Text) -> Inspection,
                                   recheck: (nat, nat, Text) -> Recheck, aborted: (nat, nat, nat) -> bool,
                                   sha: Content -> Text)

  datatype Failure = DirectoryMissing | SymlinkFound | Unreadable | TooLarge | SpecialFile | Unstable

  datatype Walk = Aborted | WalkFailed(failure: Failure) | Walked(entries: seq<Entry>, dirty: bool)
  datatype Scan = Cancelled | ScanFailed(failure: Failure) | Scanned(entries: seq<Entry>)
    /** Thrown: the shared policy rejected what the walk believes impossible. */
    | InvariantBroken

  datatype Frame = Dir(prefix: Text) | Check(prefix: Text)

  /** An inspection that is made: at a step of an attempt, of a path. */
  datatype Look = Look(attempt: nat, step: nat, path: Text)

  function Seen(fs: FileSystem, k: Look): Inspection { fs.inspect(k.attempt, k.step, k.path) }

  predicate Gives(fs: FileSystem, k: Look) { Seen(fs, k).RegularFile? && Seen(fs, k).reading.Read? }

  /** The bytes read for a look that gives any. */
  function ContentAt(fs: FileSystem, k: Look): Content
    requires Gives(fs, k)
  {
    Seen(fs, k).reading.content
  }

  /** Names of one listing are distinct and contain no slash. The contents that are read
      have hash texts, and contents of different lengths have different ones. */
  ghost predicate Sane(fs: FileSystem) {
    && (forall a, s, p :: fs.list(a, s, p).Names? ==> NamesOk(fs.list(a, s, p).names))
    && (forall k :: Gives(fs, k) ==> IsHash(fs.sha(ContentAt(fs, k))))
    && (forall k, l :: Gives(fs, k) && Gives(fs, l) && fs.sha(ContentAt(fs, k)) == fs.sha(ContentAt(fs, l)) ==>
          |ContentAt(fs, k)| == |ContentAt(fs, l)|)
  }

  function Itself(t: Text): Text { t }

  ghost predicate NamesOk(names: seq<Text>) {
    DistinctKeys(names, Itself) && forall i :: 0 <= i < |names| ==> SLASH !in names[i]
  }

  function Child(prefix: Text, name: Text): Text { if prefix == [] then name else prefix + [SLASH] + name }

  // ---- Incomparable paths ----

  /** Different, and neither a directory above the other. */
  ghost predicate Apart(a: Text, b: Text) { a != b && !(a + [SLASH] <= b) && !(b + [SLASH] <= a) }

  lemma AboveChild(q: Text, p: Text, name: Text)
    requires SLASH !in name
    ensures q + [SLASH] <= p + [SLASH] + name ==> q == p || q + [SLASH] <= p
  {
    var c := p + [SLASH] + name;
    if q + [SLASH] <= c {
      assert c[|q|] == (q + [SLASH])[|q|] == SLASH;
      assert forall i :: |p| < i < |c| ==> c[i] == name[i - |p| - 1];
      assert q == c[..|q|] == p[..|q|];
      if |q| < |p| { assert q + [SLASH] == c[..|q| + 1] == p[..|q| + 1]; }
    }
  }

  /** What is apart from a directory is apart from everything in it. */
  lemma ChildApart(q: Text, p: Text, name: Text)
    requires Apart(q, p) && p != [] && SLASH !in name
    ensures Apart(q, Child(p, name))
  {
    AboveChild(q, p, name);
    assert p + [SLASH] <= p + [SLASH] + name;
  }

  lemma SiblingsApart(p: Text, m: Text, n: Text)
    requires m != n && SLASH !in m && SLASH !in n
    ensures Apart(Child(p, m), Child(p, n))
  {
    ChildNotAbove(p, m, n);
    ChildNotAbove(p, n, m);
    var k := if p == [] then 0 else |p| + 1;
    assert Child(p, m)[k..] == m && Child(p, n)[k..] == n;
  }

  predicate SlashAt(t: Text, i: nat) { i < |t| && t[i] == SLASH }

  lemma SlashPrefix(a: Text, b: Text)
    ensures a + [SLASH] <= b ==> SlashAt(b, |a|)
  {
    if a + [SLASH] <= b { assert b[|a|] == (a + [SLASH])[|a|]; }
  }

  lemma ChildNotAbove(p: Text, m: Text, n: Text)
    requires SLASH !in m && SLASH !in n
    ensures !(Child(p, m) + [SLASH] <= Child(p, n))
  {
    var a, b := Child(p, m), Child(p, n);
    var k := if p == [] then 0 else |p| + 1;
    assert forall i :: k <= i < |b| ==> b[i] == n[i - k];
    SlashPrefix(a, b);
  }

  ghost predicate Within(s: seq<Text>) { forall i, j :: 0 <= i < j < |s| ==> Apart(s[i], s[j]) }
  ghost predicate Between(s: seq<Text>, t: seq<Text>) {
    forall i, j :: 0 <= i < |s| && 0 <= j < |t| ==> Apart(s[i], t[j])
  }

  function PathsOf(entries: seq<Entry>): (r: seq<Text>)
    ensures |r| == |entries| && forall i :: 0 <= i < |r| ==> r[i] == entries[i].path
  {
    seq(|entries|, i requires 0 <= i < |entries| => entries[i].path)
  }

  function DirsOf(stack: seq<Frame>): seq<Text> {
    if stack == [] then []
    else DirsOf(stack[..|stack| - 1]) + (if stack[|stack| - 1].Dir? then [stack[|stack| - 1].prefix] else [])
  }

  lemma {:induction false} DirsJoin(a: seq<Frame>, b: seq<Frame>)
    ensures DirsOf(a + b) == DirsOf(a) + DirsOf(b)
  {
    if b == [] {
      assert a + b == a;
    } else {
      assert (a + b)[..|a + b| - 1] == a + b[..|b| - 1];
      DirsJoin(a, b[..|b| - 1]);
    }
  }

  /** The child directories, pushed so that the first one is popped first. */
  function Pushed(dirs: seq<Text>): (r: seq<Frame>)
    ensures |r| == |dirs| && forall i :: 0 <= i < |r| ==> r[i] == Dir(dirs[|dirs| - 1 - i])
  {
    if dirs == [] then [] else Pushed(dirs[1..]) + [Dir(dirs[0])]
  }

  lemma {:induction false} PushedDirs(dirs: seq<Text>)
    ensures |DirsOf(Pushed(dirs))| == |dirs|
    ensures forall i :: 0 <= i < |dirs| ==> DirsOf(Pushed(dirs))[i] == dirs[|dirs| - 1 - i]
  {
    if dirs != [] {
      PushedDirs(dirs[1..]);
      assert Pushed(dirs)[..|dirs| - 1] == Pushed(dirs[1..]);
    }
  }

  function Weight(stack: seq<Frame>): nat {
    if stack == [] then 0 else Weight(stack[..|stack| - 1]) + (if stack[|stack| - 1].Dir? then 2 else 1)
  }

  lemma {:induction false} WeightJoin(a: seq<Frame>, b: seq<Frame>)
    ensures Weight(a + b) == Weight(a) + Weight(b)
  {
    if b == [] {
      assert a + b == a;
    } else {
      assert (a + b)[..|a + b| - 1] == a + b[..|b| - 1];
      WeightJoin(a, b[..|b| - 1]);
    }
  }

  lemma {:induction false} PushedWeight(dirs: seq<Text>)
    ensures Weight(Pushed(dirs)) == 2 * |dirs|
  {
    if dirs != [] {
      PushedWeight(dirs[1..]);
      assert Pushed(dirs)[..|dirs| - 1] == Pushed(dirs[1..]);
    }
  }

  /** No limit is raised above the shared policy's. */
  predicate Shared(limits: Limits) {
    limits.fileMaxBytes <= FILE_MAX_BYTES && limits.maxEntries <= MAX_ENTRIES
    && limits.maxTotalBytes <= MAX_TOTAL_BYTES
  }

  function Min(a: nat, b: nat): nat { if a <= b then a else b }

  /** What both the scan's limits and the shared policy let in. */
  function Tight(limits: Limits): (r: Limits)
    ensures Shared(r) && (Shared(limits) ==> r == limits)
  {
    limits.(fileMaxBytes := Min(limits.fileMaxBytes, FILE_MAX_BYTES), maxEntries := Min(limits.maxEntries, MAX_ENTRIES),
            maxTotalBytes := Min(limits.maxTotalBytes, MAX_TOTAL_BYTES))
  }

  // ---- What the walk has collected ----

  /** An entry the policy can only refuse for its size. */
  ghost predicate EntryFine(fs: FileSystem, limits: Limits, e: Entry) {
    && ValidatePath(e.path).None? && !NeverSync(e.path)
    && e.size.Whole? && 0 <= e.size.n <= limits.fileMaxBytes
    && exists k :: Gives(fs, k) && e.hash == fs.sha(ContentAt(fs, k)) && e.size.n == |ContentAt(fs, k)|
  }

  ghost predicate Collected(fs: FileSystem, limits: Limits, entries: seq<Entry>, totalBytes: nat) {
    && (forall i :: 0 <= i < |entries| ==> EntryFine(fs, limits, entries[i]))
    && Within(PathsOf(entries)) && |entries| <= limits.maxEntries
    && totalBytes == TotalBytes(entries) <= limits.maxTotalBytes
  }

  /** Everything collected and every directory still to visit are pairwise apart; the
      root is only ever alone. */
  ghost predicate Frontier(entries: seq<Entry>, stack: seq<Frame>) {
    var dirs := DirsOf(stack);
    && Within(dirs) && Between(PathsOf(entries), dirs)
    && ((forall i :: 0 <= i < |dirs| ==> dirs[i] != []) || (entries == [] && dirs == [[]]))
  }

  ghost predicate OnlyTooLarge(e: Entry) {
    EntryFailure(e).None? || EntryFailure(e) == Some(FileTooLarge) || EntryFailure(e) == Some(SizeInvalid)
  }

  lemma FineEntry(fs: FileSystem, limits: Limits, e: Entry)
    requires Sane(fs) && EntryFine(fs, limits, e)
    ensures OnlyTooLarge(e) && (limits.fileMaxBytes <= FILE_MAX_BYTES ==> EntryFailure(e).None?)
  {
    hide ValidatePath, NeverSync, IsHash, NamesOk;
  }

  lemma FinePair(fs: FileSystem, limits: Limits, a: Entry, b: Entry)
    requires Sane(fs) && EntryFine(fs, limits, a) && EntryFine(fs, limits, b) && Apart(a.path, b.path)
    ensures Compatible(a, b)
  {
    hide ValidatePath, NeverSync, IsHash, NamesOk, Above;
    AboveIsSlashPrefix(a.path, b.path);
    AboveIsSlashPrefix(b.path, a.path);
  }

  /** A collected list is sound but for sizes that only a raised limit lets in. */
  lemma CollectedIsSound(fs: FileSystem, limits: Limits, entries: seq<Entry>, totalBytes: nat)
    requires Sane(fs) && Collected(fs, limits, entries, totalBytes)
    ensures forall i :: 0 <= i < |entries| ==> OnlyTooLarge(entries[i])
    ensures forall i, j :: 0 <= i < j < |entries| ==> Compatible(entries[i], entries[j])
    ensures limits.fileMaxBytes <= FILE_MAX_BYTES ==> Sound(entries)
  {
    hide Sane, EntryFine, Apart, Compatible, OnlyTooLarge, EntryFailure;
    forall i, j | 0 <= i < j < |entries| ensures Compatible(entries[i], entries[j]) {
      assert Apart(PathsOf(entries)[i], PathsOf(entries)[j]);
      FinePair(fs, limits, entries[i], entries[j]);
    }
    forall i | 0 <= i < |entries|
      ensures OnlyTooLarge(entries[i]) && (limits.fileMaxBytes <= FILE_MAX_BYTES ==> EntryFailure(entries[i]).None?) {
      FineEntry(fs, limits, entries[i]);
    }
  }

  // ---- The walk ----

  /** A directory to descend into, and a file to list, as they were inspected. */
  ghost predicate IsDir(found: Inspection, rel: Text) { !NeverSync(rel) && found.Directory? }

  ghost predicate IsFile(fs: FileSystem, found: Inspection, rel: Text, e: Entry) {
    && !NeverSync(rel) && found.RegularFile? && found.reading.Read? && |found.reading.content| == found.size
    && e == Entry(rel, fs.sha(found.reading.content), Whole(found.size))
  }

  datatype Step = Skip(dirty: bool) | Descend | Add(entry: Entry) | Fail(failure: Failure)

  function Classified(refusal: Refusal): Failure { if refusal.Looped? then SymlinkFound else Unreadable }

  function MapPathFailure(f: PathFailure): Failure { if f.PathTooLong? then TooLarge else Unreadable }

  /** The path is pruned, or may be synced: a directory, or a file that is read as it was
      inspected and still fits. */
  ghost predicate Takes(fs: FileSystem, limits: Limits, found: Inspection, rel: Text, count: nat, totalBytes: nat) {
    || NeverSync(rel)
    || (ValidatePath(rel).None? && found.Directory?)
    || (ValidatePath(rel).None? && ReadAsFound(found) && found.size <= limits.fileMaxBytes
        && count < limits.maxEntries && totalBytes + found.size <= limits.maxTotalBytes)
  }

  predicate ReadAsFound(found: Inspection) {
    found.RegularFile? && found.reading.Read? && |found.reading.content| == found.size
  }

  /** One directory entry: pruned before any I/O, then validated, inspected and read. */
  method InspectName(fs: FileSystem, limits: Limits, attempt: nat, step: nat, relPath: Text, count: nat,
                     totalBytes: nat) returns (r: Step)
    ensures r.Descend? ==> relPath != [] && IsDir(fs.inspect(attempt, step, relPath), relPath)
    ensures r.Add? ==>
              && EntryFine(fs, limits, r.entry) && r.entry.path == relPath
              && IsFile(fs, fs.inspect(attempt, step, relPath), relPath, r.entry)
              && count < limits.maxEntries && totalBytes + Bytes(r.entry) <= limits.maxTotalBytes
    ensures r == Skip(false) ==> NeverSync(relPath)
    ensures NeverSync(relPath) ==> r == Skip(false)
    ensures Takes(fs, limits, fs.inspect(attempt, step, relPath), relPath, count, totalBytes) ==>
      r.Descend? || r.Add? || r == Skip(false)
  {
    var never := IsNeverSyncPath(relPath);
    if never { return Skip(false); }
    var path := ValidatePath(relPath);
    if path.Some? { return Fail(MapPathFailure(path.value)); }
    match fs.inspect(attempt, step, relPath) {
      case Gone => return Skip(true);
      case InspectRefused(refusal) => return Fail(Classified(refusal));
      case Symlink => return Fail(SymlinkFound);
      case Directory => return Descend;
      case Special => return Fail(SpecialFile);
      case RegularFile(size, reading) =>
        if size > limits.fileMaxBytes || count >= limits.maxEntries || totalBytes + size > limits.maxTotalBytes {
          return Fail(TooLarge);
        }
        match reading {
          case Moved => return Skip(true);
          case ReadRefused(failure) => return Fail(failure);
          case Read(content) =>
            // The bytes read must be as many as the inspection said, or the file changed.
            if |content| != size { return Skip(true); }
            var entry := Entry(relPath, fs.sha(content), Whole(size));
            assert Gives(fs, Look(attempt, step, relPath)) && ContentAt(fs, Look(attempt, step, relPath)) == content;
            return Add(entry);
        }
    }
  }

  ghost predicate AllApart(s: seq<Text>, q: Text) { forall i :: 0 <= i < |s| ==> Apart(s[i], q) }

  /** The names not visited yet are apart from everything in s. */
  ghost predicate Ahead(s: seq<Text>, p: Text, names: seq<Text>, from: nat) {
    forall k :: from <= k < |names| ==> AllApart(s, Child(p, names[k]))
  }

  ghost predicate NonEmptyAll(s: seq<Text>) { forall i :: 0 <= i < |s| ==> s[i] != [] }

  /** Everything added in this directory was found in it. */
  ghost predicate Taken(fs: FileSystem, attempt: nat, step: nat, p: Text, names: seq<Text>, n: nat, before: seq<Entry>,
                        entries: seq<Entry>, childDirs: seq<Text>)
    requires n <= |names|
  {
    && (forall e :: e in before ==> e in entries)
    && (forall e :: e in entries ==> e in before || FileAmong(fs, attempt, step, p, names, n, e))
    && (forall d :: d in childDirs ==> DirAmong(fs, attempt, step, p, names, n, d))
  }

  ghost predicate FileAmong(fs: FileSystem, attempt: nat, step: nat, p: Text, names: seq<Text>, n: nat, e: Entry)
    requires n <= |names|
  {
    exists k :: 0 <= k < n && IsFile(fs, fs.inspect(attempt, step, Child(p, names[k])), Child(p, names[k]), e)
  }

  ghost predicate DirAmong(fs: FileSystem, attempt: nat, step: nat, p: Text, names: seq<Text>, n: nat, d: Text)
    requires n <= |names|
  {
    exists k :: 0 <= k < n && d == Child(p, names[k]) && IsDir(fs.inspect(attempt, step, d), d)
  }

  /** Every name was pruned, listed as a file, or kept as a directory to visit. */
  ghost predicate Handled(fs: FileSystem, attempt: nat, step: nat, p: Text, names: seq<Text>, n: nat,
                          entries: seq<Entry>, dirs: seq<Text>)
    requires n <= |names|
  {
    forall k :: 0 <= k < n ==>
      NameHandled(fs, fs.inspect(attempt, step, Child(p, names[k])), Child(p, names[k]), entries, dirs)
  }

  ghost predicate NameHandled(fs: FileSystem, found: Inspection, rel: Text, entries: seq<Entry>, dirs: seq<Text>) {
    NeverSync(rel) || (IsDir(found, rel) && rel in dirs) || exists e :: e in entries && IsFile(fs, found, rel, e)
  }

  datatype Visit = VisitFailed(failure: Failure) | VisitAborted
    | Visited(entries: seq<Entry>, totalBytes: nat, childDirs: seq<Text>, dirty: bool)

  lemma AheadNext(s: seq<Text>, p: Text, names: seq<Text>, k: nat)
    requires NamesOk(names) && k < |names| && Ahead(s, p, names, k) && Within(s)
    ensures Within(s + [Child(p, names[k])]) && Ahead(s + [Child(p, names[k])], p, names, k + 1)
      && Ahead(s, p, names, k + 1)
  {
    hide Apart, Child;
    var c := Child(p, names[k]);
    forall j | k < j < |names| ensures AllApart(s + [c], Child(p, names[j])) {
      assert Itself(names[k]) != Itself(names[j]);
      SiblingsApart(p, names[k], names[j]);
      assert AllApart(s, Child(p, names[j]));
    }
    assert AllApart(s, c);
  }

  lemma BetweenGrows(s: seq<Text>, t: seq<Text>, c: Text)
    requires Between(s, t) && AllApart(s, c)
    ensures Between(s, t + [c])
  {
    hide Apart;
  }

  lemma NonEmptyGrows(s: seq<Text>, c: Text)
    requires NonEmptyAll(s) && c != []
    ensures NonEmptyAll(s + [c])
  {
  }

  lemma CollectedApart(fs: FileSystem, limits: Limits, entries: seq<Entry>, totalBytes: nat)
    requires Collected(fs, limits, entries, totalBytes)
    ensures Within(PathsOf(entries))
  {
  }

  lemma ApartSymmetric(a: Text, b: Text)
    requires Apart(a, b)
    ensures Apart(b, a)
  {
  }

  /** What is apart from the directory is apart from all its names; from the root,
      there is nothing else yet. */
  lemma AheadOfDirectory(s: seq<Text>, p: Text, names: seq<Text>)
    requires NamesOk(names) && if p == [] then s == [] else AllApart(s, p)
    ensures Ahead(s, p, names, 0)
  {
    forall k | 0 <= k < |names| ensures AllApart(s, Child(p, names[k])) {
      forall i | 0 <= i < |s| ensures Apart(s[i], Child(p, names[k])) { ChildApart(s[i], p, names[k]); }
    }
  }

  // ---- A directory that lets itself be scanned ----

  ghost predicate Listed(entries: seq<Entry>, files: seq<Entry>) { forall e :: e in entries ==> e in files }

  /** The files are few and small enough. */
  ghost predicate FilesFit(limits: Limits, files: seq<Entry>) {
    && |files| <= limits.maxEntries && TotalBytes(files) <= limits.maxTotalBytes
    && forall e :: e in files ==> e.size.Whole? && 0 <= e.size.n <= limits.fileMaxBytes
  }

  /** The path is pruned, or it is representable and a directory or one of the files. */
  ghost predicate FitsIn(fs: FileSystem, found: Inspection, rel: Text, files: seq<Entry>) {
    || NeverSync(rel)
    || (ValidatePath(rel).None? && found.Directory?)
    || (ValidatePath(rel).None? && ReadAsFound(found)
        && Entry(rel, fs.sha(found.reading.content), Whole(found.size)) in files)
  }

  ghost predicate CalmVisit(fs: FileSystem, limits: Limits, attempt: nat, step: nat, p: Text, names: seq<Text>,
                            files: seq<Entry>) {
    && FilesFit(Tight(limits), files) && (forall k: nat :: !fs.aborted(attempt, step, k))
    && forall k :: 0 <= k < |names| ==>
          FitsIn(fs, fs.inspect(attempt, step, Child(p, names[k])), Child(p, names[k]), files)
  }

  lemma {:induction false} TotalJoin(a: seq<Entry>, b: seq<Entry>)
    ensures TotalBytes(a + b) == TotalBytes(a) + TotalBytes(b)
  {
    if b == [] {
      assert a + b == a;
    } else {
      assert (a + b)[..|a + b| - 1] == a + b[..|b| - 1];
      TotalJoin(a, b[..|b| - 1]);
    }
  }

  /** Different entries that are all among the files are no more, and no larger, than they. */
  lemma {:induction false} SubsetBounds(a: seq<Entry>, b: seq<Entry>)
    requires Listed(a, b) && forall i, j :: 0 <= i < j < |a| ==> a[i] != a[j]
    ensures |a| <= |b| && TotalBytes(a) <= TotalBytes(b)
  {
    if a != [] {
      var less, x := a[..|a| - 1], a[|a| - 1];
      assert x in b;
      var k :| 0 <= k < |b| && b[k] == x;
      var left, right := b[..k], b[k + 1..];
      assert b == left + ([x] + right);
      forall e | e in less ensures e in left + right {
        assert e in a && e in b;
      }
      SubsetBounds(less, left + right);
      TotalJoin(left, right);
      TotalJoin(left, [x] + right);
      TotalJoin([x], right);
      assert [x][..0] == [];
      assert TotalBytes([x]) == Bytes(x);
    }
  }

  lemma ApartDiffer(entries: seq<Entry>)
    requires Within(PathsOf(entries))
    ensures forall i, j :: 0 <= i < j < |entries| ==> entries[i] != entries[j]
  {
    forall i, j | 0 <= i < j < |entries| ensures entries[i] != entries[j] {
      assert Apart(PathsOf(entries)[i], PathsOf(entries)[j]);
    }
  }

  /** The next name of such a directory is pruned, descended into or added. */
  lemma WillTake(fs: FileSystem, limits: Limits, attempt: nat, step: nat, p: Text, names: seq<Text>, i: nat,
                 entries: seq<Entry>, totalBytes: nat, files: seq<Entry>)
    requires i < |names| && CalmVisit(fs, limits, attempt, step, p, names, files) && Listed(entries, files)
    requires Collected(fs, limits, entries, totalBytes) && AllApart(PathsOf(entries), Child(p, names[i]))
    ensures
      var rel := Child(p, names[i]);
      Takes(fs, limits, fs.inspect(attempt, step, rel), rel, |entries|, totalBytes)
  {
    var rel := Child(p, names[i]);
    var found := fs.inspect(attempt, step, rel);
    hide NeverSync, ValidatePath, EntryFine, Child;
    assert FitsIn(fs, found, rel, files);
    if !NeverSync(rel) && ReadAsFound(found) {
      var e := Entry(rel, fs.sha(found.reading.content), Whole(found.size));
      if e in files {
        var more := entries + [e];
        hide Apart, FitsIn;
        assert PathsOf(more) == PathsOf(entries) + [rel];
        ApartDiffer(more);
        SubsetBounds(more, files);
        assert more[..|entries|] == entries;
      }
    }
  }

  lemma NotAborted(fs: FileSystem, limits: Limits, attempt: nat, step: nat, p: Text, names: seq<Text>,
                   files: seq<Entry>, k: nat)
    requires CalmVisit(fs, limits, attempt, step, p, names, files)
    ensures !fs.aborted(attempt, step, k)
  {
  }

  lemma CalmGoesOn(fs: FileSystem, limits: Limits, attempt: nat, step: nat, p: Text, names: seq<Text>, i: nat,
                   entries: seq<Entry>, files: seq<Entry>, one: Step)
    requires i < |names| && CalmVisit(fs, limits, attempt, step, p, names, files) && Listed(entries, files)
    requires var rel := Child(p, names[i]);
      one.Add? ==> one.entry.path == rel && IsFile(fs, fs.inspect(attempt, step, rel), rel, one.entry)
    ensures Listed(WithEntry(entries, one), files)
  {
    hide IsFile, FitsIn, Child;
    var rel := Child(p, names[i]);
    assert FitsIn(fs, fs.inspect(attempt, step, rel), rel, files);
    if one.Add? { AddedIsListed(fs, fs.inspect(attempt, step, rel), one.entry, files); }
  }

  lemma AddedIsListed(fs: FileSystem, found: Inspection, e: Entry, files: seq<Entry>)
    requires FitsIn(fs, found, e.path, files) && IsFile(fs, found, e.path, e)
    ensures e in files
  {
  }

  /** What a visit gives, as the walk needs it. */
  ghost predicate VisitGives(fs: FileSystem, limits: Limits, attempt: nat, step: nat, p: Text, names: seq<Text>,
                             before: seq<Entry>, rest: seq<Text>, visit: Visit) {
    && visit.Visited? && Collected(fs, limits, visit.entries, visit.totalBytes)
    && Within(visit.childDirs) && NonEmptyAll(visit.childDirs)
    && Between(PathsOf(visit.entries), rest) && Between(PathsOf(visit.entries), visit.childDirs)
    && Between(rest, visit.childDirs) && |visit.childDirs| <= |names|
    && Taken(fs, attempt, step, p, names, |names|, before, visit.entries, visit.childDirs)
    && (!visit.dirty ==> Handled(fs, attempt, step, p, names, |names|, visit.entries, visit.childDirs))
  }

  method VisitDirectory(fs: FileSystem, limits: Limits, attempt: nat, step: nat, p: Text, names: seq<Text>,
                        before: seq<Entry>,
                        bytesBefore: nat, ghost rest: seq<Text>, ghost files: seq<Entry>)
    returns (r: Visit)
    requires NamesOk(names) && Collected(fs, limits, before, bytesBefore) && Between(PathsOf(before), rest)
    requires if p == [] then before == [] && rest == [] else AllApart(PathsOf(before), p) && AllApart(rest, p)
    ensures r.Visited? ==> VisitGives(fs, limits, attempt, step, p, names, before, rest, r)
    ensures CalmVisit(fs, limits, attempt, step, p, names, files) && Listed(before, files) ==>
      r.Visited? && !r.dirty && Listed(r.entries, files)
  {
    ghost var calm := CalmVisit(fs, limits, attempt, step, p, names, files) && Listed(before, files);
    hide CalmVisit, Listed, Takes;
    hide Apart, Child, EntryFine, NamesOk, Collected, Within, Between, Ahead, NonEmptyAll, Taken, Handled, NeverSync,
         IsFile, IsDir;
    NothingTaken(fs, attempt, step, p, names, before);
    var entries, totalBytes, childDirs: seq<Text>, dirty := before, bytesBefore, [], false;
    AheadOfDirectory(PathsOf(before), p, names);
    AheadOfDirectory(rest, p, names);
    var i := 0;
    while i < |names|
      invariant 0 <= i <= |names| && |childDirs| <= i
      invariant Collected(fs, limits, entries, totalBytes) && Within(childDirs) && NonEmptyAll(childDirs)
      invariant Between(PathsOf(entries), rest) && Between(PathsOf(entries), childDirs) && Between(rest, childDirs)
      invariant Ahead(PathsOf(entries), p, names, i) && Ahead(childDirs, p, names, i) && Ahead(rest, p, names, i)
      invariant Taken(fs, attempt, step, p, names, i, before, entries, childDirs)
      invariant !dirty ==> Handled(fs, attempt, step, p, names, i, entries, childDirs)
      invariant calm ==> !dirty && Listed(entries, files)
    {
      if calm { NotAborted(fs, limits, attempt, step, p, names, files, i + 1); }
      if fs.aborted(attempt, step, i + 1) { return VisitAborted; }
      var relPath := Child(p, names[i]);
      if calm {
        AheadKeeps(PathsOf(entries), p, names, i);
        WillTake(fs, limits, attempt, step, p, names, i, entries, totalBytes, files);
      }
      var one := InspectName(fs, limits, attempt, step, relPath, |entries|, totalBytes);
      TakenMore(fs, attempt, step, p, names, i, before, entries, childDirs, one);
      CollectedApart(fs, limits, entries, totalBytes);
      AheadNext(PathsOf(entries), p, names, i);
      AheadNext(childDirs, p, names, i);
      AheadKeeps(PathsOf(entries), p, names, i);
      AheadKeeps(childDirs, p, names, i);
      AheadKeeps(rest, p, names, i);
      if calm { CalmGoesOn(fs, limits, attempt, step, p, names, i, entries, files, one); }
      match one {
        case Fail(failure) => return VisitFailed(failure);
        case Skip(d) => dirty := dirty || d;
        case Descend =>
          BetweenGrows(PathsOf(entries), childDirs, relPath);
          BetweenGrows(rest, childDirs, relPath);
          NonEmptyGrows(childDirs, relPath);
          childDirs := childDirs + [relPath];
        case Add(entry) =>
          AddEntry(fs, limits, entries, totalBytes, entry);
          EntryBetween(entries, entry, rest);
          EntryBetween(entries, entry, childDirs);
          entries := entries + [entry];
          totalBytes := totalBytes + entry.size.n;
      }
      i := i + 1;
    }
    return Visited(entries, totalBytes, childDirs, dirty);
  }

  lemma NothingTaken(fs: FileSystem, attempt: nat, step: nat, p: Text, names: seq<Text>, before: seq<Entry>)
    ensures Taken(fs, attempt, step, p, names, 0, before, before, [])
      && Handled(fs, attempt, step, p, names, 0, before, [])
    ensures Within([]) && NonEmptyAll([]) && Between(PathsOf(before), []) && Ahead([], p, names, 0)
    ensures forall rest :: Between(rest, [])
  {
  }

  function WithEntry(entries: seq<Entry>, one: Step): seq<Entry> { if one.Add? then entries + [one.entry] else entries }
  function WithDir(dirs: seq<Text>, rel: Text, one: Step): seq<Text> { if one.Descend? then dirs + [rel] else dirs }

  lemma TakenMore(fs: FileSystem, attempt: nat, step: nat, p: Text, names: seq<Text>, i: nat, before: seq<Entry>,
                  entries: seq<Entry>, childDirs: seq<Text>, one: Step)
    requires i < |names| && Taken(fs, attempt, step, p, names, i, before, entries, childDirs)
    requires var rel := Child(p, names[i]); var found := fs.inspect(attempt, step, rel);
      && (one.Descend? ==> IsDir(found, rel)) && (one.Add? ==> IsFile(fs, found, rel, one.entry))
            && (one == Skip(false) ==> NeverSync(rel))
    ensures Taken(fs, attempt, step, p, names, i + 1, before, WithEntry(entries, one),
                  WithDir(childDirs, Child(p, names[i]), one))
    ensures Handled(fs, attempt, step, p, names, i, entries, childDirs) && !one.Fail? && one != Skip(true) ==>
      Handled(fs, attempt, step, p, names, i + 1, WithEntry(entries, one), WithDir(childDirs, Child(p, names[i]), one))
  {
    hide NeverSync, IsFile, IsDir, Child;
    var rel := Child(p, names[i]);
    var es, ds := WithEntry(entries, one), WithDir(childDirs, rel, one);
    forall e | e in es ensures e in before || FileAmong(fs, attempt, step, p, names, i + 1, e) {
      if e in entries && e !in before { assert FileAmong(fs, attempt, step, p, names, i, e); }
    }
    forall d | d in ds ensures DirAmong(fs, attempt, step, p, names, i + 1, d) {
      if d in childDirs { assert DirAmong(fs, attempt, step, p, names, i, d); }
    }
    if Handled(fs, attempt, step, p, names, i, entries, childDirs) && !one.Fail? && one != Skip(true) {
      forall k | 0 <= k < i + 1
        ensures NameHandled(fs, fs.inspect(attempt, step, Child(p, names[k])), Child(p, names[k]), es, ds) {
        var r := Child(p, names[k]);
        if k < i {
          assert NameHandled(fs, fs.inspect(attempt, step, r), r, entries, childDirs);
        } else if one.Add? {
          assert one.entry in es && IsFile(fs, fs.inspect(attempt, step, r), r, one.entry);
        }
      }
    }
  }

  lemma AheadKeeps(s: seq<Text>, p: Text, names: seq<Text>, k: nat)
    requires k < |names| && Ahead(s, p, names, k)
    ensures AllApart(s, Child(p, names[k])) && Ahead(s, p, names, k + 1)
  {
  }

  lemma FineSize(fs: FileSystem, limits: Limits, e: Entry)
    requires EntryFine(fs, limits, e)
    ensures e.size.Whole? && e.size.n >= 0 && Bytes(e) == e.size.n
  {
    hide ValidatePath, NeverSync;
  }

  lemma AddEntry(fs: FileSystem, limits: Limits, entries: seq<Entry>, totalBytes: nat, e: Entry)
    requires Collected(fs, limits, entries, totalBytes) && EntryFine(fs, limits, e)
    requires |entries| < limits.maxEntries && totalBytes + Bytes(e) <= limits.maxTotalBytes
    requires Within(PathsOf(entries) + [e.path])
    ensures Collected(fs, limits, entries + [e], totalBytes + Bytes(e)) && Bytes(e) == e.size.n
    ensures PathsOf(entries + [e]) == PathsOf(entries) + [e.path]
  {
    hide Apart, EntryFine, Within, Bytes;
    FineSize(fs, limits, e);
    assert (entries + [e])[..|entries|] == entries;
    assert PathsOf(entries + [e]) == PathsOf(entries) + [e.path];
  }

  lemma EntryBetween(entries: seq<Entry>, e: Entry, t: seq<Text>)
    requires Between(PathsOf(entries), t) && AllApart(t, e.path)
    ensures Between(PathsOf(entries + [e]), t)
  {
    hide Apart;
    var s := PathsOf(entries + [e]);
    forall i, j | 0 <= i < |s| && 0 <= j < |t| ensures Apart(s[i], t[j]) {
      if i < |entries| { assert Apart(PathsOf(entries)[i], t[j]); } else { ApartSymmetric(t[j], e.path); }
    }
  }

  // ---- What a walk observes ----

  /** A directory listed at a step. */
  datatype Stop = Stop(dir: Text, step: nat)

  ghost predicate InListing(fs: FileSystem, attempt: nat, v: Stop, rel: Text) {
    var listing := fs.list(attempt, v.step, v.dir);
    listing.Names? && exists n :: n in listing.names && rel == Child(v.dir, n)
  }

  ghost predicate FoundFile(fs: FileSystem, attempt: nat, v: Stop, e: Entry) {
    InListing(fs, attempt, v, e.path) && IsFile(fs, fs.inspect(attempt, v.step, e.path), e.path, e)
  }

  ghost predicate FoundDir(fs: FileSystem, attempt: nat, v: Stop, d: Text) {
    InListing(fs, attempt, v, d) && IsDir(fs.inspect(attempt, v.step, d), d)
  }

  /** The root, or a directory found in one of these visits. */
  ghost predicate Rooted(fs: FileSystem, attempt: nat, visits: seq<Stop>, d: Text) {
    d == [] || exists j :: 0 <= j < |visits| && FoundDir(fs, attempt, visits[j], d)
  }

  ghost predicate InVisit(fs: FileSystem, attempt: nat, visits: seq<Stop>, e: Entry) {
    exists j :: 0 <= j < |visits| && FoundFile(fs, attempt, visits[j], e)
  }

  ghost predicate Visits(visits: seq<Stop>, d: Text) { exists i :: 0 <= i < |visits| && visits[i].dir == d }

  /** A directory is visited, or waits in `dirs`, because it was found before; an entry
      was found in a visited directory. */
  ghost predicate OnlyFound(fs: FileSystem, attempt: nat, visits: seq<Stop>, entries: seq<Entry>, dirs: seq<Text>) {
    && (forall i :: 0 <= i < |visits| ==> Rooted(fs, attempt, visits[..i], visits[i].dir))
    && (forall d :: d in dirs ==> Rooted(fs, attempt, visits, d))
    && (forall e :: e in entries ==> InVisit(fs, attempt, visits, e))
  }

  ghost predicate NameDone(fs: FileSystem, attempt: nat, v: Stop, rel: Text, visits: seq<Stop>, entries: seq<Entry>,
                           dirs: seq<Text>) {
    var found := fs.inspect(attempt, v.step, rel);
    || NeverSync(rel) || (IsDir(found, rel) && (rel in dirs || Visits(visits, rel)))
    || exists e :: e in entries && IsFile(fs, found, rel, e)
  }

  /** The root and whatever was listed is accounted for: pruned, collected, visited or
      still waiting. */
  ghost predicate AllFound(fs: FileSystem, attempt: nat, visits: seq<Stop>, entries: seq<Entry>, dirs: seq<Text>) {
    && ([] in dirs || Visits(visits, []))
    && (forall i, rel :: 0 <= i < |visits| && InListing(fs, attempt, visits[i], rel) ==>
        NameDone(fs, attempt, visits[i], rel, visits, entries, dirs))
  }

  /** The path is the directory's, or below it. */
  predicate Below(q: Text, d: Text) { d == [] || q == d || d + [SLASH] <= q }

  /** A re-check made once everything below the directory was visited found it unchanged. */
  ghost predicate UnchangedAt(fs: FileSystem, attempt: nat, visits: seq<Stop>, d: Text, step: nat) {
    && fs.recheck(attempt, step, d).Unchanged?
    && forall j :: 0 <= j < |visits| && Below(visits[j].dir, d) ==> visits[j].step < step
  }

  ghost predicate Confirmed(fs: FileSystem, attempt: nat, visits: seq<Stop>, d: Text) {
    exists step: nat :: UnchangedAt(fs, attempt, visits, d, step)
  }

  /** A finished walk: nothing waits, and every directory it visited was found unchanged
      after its subtree. */
  ghost predicate Observes(fs: FileSystem, attempt: nat, visits: seq<Stop>, entries: seq<Entry>) {
    && OnlyFound(fs, attempt, visits, entries, []) && AllFound(fs, attempt, visits, entries, [])
    && forall i :: 0 <= i < |visits| ==> Confirmed(fs, attempt, visits, visits[i].dir)
  }

  // ---- The re-checks ----

  /** Nothing of the directory's subtree waits. */
  ghost predicate Free(dirs: seq<Text>, d: Text) { forall q :: q in dirs ==> !Below(q, d) }

  /** The k-th frame re-checks the directory, and nothing of its subtree waits below it. */
  ghost predicate Guards(stack: seq<Frame>, k: nat, d: Text) {
    k < |stack| && stack[k] == Check(d) && Free(DirsOf(stack[..k]), d)
  }

  /** The directory's re-check is still to come, or it is done and its subtree too. */
  ghost predicate Checked(fs: FileSystem, attempt: nat, visits: seq<Stop>, stack: seq<Frame>, d: Text) {
    || (exists k: nat :: Guards(stack, k, d))
    || (Free(DirsOf(stack), d) && Confirmed(fs, attempt, visits, d))
  }

  /** Nothing that waits is a visited directory, or above one. */
  ghost predicate Onward(visits: seq<Stop>, dirs: seq<Text>) {
    forall i, q :: 0 <= i < |visits| && q in dirs ==> !Below(visits[i].dir, q)
  }

  ghost predicate AllChecked(fs: FileSystem, attempt: nat, visits: seq<Stop>, stack: seq<Frame>, step: nat) {
    && (forall i :: 0 <= i < |visits| ==> visits[i].step <= step)
    && (forall i :: 0 <= i < |visits| ==> Checked(fs, attempt, visits, stack, visits[i].dir))
    && Onward(visits, DirsOf(stack))
  }

  /** A re-check that found its directory unchanged. */
  lemma CheckDone(fs: FileSystem, attempt: nat, visits: seq<Stop>, rest: seq<Frame>, d: Text, step: nat)
    requires AllChecked(fs, attempt, visits, rest + [Check(d)], step) && fs.recheck(attempt, step + 1, d).Unchanged?
    ensures AllChecked(fs, attempt, visits, rest, step + 1)
  {
    hide Below;
    var stack := rest + [Check(d)];
    assert stack[..|rest|] == rest;
    assert DirsOf(stack) == DirsOf(rest);
    assert UnchangedAt(fs, attempt, visits, d, step + 1);
    hide DirsOf, UnchangedAt;
    forall i | 0 <= i < |visits| ensures Checked(fs, attempt, visits, rest, visits[i].dir) {
      var v := visits[i].dir;
      assert Checked(fs, attempt, visits, stack, v);
      if k: nat :| Guards(stack, k, v) {
        if k < |rest| {
          assert stack[..k] == rest[..k];
          assert Guards(rest, k, v);
        } else {
          assert v == d && Confirmed(fs, attempt, visits, d);
        }
      }
    }
  }

  /** A path below a child is below the directory; one above a child is the child itself or
      above the directory. */
  lemma BelowChild(q: Text, p: Text, name: Text)
    requires SLASH !in name && Child(p, name) != []
    ensures Below(Child(p, name), q) ==> Below(p, q) || q == Child(p, name)
    ensures Below(q, Child(p, name)) ==> Below(q, p)
    ensures !Below(p, Child(p, name))
  {
    var c := Child(p, name);
    if p != [] {
      AboveChild(q, p, name);
      if c + [SLASH] <= q { assert p + [SLASH] == (c + [SLASH])[..|p| + 1] == q[..|p| + 1]; }
      if q == c { assert p + [SLASH] <= c; }
    } else {
      SlashPrefix(q, name);
    }
  }

  lemma StillChecked(fs: FileSystem, attempt: nat, visits: seq<Stop>, rest: seq<Frame>, p: Text, step: nat,
                     names: seq<Text>, childDirs: seq<Text>, i: nat)
    requires AllChecked(fs, attempt, visits, rest + [Dir(p)], step) && i < |visits|
    requires NamesOk(names) && (forall d :: d in childDirs ==> IsChild(d, p, names))
    ensures Checked(fs, attempt, visits + [Stop(p, step + 1)], rest + ([Check(p)] + Pushed(childDirs)), visits[i].dir)
  {
    var before, next, all := rest + [Dir(p)], rest + ([Check(p)] + Pushed(childDirs)), visits + [Stop(p, step + 1)];
    var v := visits[i].dir;
    DirsBefore(before);
    assert before[..|rest|] == rest;
    DirsAfter(rest, p, childDirs);
    hide DirsOf, Pushed, Below, IsChild, NamesOk;
    assert Checked(fs, attempt, visits, before, v);
    if k: nat :| Guards(before, k, v) {
      assert k < |rest| && before[..k] == next[..k];
      assert Guards(next, k, v);
    } else {
      var s: nat :| UnchangedAt(fs, attempt, visits, v, s);
      assert UnchangedAt(fs, attempt, all, v, s);
      assert p in DirsOf(before) && !Below(p, v) && !Below(v, p);
      forall q | q in DirsOf(next) ensures !Below(q, v) {
        if q in childDirs { ChildOnward(p, names, q, v); } else { assert q in DirsOf(rest) && q in DirsOf(before); }
      }
    }
  }

  /** A visited directory: its re-check is pushed, then its child directories. */
  lemma VisitChecked(fs: FileSystem, attempt: nat, visits: seq<Stop>, rest: seq<Frame>, p: Text, step: nat,
                     names: seq<Text>, childDirs: seq<Text>)
    requires AllChecked(fs, attempt, visits, rest + [Dir(p)], step)
    requires NamesOk(names) && (forall d :: d in childDirs ==> IsChild(d, p, names)) && Free(DirsOf(rest), p)
    requires forall q :: q in DirsOf(rest) ==> !Below(p, q)
    ensures AllChecked(fs, attempt, visits + [Stop(p, step + 1)], rest + ([Check(p)] + Pushed(childDirs)), step + 1)
  {
    var next, all := rest + ([Check(p)] + Pushed(childDirs)), visits + [Stop(p, step + 1)];
    hide DirsOf, Pushed, Below, IsChild, NamesOk, Onward, Checked, Free;
    VisitOnward(visits, rest, p, step, names, childDirs);
    GuardPushed(fs, attempt, all, rest, p, Pushed(childDirs));
    forall i | 0 <= i < |all| ensures Checked(fs, attempt, all, next, all[i].dir) {
      if i < |visits| {
        assert all[i] == visits[i];
        StillChecked(fs, attempt, visits, rest, p, step, names, childDirs, i);
      }
    }
  }

  lemma GuardPushed(fs: FileSystem, attempt: nat, visits: seq<Stop>, rest: seq<Frame>, p: Text, above: seq<Frame>)
    requires Free(DirsOf(rest), p)
    ensures Checked(fs, attempt, visits, rest + ([Check(p)] + above), p)
  {
    var next := rest + ([Check(p)] + above);
    hide DirsOf, Free, Confirmed;
    assert next[..|rest|] == rest && next[|rest|] == Check(p);
    assert Guards(next, |rest|, p);
  }

  lemma VisitOnward(visits: seq<Stop>, rest: seq<Frame>, p: Text, step: nat, names: seq<Text>, childDirs: seq<Text>)
    requires Onward(visits, DirsOf(rest + [Dir(p)])) && forall q :: q in DirsOf(rest) ==> !Below(p, q)
    requires NamesOk(names) && forall d :: d in childDirs ==> IsChild(d, p, names)
    ensures Onward(visits + [Stop(p, step + 1)], DirsOf(rest + ([Check(p)] + Pushed(childDirs))))
  {
    var before, next, all := rest + [Dir(p)], rest + ([Check(p)] + Pushed(childDirs)), visits + [Stop(p, step + 1)];
    DirsBefore(before);
    assert before[..|rest|] == rest;
    DirsAfter(rest, p, childDirs);
    hide DirsOf, Pushed, Below, IsChild, NamesOk;
    forall i, q | 0 <= i < |all| && q in DirsOf(next) ensures !Below(all[i].dir, q) {
      if q in childDirs { ChildOnward(p, names, q, all[i].dir); }
      if i < |visits| {
        assert all[i] == visits[i] && p in DirsOf(before);
        assert q in DirsOf(rest) ==> q in DirsOf(before);
      } else {
        assert all[i].dir == p;
      }
    }
  }

  /** Nothing else that waits is the directory, above it or below it. */
  lemma AloneFree(entries: seq<Entry>, rest: seq<Frame>, p: Text)
    requires Alone(entries, rest, p)
    ensures Free(DirsOf(rest), p) && forall q :: q in DirsOf(rest) ==> !Below(p, q)
  {
  }

  lemma TakenChildren(fs: FileSystem, attempt: nat, step: nat, p: Text, names: seq<Text>, before: seq<Entry>,
                      visit: Visit)
    requires visit.Visited? && NonEmptyAll(visit.childDirs)
    requires Taken(fs, attempt, step, p, names, |names|, before, visit.entries, visit.childDirs)
    ensures forall d :: d in visit.childDirs ==> IsChild(d, p, names)
  {
    hide IsDir, Child, FileAmong;
    forall d | d in visit.childDirs ensures IsChild(d, p, names) {
      assert DirAmong(fs, attempt, step, p, names, |names|, d);
      var k :| 0 <= k < |names| && d == Child(p, names[k]);
      assert names[k] in names;
    }
  }

  lemma StartChecked(fs: FileSystem, attempt: nat)
    ensures AllChecked(fs, attempt, [], [Dir([])], 0)
  {
  }

  ghost predicate IsChild(d: Text, p: Text, names: seq<Text>) { exists n :: n in names && d == Child(p, n) && d != [] }

  lemma ChildOnward(p: Text, names: seq<Text>, c: Text, v: Text)
    requires NamesOk(names) && IsChild(c, p, names)
    ensures Below(v, c) ==> Below(v, p) && v != p
    ensures Below(c, v) ==> Below(p, v) || Below(v, p)
  {
    var n :| n in names && c == Child(p, n) && c != [];
    BelowChild(v, p, n);
    hide NamesOk;
    if v == c { assert Below(v, p); }
  }

  lemma StartFound(fs: FileSystem, attempt: nat)
    ensures OnlyFound(fs, attempt, [], [], DirsOf([Dir([])])) && AllFound(fs, attempt, [], [], DirsOf([Dir([])]))
  {
    assert [Dir([])][..0] == [];
    assert DirsOf([Dir([])]) == [[]];
  }

  /** Dropping what waits keeps the first half. */
  lemma FewerFound(fs: FileSystem, attempt: nat, visits: seq<Stop>, entries: seq<Entry>, dirs: seq<Text>,
                   fewer: seq<Text>)
    requires OnlyFound(fs, attempt, visits, entries, dirs) && forall d :: d in fewer ==> d in dirs
    ensures OnlyFound(fs, attempt, visits, entries, fewer)
  {
    hide Rooted, InVisit;
  }

  lemma SameFound(fs: FileSystem, attempt: nat, visits: seq<Stop>, entries: seq<Entry>, dirs: seq<Text>,
                  same: seq<Text>)
    requires AllFound(fs, attempt, visits, entries, dirs) && forall d :: d in same <==> d in dirs
    ensures AllFound(fs, attempt, visits, entries, same)
  {
    hide InListing, NeverSync, IsDir, IsFile, Visits;
    forall i, rel | 0 <= i < |visits| && InListing(fs, attempt, visits[i], rel)
      ensures NameDone(fs, attempt, visits[i], rel, visits, entries, same)
    {
      assert NameDone(fs, attempt, visits[i], rel, visits, entries, dirs);
    }
  }

  lemma VisitOnlyFound(fs: FileSystem, attempt: nat, visits: seq<Stop>, before: seq<Entry>, dirs: seq<Text>, p: Text,
                       step: nat,
                       names: seq<Text>, entries: seq<Entry>, childDirs: seq<Text>, after: seq<Text>)
    requires OnlyFound(fs, attempt, visits, before, dirs) && p in dirs
    requires fs.list(attempt, step, p).Names? && forall n :: n in names ==> n in fs.list(attempt, step, p).names
    requires Taken(fs, attempt, step, p, names, |names|, before, entries, childDirs)
    requires forall d :: d in after ==> d in dirs || d in childDirs
    ensures OnlyFound(fs, attempt, visits + [Stop(p, step)], entries, after)
  {
    hide IsFile, IsDir, Child, NeverSync;
    var all, v := visits + [Stop(p, step)], Stop(p, step);
    forall i | 0 <= i < |all| ensures Rooted(fs, attempt, all[..i], all[i].dir) {
      if i < |visits| { assert all[..i] == visits[..i]; } else { assert all[..i] == visits; }
    }
    assert all[|visits|] == v && forall j :: 0 <= j < |visits| ==> all[j] == visits[j];
    forall d | d in after ensures Rooted(fs, attempt, all, d) {
      if d in dirs {
        if d != [] {
          var j :| 0 <= j < |visits| && FoundDir(fs, attempt, visits[j], d);
          assert FoundDir(fs, attempt, all[j], d);
        }
      } else {
        assert DirAmong(fs, attempt, step, p, names, |names|, d);
        assert FoundDir(fs, attempt, all[|visits|], d);
      }
    }
    forall e | e in entries ensures InVisit(fs, attempt, all, e) {
      if e in before {
        var j :| 0 <= j < |visits| && FoundFile(fs, attempt, visits[j], e);
        assert FoundFile(fs, attempt, all[j], e);
      } else {
        FileFound(fs, attempt, step, p, names, e);
        assert FoundFile(fs, attempt, all[|visits|], e);
      }
    }
  }

  lemma FileFound(fs: FileSystem, attempt: nat, step: nat, p: Text, names: seq<Text>, e: Entry)
    requires FileAmong(fs, attempt, step, p, names, |names|, e)
    requires fs.list(attempt, step, p).Names? && forall n :: n in names ==> n in fs.list(attempt, step, p).names
    ensures FoundFile(fs, attempt, Stop(p, step), e)
  {
    hide NeverSync, Child;
    var k :| 0 <= k < |names| && IsFile(fs, fs.inspect(attempt, step, Child(p, names[k])), Child(p, names[k]), e);
    assert names[k] in fs.list(attempt, step, p).names;
  }

  lemma VisitAllFound(fs: FileSystem, attempt: nat, visits: seq<Stop>, before: seq<Entry>, dirs: seq<Text>, p: Text,
                      step: nat,
                      names: seq<Text>, entries: seq<Entry>, childDirs: seq<Text>, after: seq<Text>)
    requires AllFound(fs, attempt, visits, before, dirs) && forall e :: e in before ==> e in entries
    requires fs.list(attempt, step, p).Names? && forall n :: n in fs.list(attempt, step, p).names ==> n in names
    requires Handled(fs, attempt, step, p, names, |names|, entries, childDirs)
    requires forall d :: d in dirs ==> d == p || d in after
    requires forall d :: d in childDirs ==> d in after
    ensures AllFound(fs, attempt, visits + [Stop(p, step)], entries, after)
  {
    hide IsFile, IsDir, Child, NeverSync;
    var all, v := visits + [Stop(p, step)], Stop(p, step);
    assert all[|visits|] == v && forall j :: 0 <= j < |visits| ==> all[j] == visits[j];
    assert Visits(all, p);
    forall d | Visits(visits, d) ensures Visits(all, d) {
      var i :| 0 <= i < |visits| && visits[i].dir == d;
      assert all[i].dir == d;
    }
    forall i, rel | 0 <= i < |all| && InListing(fs, attempt, all[i], rel)
      ensures NameDone(fs, attempt, all[i], rel, all, entries, after) {
      if i < |visits| {
        assert NameDone(fs, attempt, visits[i], rel, visits, before, dirs);
      } else {
        var n :| n in fs.list(attempt, step, p).names && rel == Child(p, n);
        var k :| 0 <= k < |names| && names[k] == n;
        assert NameHandled(fs, fs.inspect(attempt, step, Child(p, names[k])), Child(p, names[k]), entries, childDirs);
      }
    }
  }

  lemma DirsAfter(rest: seq<Frame>, p: Text, childDirs: seq<Text>)
    ensures forall d :: d in DirsOf(rest + ([Check(p)] + Pushed(childDirs))) <==> d in DirsOf(rest) || d in childDirs
  {
    PushedFrames(rest, p, childDirs);
    PushedDirs(childDirs);
    var r := DirsOf(Pushed(childDirs));
    forall d | d in childDirs ensures d in r {
      var i :| 0 <= i < |childDirs| && childDirs[i] == d;
      assert r[|childDirs| - 1 - i] == d;
    }
    forall d | d in r ensures d in childDirs {
      var i :| 0 <= i < |r| && r[i] == d;
      assert childDirs[|childDirs| - 1 - i] == d;
    }
  }

  lemma DirsBefore(stack: seq<Frame>)
    requires stack != []
    ensures
      var frame, rest := stack[|stack| - 1], stack[..|stack| - 1];
      forall d :: d in DirsOf(stack) <==> d in DirsOf(rest) || (frame.Dir? && d == frame.prefix)
  {
  }

  // ---- A tree that does not change ----

  /** What every call is answered, whenever it is made. */
  datatype Tree = Tree(list: Text -> Listing, inspect: Text -> Inspection)

  ghost predicate Steady(fs: FileSystem, t: Tree) {
    forall a: nat, s: nat, p: Text :: fs.list(a, s, p) == t.list(p) && fs.inspect(a, s, p) == t.inspect(p)
  }

  ghost predicate Lists(t: Tree, p: Text, rel: Text) {
    t.list(p).Names? && exists n :: n in t.list(p).names && rel == Child(p, n)
  }

  /** Directories reached from the root through directories that may be synced. */
  ghost predicate Reach(t: Tree, d: Text, depth: nat)
    decreases depth
  {
    if depth == 0 then d == [] else exists p :: Reach(t, p, depth - 1) && Lists(t, p, d) && IsDir(t.inspect(d), d)
  }

  /** A file of the tree that may be synced, in a directory that is reached. */
  ghost predicate TreeHolds(fs: FileSystem, t: Tree, e: Entry) {
    exists p, depth: nat :: Reach(t, p, depth) && Lists(t, p, e.path) && IsFile(fs, t.inspect(e.path), e.path, e)
  }

  lemma {:induction false} VisitedIsReached(fs: FileSystem, t: Tree, attempt: nat, visits: seq<Stop>,
                                            entries: seq<Entry>, i: nat) returns (depth: nat)
    requires Steady(fs, t) && OnlyFound(fs, attempt, visits, entries, []) && i < |visits|
    ensures Reach(t, visits[i].dir, depth)
    decreases i
  {
    hide IsDir, Child;
    assert Rooted(fs, attempt, visits[..i], visits[i].dir);
    if visits[i].dir == [] {
      depth := 0;
    } else {
      var j :| 0 <= j < i && FoundDir(fs, attempt, visits[..i][j], visits[i].dir);
      var above := VisitedIsReached(fs, t, attempt, visits, entries, j);
      assert Lists(t, visits[j].dir, visits[i].dir);
      depth := above + 1;
    }
  }

  lemma {:induction false} ReachedIsVisited(fs: FileSystem, t: Tree, attempt: nat, visits: seq<Stop>,
                                            entries: seq<Entry>, d: Text, depth: nat)
    requires Steady(fs, t) && AllFound(fs, attempt, visits, entries, []) && Reach(t, d, depth)
    ensures Visits(visits, d)
    decreases depth
  {
    hide Child, NeverSync;
    if depth > 0 {
      var p :| Reach(t, p, depth - 1) && Lists(t, p, d) && IsDir(t.inspect(d), d);
      ReachedIsVisited(fs, t, attempt, visits, entries, p, depth - 1);
      var i :| 0 <= i < |visits| && visits[i].dir == p;
      assert InListing(fs, attempt, visits[i], d);
      assert NameDone(fs, attempt, visits[i], d, visits, entries, []);
    }
  }

  /** A finished walk over a tree that does not change lists exactly the files of the
      tree that may be synced, with the hashes and sizes they have. */
  lemma SteadyWalkIsExact(fs: FileSystem, t: Tree, attempt: nat, visits: seq<Stop>, entries: seq<Entry>, e: Entry)
    requires Steady(fs, t) && Observes(fs, attempt, visits, entries)
    ensures e in entries <==> TreeHolds(fs, t, e)
  {
    hide Child, NeverSync, Confirmed, IsFile, IsDir;
    if e in entries {
      assert InVisit(fs, attempt, visits, e);
      var j :| 0 <= j < |visits| && FoundFile(fs, attempt, visits[j], e);
      var depth := VisitedIsReached(fs, t, attempt, visits, entries, j);
      assert Reach(t, visits[j].dir, depth) && Lists(t, visits[j].dir, e.path);
    }
    if TreeHolds(fs, t, e) {
      var p, depth: nat :| Reach(t, p, depth) && Lists(t, p, e.path) && IsFile(fs, t.inspect(e.path), e.path, e);
      ReachedIsVisited(fs, t, attempt, visits, entries, p, depth);
      var i :| 0 <= i < |visits| && visits[i].dir == p;
      assert InListing(fs, attempt, visits[i], e.path);
      assert NameDone(fs, attempt, visits[i], e.path, visits, entries, []);
      OneEntry(fs, t.inspect(e.path), e);
    }
  }

  /** A file that may be synced is not a directory, and has one entry. */
  lemma OneEntry(fs: FileSystem, found: Inspection, e: Entry)
    requires IsFile(fs, found, e.path, e)
    ensures !NeverSync(e.path) && !IsDir(found, e.path)
    ensures forall x :: IsFile(fs, found, e.path, x) ==> x == e
  {
  }

  // ---- A tree that lets itself be scanned ----

  /** A tree, a bound on the paths its directories list, and the files to be synced. */
  datatype Calm = Calm(tree: Tree, all: set<Text>, files: seq<Entry>)

  ghost predicate Reached(t: Tree, d: Text) { exists depth: nat :: Reach(t, d, depth) }

  ghost predicate SteadyAt(fs: FileSystem, t: Tree, attempt: nat) {
    forall s: nat, p: Text :: fs.list(attempt, s, p) == t.list(p) && fs.inspect(attempt, s, p) == t.inspect(p)
  }

  /** No signal is raised in the attempt, and no directory changes. */
  ghost predicate Undisturbed(fs: FileSystem, attempt: nat) {
    && fs.root(attempt).Directory? && (forall s: nat, k: nat :: !fs.aborted(attempt, s, k))
    && forall s: nat, p: Text :: fs.recheck(attempt, s, p).Unchanged?
  }

  ghost predicate DirCalm(fs: FileSystem, c: Calm, p: Text) {
    && c.tree.list(p).Names?
    && forall n :: n in c.tree.list(p).names ==>
         Child(p, n) in c.all && FitsIn(fs, c.tree.inspect(Child(p, n)), Child(p, n), c.files)
  }

  ghost predicate IsCalm(fs: FileSystem, limits: Limits, attempt: nat, c: Calm) {
    && Undisturbed(fs, attempt) && SteadyAt(fs, c.tree, attempt)
    && FilesFit(Tight(limits), c.files) && |c.all| <= limits.maxVisited
    && forall p :: Reached(c.tree, p) ==> DirCalm(fs, c, p)
  }

  /** In this attempt the tree does not change, and everything a scan meets in it is pruned,
      a directory, or a file that can be read; all of it within the limits. */
  ghost predicate CalmAt(fs: FileSystem, limits: Limits, attempt: nat) { exists c :: IsCalm(fs, limits, attempt, c) }

  /** A path listed in a visited directory. */
  ghost predicate InSome(visits: seq<Stop>, l: Text) {
    exists i, n :: 0 <= i < |visits| && SLASH !in n && l == Child(visits[i].dir, n)
  }

  /** Only the tree's own directories wait, only its files are collected, and every path
      listed so far counts once. */
  ghost predicate CalmSoFar(c: Calm, visits: seq<Stop>, entries: seq<Entry>, dirs: seq<Text>, listed: set<Text>,
                            visited: nat) {
    && (forall q :: q in dirs ==> Reached(c.tree, q)) && Listed(entries, c.files)
    && listed <= c.all && |listed| == visited && forall l :: l in listed ==> InSome(visits, l)
  }

  lemma CalmStart(c: Calm)
    ensures CalmSoFar(c, [], [], DirsOf([Dir([])]), {}, 0)
  {
    assert [Dir([])][..0] == [];
    assert DirsOf([Dir([])]) == [[]];
    assert Reach(c.tree, [], 0);
  }

  lemma ChildParent(p: Text, q: Text, n: Text, m: Text)
    requires SLASH !in n && SLASH !in m && Child(p, n) == Child(q, m)
    ensures p == q && n == m
  {
    var c := Child(p, n);
    if p != [] { assert c[|p|] == SLASH && forall i :: |p| < i < |c| ==> c[i] == n[i - |p| - 1]; }
    if q != [] { assert c[|q|] == SLASH && forall i :: |q| < i < |c| ==> c[i] == m[i - |q| - 1]; }
    if p != [] && q != [] {
      assert |p| == |q|;
      assert p == c[..|p|] == q;
      assert n == c[|p| + 1..] == m;
    }
  }

  function PathsIn(p: Text, names: seq<Text>): set<Text> { set k | 0 <= k < |names| :: Child(p, names[k]) }

  lemma PathsInGrow(p: Text, names: seq<Text>)
    requires names != []
    ensures PathsIn(p, names) == PathsIn(p, names[..|names| - 1]) + {Child(p, names[|names| - 1])}
  {
    hide Child;
    var less, last := names[..|names| - 1], names[|names| - 1];
    forall c | c in PathsIn(p, names) ensures c in PathsIn(p, less) + {Child(p, last)} {
      var k :| 0 <= k < |names| && c == Child(p, names[k]);
      if k < |less| { assert c == Child(p, less[k]); }
    }
    forall c | c in PathsIn(p, less) ensures c in PathsIn(p, names) {
      var k :| 0 <= k < |less| && c == Child(p, less[k]);
      assert c == Child(p, names[k]);
    }
    assert Child(p, last) == Child(p, names[|less|]);
  }

  lemma NotAmong(p: Text, names: seq<Text>)
    requires NamesOk(names) && names != []
    ensures Child(p, names[|names| - 1]) !in PathsIn(p, names[..|names| - 1]) && NamesOk(names[..|names| - 1])
  {
    var less, last := names[..|names| - 1], names[|names| - 1];
    forall k | 0 <= k < |less| ensures Child(p, less[k]) != Child(p, last) {
      assert Itself(names[k]) != Itself(last);
      if Child(p, less[k]) == Child(p, last) { ChildParent(p, p, less[k], last); }
    }
  }

  lemma OneMore(a: set<Text>, x: Text)
    requires x !in a
    ensures |a + {x}| == |a| + 1
  {
  }

  lemma {:induction false} PathsInCount(p: Text, names: seq<Text>)
    requires NamesOk(names)
    ensures |PathsIn(p, names)| == |names|
  {
    if names == [] {
      assert PathsIn(p, names) == {};
    } else {
      var less, last := names[..|names| - 1], names[|names| - 1];
      hide PathsIn, Child, NamesOk;
      NotAmong(p, names);
      PathsInCount(p, less);
      PathsInGrow(p, names);
      OneMore(PathsIn(p, less), Child(p, last));
    }
  }

  /** The names of a directory that is visited now were not listed before. */
  lemma NewlyListed(visits: seq<Stop>, p: Text, names: seq<Text>, listed: set<Text>)
    requires NamesOk(names) && (forall l :: l in listed ==> InSome(visits, l))
    requires forall i :: 0 <= i < |visits| ==> visits[i].dir != p
    ensures |listed + PathsIn(p, names)| == |listed| + |names|
  {
    PathsInCount(p, names);
    forall c | c in PathsIn(p, names) ensures c !in listed {
      var k :| 0 <= k < |names| && c == Child(p, names[k]);
      if c in listed {
        var i, n :| 0 <= i < |visits| && SLASH !in n && c == Child(visits[i].dir, n);
        ChildParent(p, visits[i].dir, names[k], n);
      }
    }
    assert |listed + PathsIn(p, names)| == |listed| + |PathsIn(p, names)| - |listed * PathsIn(p, names)|;
    assert listed * PathsIn(p, names) == {};
  }

  /** Such a directory can be listed. */
  lemma CalmLists(fs: FileSystem, limits: Limits, attempt: nat, step: nat, c: Calm, p: Text)
    requires IsCalm(fs, limits, attempt, c) && Reached(c.tree, p)
    ensures fs.list(attempt, step, p).Names? && fs.list(attempt, step, p) == c.tree.list(p)
  {
    assert DirCalm(fs, c, p);
  }

  /** And it can be visited. */
  lemma CalmFits(fs: FileSystem, limits: Limits, attempt: nat, step: nat, c: Calm, visits: seq<Stop>, p: Text,
                 names: seq<Text>, listed: set<Text>)
    requires IsCalm(fs, limits, attempt, c) && Reached(c.tree, p) && NamesOk(names)
    requires c.tree.list(p).Names? && forall n :: n in names ==> n in c.tree.list(p).names
    requires listed <= c.all && (forall l :: l in listed ==> InSome(visits, l))
    requires forall i :: 0 <= i < |visits| ==> visits[i].dir != p
    ensures CalmVisit(fs, limits, attempt, step, p, names, c.files)
    ensures |listed + PathsIn(p, names)| == |listed| + |names| <= limits.maxVisited
  {
    assert DirCalm(fs, c, p);
    assert |c.all| <= limits.maxVisited;
    NamesFit(fs, limits, attempt, step, c, p, names);
    InAll(fs, c, p, names);
    hide IsCalm, FitsIn, Child, FilesFit, NamesOk, Reached, CalmVisit, DirCalm, PathsIn;
    NewlyListed(visits, p, names, listed);
    FewerElements(listed + PathsIn(p, names), c.all);
  }

  lemma FewerElements(a: set<Text>, b: set<Text>)
    requires a <= b
    ensures |a| <= |b|
  {
    assert b == a + (b - a);
  }

  lemma InAll(fs: FileSystem, c: Calm, p: Text, names: seq<Text>)
    requires DirCalm(fs, c, p) && forall n :: n in names ==> n in c.tree.list(p).names
    ensures PathsIn(p, names) <= c.all
  {
    hide FitsIn, Child;
  }

  lemma NamesFit(fs: FileSystem, limits: Limits, attempt: nat, step: nat, c: Calm, p: Text, names: seq<Text>)
    requires IsCalm(fs, limits, attempt, c) && DirCalm(fs, c, p)
    requires forall n :: n in names ==> n in c.tree.list(p).names
    ensures CalmVisit(fs, limits, attempt, step, p, names, c.files)
  {
    hide FitsIn, Child, FilesFit, Reached;
    forall k | 0 <= k < |names|
      ensures FitsIn(fs, fs.inspect(attempt, step, Child(p, names[k])), Child(p, names[k]), c.files)
    {
      assert names[k] in c.tree.list(p).names;
    }
  }

  /** After the visit. */
  lemma CalmVisited(fs: FileSystem, limits: Limits, attempt: nat, step: nat, c: Calm, visits: seq<Stop>,
                    entries: seq<Entry>, rest: seq<Frame>, listed: set<Text>, visited: nat, p: Text,
                    names: seq<Text>, visit: Visit)
    requires IsCalm(fs, limits, attempt, c) && visit.Visited? && Listed(visit.entries, c.files)
    requires CalmSoFar(c, visits, entries, DirsOf(rest + [Dir(p)]), listed, visited) && NamesOk(names)
    requires c.tree.list(p).Names? && forall n :: n in names ==> n in c.tree.list(p).names
    requires Taken(fs, attempt, step, p, names, |names|, entries, visit.entries, visit.childDirs)
    requires |listed + PathsIn(p, names)| == visited + |names|
    ensures CalmSoFar(c, visits + [Stop(p, step)], visit.entries, DirsOf(rest + ([Check(p)] + Pushed(visit.childDirs))),
                      listed + PathsIn(p, names), visited + |names|)
  {
    var next, all := rest + ([Check(p)] + Pushed(visit.childDirs)), visits + [Stop(p, step)];
    DirsBefore(rest + [Dir(p)]);
    assert (rest + [Dir(p)])[..|rest|] == rest;
    DirsAfter(rest, p, visit.childDirs);
    assert Reached(c.tree, p) by { assert p in DirsOf(rest + [Dir(p)]); }
    assert DirCalm(fs, c, p);
    InAll(fs, c, p, names);
    hide DirsOf, Pushed, NeverSync, Listed, FilesFit, FitsIn;
    forall q | q in DirsOf(next) ensures Reached(c.tree, q) {
      if q in visit.childDirs { ChildReached(fs, attempt, step, c.tree, p, names, q); }
    }
    forall l | l in listed + PathsIn(p, names) ensures InSome(all, l) {
      if l in listed {
        var i, n :| 0 <= i < |visits| && SLASH !in n && l == Child(visits[i].dir, n);
        assert all[i] == visits[i];
      } else {
        var k :| 0 <= k < |names| && l == Child(p, names[k]);
        assert all[|visits|].dir == p;
      }
    }
  }

  lemma ChildReached(fs: FileSystem, attempt: nat, step: nat, t: Tree, p: Text, names: seq<Text>, d: Text)
    requires SteadyAt(fs, t, attempt) && Reached(t, p) && t.list(p).Names?
    requires (forall n :: n in names ==> n in t.list(p).names) && DirAmong(fs, attempt, step, p, names, |names|, d)
    ensures Reached(t, d)
  {
    hide NeverSync, Child;
    var depth: nat :| Reach(t, p, depth);
    var k :| 0 <= k < |names| && d == Child(p, names[k]) && IsDir(fs.inspect(attempt, step, d), d);
    assert names[k] in t.list(p).names && Lists(t, p, d);
    assert Reach(t, d, depth + 1);
  }

  lemma FewerCalm(c: Calm, visits: seq<Stop>, entries: seq<Entry>, dirs: seq<Text>, fewer: seq<Text>, listed: set<Text>,
                  visited: nat)
    requires CalmSoFar(c, visits, entries, dirs, listed, visited) && forall q :: q in fewer ==> q in dirs
    ensures CalmSoFar(c, visits, entries, fewer, listed, visited)
  {
    hide Reached, Listed, InSome;
  }

  /** A calm walk's entries are within the shared policy's limits too. */
  lemma CalmCollected(fs: FileSystem, limits: Limits, entries: seq<Entry>, totalBytes: nat, files: seq<Entry>)
    requires Collected(fs, limits, entries, totalBytes) && Listed(entries, files) && FilesFit(Tight(limits), files)
    ensures Collected(fs, Tight(limits), entries, totalBytes)
  {
    ApartDiffer(entries);
    SubsetBounds(entries, files);
    hide Within, NeverSync, ValidatePath;
    forall i | 0 <= i < |entries| ensures EntryFine(fs, Tight(limits), entries[i]) {
      assert entries[i] in files;
    }
  }

  ghost predicate WasCollected(fs: FileSystem, limits: Limits, entries: seq<Entry>) {
    exists total :: Collected(fs, limits, entries, total)
  }

  ghost predicate WasObserved(fs: FileSystem, attempt: nat, entries: seq<Entry>) {
    exists visits :: Observes(fs, attempt, visits, entries)
  }

  lemma CalmIf(fs: FileSystem, limits: Limits, attempt: nat) returns (c: Option<Calm>)
    ensures c.Some? <==> CalmAt(fs, limits, attempt)
    ensures c.Some? ==>
      && IsCalm(fs, limits, attempt, c.value) && fs.root(attempt).Directory?
      && (forall s: nat, k: nat :: !fs.aborted(attempt, s, k))
      && forall s: nat, p: Text :: fs.recheck(attempt, s, p).Unchanged?
  {
    if CalmAt(fs, limits, attempt) {
      var calm :| IsCalm(fs, limits, attempt, calm);
      CalmSignals(fs, limits, attempt, calm);
      return Some(calm);
    }
    return None;
  }

  lemma CalmSignals(fs: FileSystem, limits: Limits, attempt: nat, c: Calm)
    requires IsCalm(fs, limits, attempt, c)
    ensures fs.root(attempt).Directory? && forall s: nat, k: nat :: !fs.aborted(attempt, s, k)
    ensures forall s: nat, p: Text :: fs.recheck(attempt, s, p).Unchanged?
  {
  }

  lemma PoppedCalm(c: Calm, visits: seq<Stop>, entries: seq<Entry>, stack: seq<Frame>, listed: set<Text>, visited: nat)
    requires stack != [] && CalmSoFar(c, visits, entries, DirsOf(stack), listed, visited)
    ensures CalmSoFar(c, visits, entries, DirsOf(stack[..|stack| - 1]), listed, visited)
  {
    DirsBefore(stack);
    FewerCalm(c, visits, entries, DirsOf(stack), DirsOf(stack[..|stack| - 1]), listed, visited);
    hide CalmSoFar;
  }

  /** The directory on top of the stack can be listed. */
  lemma TopLists(fs: FileSystem, limits: Limits, attempt: nat, step: nat, c: Calm, visits: seq<Stop>,
                 entries: seq<Entry>, rest: seq<Frame>, p: Text, listed: set<Text>, visited: nat)
    requires IsCalm(fs, limits, attempt, c)
    requires CalmSoFar(c, visits, entries, DirsOf(rest + [Dir(p)]), listed, visited)
    ensures fs.list(attempt, step, p).Names? && fs.list(attempt, step, p) == c.tree.list(p) && Listed(entries, c.files)
  {
    DirsBefore(rest + [Dir(p)]);
    hide IsCalm, DirsOf, Reached, Listed;
    assert p in DirsOf(rest + [Dir(p)]);
    CalmLists(fs, limits, attempt, step, c, p);
  }

  lemma TopFits(fs: FileSystem, limits: Limits, attempt: nat, step: nat, c: Calm, visits: seq<Stop>,
                entries: seq<Entry>, rest: seq<Frame>, p: Text, listed: set<Text>, visited: nat, names: seq<Text>)
    requires IsCalm(fs, limits, attempt, c) && NamesOk(names)
    requires CalmSoFar(c, visits, entries, DirsOf(rest + [Dir(p)]), listed, visited)
    requires AllChecked(fs, attempt, visits, rest + [Dir(p)], step)
    requires c.tree.list(p).Names? && forall n :: n in names ==> n in c.tree.list(p).names
    ensures CalmVisit(fs, limits, attempt, step + 1, p, names, c.files)
    ensures |listed + PathsIn(p, names)| == visited + |names| <= limits.maxVisited
  {
    DirsBefore(rest + [Dir(p)]);
    hide IsCalm, DirsOf, Reached, Listed, NamesOk, CalmVisit, PathsIn, Checked;
    assert p in DirsOf(rest + [Dir(p)]);
    forall i | 0 <= i < |visits| ensures visits[i].dir != p { assert !Below(visits[i].dir, p); }
    CalmFits(fs, limits, attempt, step + 1, c, visits, p, names, listed);
  }

  lemma CalmFinished(fs: FileSystem, limits: Limits, attempt: nat, c: Calm, visits: seq<Stop>, entries: seq<Entry>,
                     totalBytes: nat, listed: set<Text>, visited: nat)
    requires IsCalm(fs, limits, attempt, c) && CalmSoFar(c, visits, entries, DirsOf([]), listed, visited)
    requires Collected(fs, limits, entries, totalBytes)
    ensures Collected(fs, Tight(limits), entries, totalBytes)
  {
    hide Collected, Listed, FilesFit, Tight;
    CalmCollected(fs, limits, entries, totalBytes, c.files);
  }

  // ---- The loop's account ----

  /** What the walk has seen: its visits, and every path it listed. */
  datatype Trace = Trace(visits: seq<Stop>, listed: set<Text>)

  /** What the walk has in hand. */
  datatype Hand = Hand(entries: seq<Entry>, totalBytes: nat, dirty: bool, visited: nat, step: nat)

  ghost predicate Accounted(fs: FileSystem, limits: Limits, attempt: nat, tr: Trace, h: Hand, stack: seq<Frame>) {
    && Collected(fs, limits, h.entries, h.totalBytes) && Frontier(h.entries, stack) && h.visited <= limits.maxVisited
    && OnlyFound(fs, attempt, tr.visits, h.entries, DirsOf(stack))
    && (!h.dirty ==> AllFound(fs, attempt, tr.visits, h.entries, DirsOf(stack)))
    && (!h.dirty ==> AllChecked(fs, attempt, tr.visits, stack, h.step))
  }

  ghost predicate OnCourse(fs: FileSystem, limits: Limits, attempt: nat, c: Option<Calm>, tr: Trace, h: Hand,
                           dirs: seq<Text>) {
    c.Some? ==>
      && IsCalm(fs, limits, attempt, c.value) && !h.dirty
      && CalmSoFar(c.value, tr.visits, h.entries, dirs, tr.listed, h.visited)
  }

  ghost predicate Going(fs: FileSystem, limits: Limits, attempt: nat, c: Option<Calm>, tr: Trace, h: Hand,
                        stack: seq<Frame>) {
    Accounted(fs, limits, attempt, tr, h, stack) && OnCourse(fs, limits, attempt, c, tr, h, DirsOf(stack))
  }

  lemma GoingStarts(fs: FileSystem, limits: Limits, attempt: nat, c: Option<Calm>)
    requires c.Some? ==> IsCalm(fs, limits, attempt, c.value)
    ensures Going(fs, limits, attempt, c, Trace([], {}), Hand([], 0, false, 0, 0), [Dir([])])
  {
    hide IsCalm, CalmSoFar, Collected, Frontier, OnlyFound, AllFound, AllChecked, DirsOf;
    RootFrontier(fs, limits);
    StartFound(fs, attempt);
    StartChecked(fs, attempt);
    if c.Some? { CalmStart(c.value); }
  }

  /** The account of the frames below the top one. */
  lemma BelowTop(fs: FileSystem, limits: Limits, attempt: nat, c: Option<Calm>, tr: Trace, h: Hand, rest: seq<Frame>,
                 top: Frame)
    requires Going(fs, limits, attempt, c, tr, h, rest + [top])
    ensures Frontier(h.entries, rest) && OnlyFound(fs, attempt, tr.visits, h.entries, DirsOf(rest))
    ensures Weight(rest) + (if top.Dir? then 2 else 1) == Weight(rest + [top])
    ensures top.Dir? ==> Alone(h.entries, rest, top.prefix)
    ensures top.Check? && !h.dirty ==> AllFound(fs, attempt, tr.visits, h.entries, DirsOf(rest))
    ensures c.Some? ==> CalmSoFar(c.value, tr.visits, h.entries, DirsOf(rest), tr.listed, h.visited)
  {
    var stack := rest + [top];
    assert stack[..|stack| - 1] == rest && stack[|stack| - 1] == top;
    hide IsCalm, CalmSoFar, Collected, Frontier, OnlyFound, AllFound, AllChecked, DirsOf, Alone, Weight;
    PopFrame(h.entries, stack);
    PoppedFound(fs, attempt, tr.visits, h.entries, stack, h.dirty);
    if c.Some? { PoppedCalm(c.value, tr.visits, h.entries, stack, tr.listed, h.visited); }
  }

  lemma GoingChecked(fs: FileSystem, limits: Limits, attempt: nat, c: Option<Calm>, tr: Trace, h: Hand,
                     rest: seq<Frame>, p: Text)
    requires Going(fs, limits, attempt, c, tr, h, rest + [Check(p)])
      && !fs.recheck(attempt, h.step + 1, p).RecheckRefused?
    ensures
      var again := fs.recheck(attempt, h.step + 1, p);
      Going(fs, limits, attempt, c, tr, h.(step := h.step + 1, dirty := h.dirty || again.Changed?), rest)
    ensures Weight(rest) < Weight(rest + [Check(p)])
  {
    BelowTop(fs, limits, attempt, c, tr, h, rest, Check(p));
    if c.Some? { CalmSignals(fs, limits, attempt, c.value); }
    hide IsCalm, CalmSoFar, Collected, Frontier, OnlyFound, AllFound, AllChecked, DirsOf, Weight;
    if !h.dirty && fs.recheck(attempt, h.step + 1, p).Unchanged? {
      CheckDone(fs, attempt, tr.visits, rest, p, h.step);
    }
  }

  lemma GoingLists(fs: FileSystem, limits: Limits, attempt: nat, c: Option<Calm>, tr: Trace, h: Hand,
                   rest: seq<Frame>, p: Text)
    requires Going(fs, limits, attempt, c, tr, h, rest + [Dir(p)])
    ensures c.Some? ==> fs.list(attempt, h.step + 1, p).Names?
    ensures c.None? ==> Going(fs, limits, attempt, c, tr, h.(step := h.step + 1, dirty := true), rest)
    ensures Weight(rest) + 2 == Weight(rest + [Dir(p)])
  {
    BelowTop(fs, limits, attempt, c, tr, h, rest, Dir(p));
    hide IsCalm, CalmSoFar, Collected, Frontier, OnlyFound, AllFound, AllChecked, DirsOf, Weight, Listed;
    if c.Some? {
      TopLists(fs, limits, attempt, h.step + 1, c.value, tr.visits, h.entries, rest, p, tr.listed, h.visited);
    }
  }

  lemma GoingVisits(fs: FileSystem, limits: Limits, attempt: nat, c: Option<Calm>, tr: Trace, h: Hand,
                    rest: seq<Frame>, p: Text, names: seq<Text>)
    requires Going(fs, limits, attempt, c, tr, h, rest + [Dir(p)]) && fs.list(attempt, h.step + 1, p).Names?
    requires NamesOk(names) && forall n :: n in names <==> n in fs.list(attempt, h.step + 1, p).names
    ensures c.Some? ==>
      && |names| <= limits.maxVisited - h.visited && Listed(h.entries, c.value.files)
      && CalmVisit(fs, limits, attempt, h.step + 1, p, names, c.value.files)
    ensures Collected(fs, limits, h.entries, h.totalBytes) && Between(PathsOf(h.entries), DirsOf(rest))
    ensures if p == [] then h.entries == [] && DirsOf(rest) == []
      else AllApart(PathsOf(h.entries), p) && AllApart(DirsOf(rest), p)
  {
    hide IsCalm, CalmSoFar, Collected, Frontier, OnlyFound, AllFound, AllChecked, DirsOf, Weight, Listed, CalmVisit,
         Alone,
         PathsIn, NamesOk, Between, AllApart, PathsOf;
    BelowTop(fs, limits, attempt, c, tr, h, rest, Dir(p));
    RootIsAlone(fs, limits, h.entries, h.totalBytes, rest, p);
    if c.Some? {
      TopLists(fs, limits, attempt, h.step + 1, c.value, tr.visits, h.entries, rest, p, tr.listed, h.visited);
      TopFits(fs, limits, attempt, h.step, c.value, tr.visits, h.entries, rest, p, tr.listed, h.visited, names);
    }
  }

  lemma AccountedVisit(fs: FileSystem, limits: Limits, attempt: nat, tr: Trace, h: Hand, rest: seq<Frame>, p: Text,
                       names: seq<Text>, visit: Visit, listed: set<Text>)
    requires NamesOk(names) && Accounted(fs, limits, attempt, tr, h, rest + [Dir(p)])
    requires fs.list(attempt, h.step + 1, p).Names?
    requires forall n :: n in names <==> n in fs.list(attempt, h.step + 1, p).names
    requires Alone(h.entries, rest, p) && |names| <= limits.maxVisited - h.visited
    requires VisitGives(fs, limits, attempt, h.step + 1, p, names, h.entries, DirsOf(rest), visit)
    ensures
      var next := rest + ([Check(p)] + Pushed(visit.childDirs));
      && Accounted(fs, limits, attempt, Trace(tr.visits + [Stop(p, h.step + 1)], listed),
                   Hand(visit.entries, visit.totalBytes, h.dirty || visit.dirty, h.visited + |names|, h.step + 1), next)
      && Weight(next) == Weight(rest) + 1 + 2 * |visit.childDirs| && |visit.childDirs| <= |names|
  {
    hide Collected, Frontier, OnlyFound, AllFound, AllChecked, DirsOf, Weight, NamesOk, Within, Between, NonEmptyAll,
         PathsOf, Taken, Handled, AllApart, Free, Below, Pushed, IsChild;
    AloneFree(h.entries, rest, p);
    RootIsAlone(fs, limits, h.entries, h.totalBytes, rest, p);
    hide Alone;
    VisitFound(fs, attempt, tr.visits, h.entries, rest, p, h.step + 1, names, visit);
    TakenChildren(fs, attempt, h.step + 1, p, names, h.entries, visit);
    if !h.dirty { VisitChecked(fs, attempt, tr.visits, rest, p, h.step, names, visit.childDirs); }
  }

  lemma OnCourseVisit(fs: FileSystem, limits: Limits, attempt: nat, c: Option<Calm>, tr: Trace, h: Hand,
                      rest: seq<Frame>, p: Text, names: seq<Text>, visit: Visit)
    requires c.Some? && NamesOk(names) && Going(fs, limits, attempt, c, tr, h, rest + [Dir(p)])
    requires fs.list(attempt, h.step + 1, p).Names?
    requires forall n :: n in names ==> n in fs.list(attempt, h.step + 1, p).names
    requires visit.Visited? && !visit.dirty && Listed(visit.entries, c.value.files)
    requires Taken(fs, attempt, h.step + 1, p, names, |names|, h.entries, visit.entries, visit.childDirs)
    ensures
      OnCourse(fs, limits, attempt, c, Trace(tr.visits + [Stop(p, h.step + 1)], tr.listed + PathsIn(p, names)),
               Hand(visit.entries, visit.totalBytes, h.dirty || visit.dirty, h.visited + |names|, h.step + 1),
               DirsOf(rest + ([Check(p)] + Pushed(visit.childDirs))))
  {
    hide IsCalm, CalmSoFar, Collected, Frontier, OnlyFound, AllFound, AllChecked, DirsOf, Listed, CalmVisit,
         PathsIn, NamesOk, Taken, Pushed;
    TopLists(fs, limits, attempt, h.step + 1, c.value, tr.visits, h.entries, rest, p, tr.listed, h.visited);
    TopFits(fs, limits, attempt, h.step, c.value, tr.visits, h.entries, rest, p, tr.listed, h.visited, names);
    CalmVisited(fs, limits, attempt, h.step + 1, c.value, tr.visits, h.entries, rest, tr.listed, h.visited, p, names,
                visit);
  }

  lemma GoingVisited(fs: FileSystem, limits: Limits, attempt: nat, c: Option<Calm>, tr: Trace, h: Hand,
                     rest: seq<Frame>, p: Text, names: seq<Text>, visit: Visit)
    requires NamesOk(names) && Going(fs, limits, attempt, c, tr, h, rest + [Dir(p)])
    requires fs.list(attempt, h.step + 1, p).Names?
    requires forall n :: n in names <==> n in fs.list(attempt, h.step + 1, p).names
    requires |names| <= limits.maxVisited - h.visited
    requires VisitGives(fs, limits, attempt, h.step + 1, p, names, h.entries, DirsOf(rest), visit)
    requires c.Some? ==> !visit.dirty && Listed(visit.entries, c.value.files)
    ensures
      var next := rest + ([Check(p)] + Pushed(visit.childDirs));
      && Going(fs, limits, attempt, c, Trace(tr.visits + [Stop(p, h.step + 1)], tr.listed + PathsIn(p, names)),
               Hand(visit.entries, visit.totalBytes, h.dirty || visit.dirty, h.visited + |names|, h.step + 1), next)
      && Weight(next) == Weight(rest) + 1 + 2 * |visit.childDirs| && |visit.childDirs| <= |names|
  {
    assert Taken(fs, attempt, h.step + 1, p, names, |names|, h.entries, visit.entries, visit.childDirs);
    assert Accounted(fs, limits, attempt, tr, h, rest + [Dir(p)]);
    hide IsCalm, CalmSoFar, Collected, Frontier, OnlyFound, AllFound, AllChecked, DirsOf, Weight, Listed, PathsIn,
         NamesOk, Taken, Alone, Pushed, VisitGives, Accounted, OnCourse;
    BelowTop(fs, limits, attempt, c, tr, h, rest, Dir(p));
    AccountedVisit(fs, limits, attempt, tr, h, rest, p, names, visit, tr.listed + PathsIn(p, names));
    if c.Some? {
      OnCourseVisit(fs, limits, attempt, c, tr, h, rest, p, names, visit);
    } else {
      NoCourse(fs, limits, attempt);
    }
  }

  lemma NoCourse(fs: FileSystem, limits: Limits, attempt: nat)
    ensures forall tr, h, dirs :: OnCourse(fs, limits, attempt, None, tr, h, dirs)
  {
  }

  lemma GoingEnds(fs: FileSystem, limits: Limits, attempt: nat, c: Option<Calm>, tr: Trace, h: Hand)
    requires Going(fs, limits, attempt, c, tr, h, [])
    ensures WasCollected(fs, limits, h.entries)
    ensures !h.dirty ==> WasObserved(fs, attempt, h.entries)
    ensures c.Some? ==> !h.dirty && WasCollected(fs, Tight(limits), h.entries)
  {
    hide IsCalm, CalmSoFar, Collected, Frontier, OnlyFound, AllFound, AllChecked, Observes, Tight;
    if !h.dirty { Finished(fs, attempt, tr.visits, h.entries, h.step); }
    if c.Some? {
      CalmFinished(fs, limits, attempt, c.value, tr.visits, h.entries, h.totalBytes, tr.listed, h.visited);
    }
  }

  /** One attempt: a work stack of directories, and of re-checks that run after the
      subtree. A clean attempt accounts for everything it listed, and a tree that lets
      itself be scanned gives one. */
  method WalkAttempt(fs: FileSystem, limits: Limits, attempt: nat) returns (r: Walk)
    requires Sane(fs)
    ensures r.Walked? ==> WasCollected(fs, limits, r.entries)
    ensures r.Walked? && !r.dirty ==> WasObserved(fs, attempt, r.entries)
    ensures CalmAt(fs, limits, attempt) ==> r.Walked? && !r.dirty && WasCollected(fs, Tight(limits), r.entries)
  {
    ghost var c := CalmIf(fs, limits, attempt);
    hide *;
    match fs.root(attempt) {
      case Gone => return WalkFailed(DirectoryMissing);
      case InspectRefused(refusal) => return WalkFailed(Classified(refusal));
      case Symlink => return WalkFailed(SymlinkFound);
      case Special => return WalkFailed(DirectoryMissing);
      case RegularFile(_, _) => return WalkFailed(DirectoryMissing);
      case Directory =>
    }
    var entries: seq<Entry>, totalBytes, dirty, visited: nat, step: nat := [], 0, false, 0, 0;
    var stack := [Dir([])];
    ghost var tr := Trace([], {});
    GoingStarts(fs, limits, attempt, c);
    while stack != []
      invariant visited <= limits.maxVisited
      invariant Going(fs, limits, attempt, c, tr, Hand(entries, totalBytes, dirty, visited, step), stack)
      decreases 3 * (limits.maxVisited - visited) + Weight(stack)
    {
      if fs.aborted(attempt, step, 0) { return Aborted; }
      var frame, rest := stack[|stack| - 1], stack[..|stack| - 1];
      assert stack == rest + [frame];
      ghost var h := Hand(entries, totalBytes, dirty, visited, step);
      step := step + 1;
      stack := rest;
      if frame.Check? {
        var again := fs.recheck(attempt, step, frame.prefix);
        if again.RecheckRefused? { return WalkFailed(Unreadable); }
        GoingChecked(fs, limits, attempt, c, tr, h, rest, frame.prefix);
        if again.Changed? { dirty := true; }
      } else {
        var listing := fs.list(attempt, step, frame.prefix);
        GoingLists(fs, limits, attempt, c, tr, h, rest, frame.prefix);
        if listing.ListRefused? { return WalkFailed(Classified(listing.refusal)); }
        if listing.ListMissing? {
          dirty := true;
        } else {
          var names := SortBy(listing.names, Itself);
          NamesSorted(fs, attempt, step, frame.prefix);
          GoingVisits(fs, limits, attempt, c, tr, h, rest, frame.prefix, names);
          if |names| > limits.maxVisited - visited { return WalkFailed(TooLarge); }
          visited := visited + |names|;
          var visit := VisitDirectory(fs, limits, attempt, step, frame.prefix, names, entries, totalBytes, DirsOf(rest),
                                      if c.Some? then c.value.files else []);
          if visit.VisitFailed? { return WalkFailed(visit.failure); }
          if visit.VisitAborted? { return Aborted; }
          GoingVisited(fs, limits, attempt, c, tr, h, rest, frame.prefix, names, visit);
          stack := rest + ([Check(frame.prefix)] + Pushed(visit.childDirs));
          tr := Trace(tr.visits + [Stop(frame.prefix, step)], tr.listed + PathsIn(frame.prefix, names));
          entries, totalBytes, dirty := visit.entries, visit.totalBytes, dirty || visit.dirty;
        }
      }
    }
    GoingEnds(fs, limits, attempt, c, tr, Hand(entries, totalBytes, dirty, visited, step));
    return Walked(entries, dirty);
  }

  /** What is known of the work stack when its top frame is taken off. */
  lemma PoppedFound(fs: FileSystem, attempt: nat, visits: seq<Stop>, entries: seq<Entry>, stack: seq<Frame>,
                    dirty: bool)
    requires stack != [] && OnlyFound(fs, attempt, visits, entries, DirsOf(stack))
    requires !dirty ==> AllFound(fs, attempt, visits, entries, DirsOf(stack))
    ensures
      var frame, rest := stack[|stack| - 1], stack[..|stack| - 1];
      && OnlyFound(fs, attempt, visits, entries, DirsOf(rest))
      && (frame.Check? && !dirty ==> AllFound(fs, attempt, visits, entries, DirsOf(rest)))
      && (frame.Dir? ==> OnlyFound(fs, attempt, visits, entries, DirsOf(rest + [Dir(frame.prefix)])))
      && (frame.Dir? && !dirty ==> AllFound(fs, attempt, visits, entries, DirsOf(rest + [Dir(frame.prefix)])))
  {
    hide OnlyFound, AllFound;
    var frame, rest := stack[|stack| - 1], stack[..|stack| - 1];
    DirsBefore(stack);
    FewerFound(fs, attempt, visits, entries, DirsOf(stack), DirsOf(rest));
    if frame.Check? {
      if !dirty { SameFound(fs, attempt, visits, entries, DirsOf(stack), DirsOf(rest)); }
    } else {
      assert stack == rest + [Dir(frame.prefix)];
    }
  }

  /** One visited directory: its children are pushed, and the account of what was found
      and what is left to visit goes on. */
  lemma VisitFound(fs: FileSystem, attempt: nat, visits: seq<Stop>, before: seq<Entry>, rest: seq<Frame>, p: Text,
                   step: nat,
                   names: seq<Text>, visit: Visit)
    requires visit.Visited? && OnlyFound(fs, attempt, visits, before, DirsOf(rest + [Dir(p)]))
    requires fs.list(attempt, step, p).Names? && forall n :: n in names <==> n in fs.list(attempt, step, p).names
    requires Within(DirsOf(rest)) && Within(visit.childDirs) && NonEmptyAll(DirsOf(rest))
      && NonEmptyAll(visit.childDirs)
    requires Between(PathsOf(visit.entries), DirsOf(rest)) && Between(PathsOf(visit.entries), visit.childDirs)
    requires Between(DirsOf(rest), visit.childDirs)
    requires Taken(fs, attempt, step, p, names, |names|, before, visit.entries, visit.childDirs)
    requires !visit.dirty ==> Handled(fs, attempt, step, p, names, |names|, visit.entries, visit.childDirs)
    ensures
      var next, all := rest + ([Check(p)] + Pushed(visit.childDirs)), visits + [Stop(p, step)];
      && Frontier(visit.entries, next) && Weight(next) == Weight(rest) + 1 + 2 * |visit.childDirs|
      && OnlyFound(fs, attempt, all, visit.entries, DirsOf(next))
      && (!visit.dirty && AllFound(fs, attempt, visits, before, DirsOf(rest + [Dir(p)])) ==>
            AllFound(fs, attempt, all, visit.entries, DirsOf(next)))
  {
    hide OnlyFound, AllFound, Taken, Handled, Frontier, Within, Between, NonEmptyAll;
    var dirs, next := DirsOf(rest + [Dir(p)]), rest + ([Check(p)] + Pushed(visit.childDirs));
    DirsBefore(rest + [Dir(p)]);
    assert (rest + [Dir(p)])[..|rest|] == rest;
    PushChildren(visit.entries, rest, p, visit.childDirs);
    DirsAfter(rest, p, visit.childDirs);
    TakenKeeps(fs, attempt, step, p, names, before, visit.entries, visit.childDirs);
    VisitOnlyFound(fs, attempt, visits, before, dirs, p, step, names, visit.entries, visit.childDirs, DirsOf(next));
    if !visit.dirty && AllFound(fs, attempt, visits, before, dirs) {
      VisitAllFound(fs, attempt, visits, before, dirs, p, step, names, visit.entries, visit.childDirs, DirsOf(next));
    }
  }

  lemma TakenKeeps(fs: FileSystem, attempt: nat, step: nat, p: Text, names: seq<Text>, before: seq<Entry>,
                   entries: seq<Entry>, childDirs: seq<Text>)
    requires Taken(fs, attempt, step, p, names, |names|, before, entries, childDirs)
    ensures forall e :: e in before ==> e in entries
  {
  }

  lemma Finished(fs: FileSystem, attempt: nat, visits: seq<Stop>, entries: seq<Entry>, step: nat)
    requires OnlyFound(fs, attempt, visits, entries, DirsOf([])) && AllFound(fs, attempt, visits, entries, DirsOf([]))
    requires AllChecked(fs, attempt, visits, [], step)
    ensures Observes(fs, attempt, visits, entries)
  {
    hide OnlyFound, AllFound, Confirmed;
    assert DirsOf([]) == [];
    forall i | 0 <= i < |visits| ensures Confirmed(fs, attempt, visits, visits[i].dir) {
      assert Checked(fs, attempt, visits, [], visits[i].dir);
    }
  }

  lemma RootFrontier(fs: FileSystem, limits: Limits)
    ensures Collected(fs, limits, [], 0) && Frontier([], [Dir([])])
  {
    assert [Dir([])][..0] == [];
  }

  lemma SaneListing(fs: FileSystem, attempt: nat, step: nat, p: Text)
    requires Sane(fs) && fs.list(attempt, step, p).Names?
    ensures NamesOk(fs.list(attempt, step, p).names)
  {
  }

  lemma SortedNames(names: seq<Text>)
    requires NamesOk(names)
    ensures NamesOk(SortBy(names, Itself))
  {
    var s := SortBy(names, Itself);
    SortByIncreases(names, Itself);
    forall i, j | 0 <= i < j < |s| ensures Itself(s[i]) != Itself(s[j]) { LessTotal(s[i], s[j]); }
    forall i | 0 <= i < |s| ensures SLASH !in s[i] {
      assert s[i] in names;
      var k :| 0 <= k < |names| && names[k] == s[i];
    }
  }

  lemma NamesSorted(fs: FileSystem, attempt: nat, step: nat, p: Text)
    requires Sane(fs) && fs.list(attempt, step, p).Names?
    ensures var listed, names := fs.list(attempt, step, p).names, SortBy(fs.list(attempt, step, p).names, Itself);
      NamesOk(names) && forall n :: n in names <==> n in listed
  {
    SaneListing(fs, attempt, step, p);
    SortedNames(fs.list(attempt, step, p).names);
  }

  /** Taking a frame off: a directory taken off is apart from all that stays. */
  ghost predicate Alone(entries: seq<Entry>, rest: seq<Frame>, p: Text) {
    && Within(DirsOf(rest)) && NonEmptyAll(DirsOf(rest)) && Between(PathsOf(entries), DirsOf(rest))
    && (if p == [] then entries == [] && DirsOf(rest) == []
        else AllApart(PathsOf(entries), p) && AllApart(DirsOf(rest), p))
  }

  lemma PopFrame(entries: seq<Entry>, stack: seq<Frame>)
    requires stack != [] && Frontier(entries, stack)
    ensures
      var frame, rest := stack[|stack| - 1], stack[..|stack| - 1];
      && Frontier(entries, rest) && Weight(rest) + (if frame.Dir? then 2 else 1) == Weight(stack)
      && (frame.Dir? ==> Alone(entries, rest, frame.prefix))
  {
    hide Apart;
    var frame, rest := stack[|stack| - 1], stack[..|stack| - 1];
    var dirs, all := DirsOf(rest), DirsOf(stack);
    assert forall i :: 0 <= i < |dirs| ==> all[i] == dirs[i];
    if frame.Dir? {
      assert all[|dirs|] == frame.prefix;
      forall i | 0 <= i < |dirs| ensures Apart(dirs[i], frame.prefix) { assert Apart(all[i], all[|dirs|]); }
      forall i | 0 <= i < |entries| ensures Apart(PathsOf(entries)[i], frame.prefix) {
        assert Apart(PathsOf(entries)[i], all[|dirs|]);
      }
    }
    forall i, j | 0 <= i < |entries| && 0 <= j < |dirs| ensures Apart(PathsOf(entries)[i], dirs[j]) {
      assert Apart(PathsOf(entries)[i], all[j]);
    }
    forall i, j | 0 <= i < j < |dirs| ensures Apart(dirs[i], dirs[j]) { assert Apart(all[i], all[j]); }
  }

  lemma RootIsAlone(fs: FileSystem, limits: Limits, entries: seq<Entry>, totalBytes: nat, rest: seq<Frame>, p: Text)
    requires Alone(entries, rest, p)
    ensures Between(PathsOf(entries), DirsOf(rest)) && Within(DirsOf(rest)) && NonEmptyAll(DirsOf(rest))
    ensures if p == [] then entries == [] && DirsOf(rest) == []
      else AllApart(PathsOf(entries), p) && AllApart(DirsOf(rest), p)
  {
  }

  lemma PushChildren(entries: seq<Entry>, rest: seq<Frame>, p: Text, childDirs: seq<Text>)
    requires Within(DirsOf(rest)) && Within(childDirs) && NonEmptyAll(DirsOf(rest)) && NonEmptyAll(childDirs)
    requires Between(PathsOf(entries), DirsOf(rest)) && Between(PathsOf(entries), childDirs)
      && Between(DirsOf(rest), childDirs)
    ensures Frontier(entries, rest + ([Check(p)] + Pushed(childDirs)))
    ensures Weight(rest + ([Check(p)] + Pushed(childDirs))) == Weight(rest) + 1 + 2 * |childDirs|
  {
    hide Apart;
    PushedFrames(rest, p, childDirs);
    PushedDirs(childDirs);
    hide DirsOf, Pushed, Weight, Within, Between, NonEmptyAll;
    ReversedApart(childDirs, DirsOf(Pushed(childDirs)));
    JoinApart(PathsOf(entries), DirsOf(rest), childDirs, DirsOf(Pushed(childDirs)));
    FrontierOf(entries, rest + ([Check(p)] + Pushed(childDirs)));
  }

  lemma FrontierOf(entries: seq<Entry>, stack: seq<Frame>)
    requires Within(DirsOf(stack)) && Between(PathsOf(entries), DirsOf(stack)) && NonEmptyAll(DirsOf(stack))
    ensures Frontier(entries, stack)
  {
    hide Apart;
  }

  lemma PushedFrames(rest: seq<Frame>, p: Text, childDirs: seq<Text>)
    ensures DirsOf(rest + ([Check(p)] + Pushed(childDirs))) == DirsOf(rest) + DirsOf(Pushed(childDirs))
    ensures Weight(rest + ([Check(p)] + Pushed(childDirs))) == Weight(rest) + 1 + 2 * |childDirs|
  {
    DirsJoin([Check(p)], Pushed(childDirs));
    DirsJoin(rest, [Check(p)] + Pushed(childDirs));
    WeightJoin([Check(p)], Pushed(childDirs));
    WeightJoin(rest, [Check(p)] + Pushed(childDirs));
    PushedWeight(childDirs);
    assert [Check(p)][..0] == [];
    assert DirsOf([Check(p)]) == [] && Weight([Check(p)]) == 1;
  }

  lemma ReversedApart(s: seq<Text>, r: seq<Text>)
    requires Within(s) && |r| == |s| && forall i :: 0 <= i < |s| ==> r[i] == s[|s| - 1 - i]
    ensures Within(r)
  {
    hide Apart;
    forall i, j | 0 <= i < j < |r| ensures Apart(r[i], r[j]) { ApartSymmetric(s[|s| - 1 - j], s[|s| - 1 - i]); }
  }

  lemma JoinApart(paths: seq<Text>, dirs: seq<Text>, s: seq<Text>, r: seq<Text>)
    requires Within(dirs) && Within(r) && Between(paths, dirs) && Between(paths, s) && Between(dirs, s)
    requires |r| == |s| && forall i :: 0 <= i < |s| ==> r[i] == s[|s| - 1 - i]
    requires NonEmptyAll(dirs) && NonEmptyAll(s)
    ensures Within(dirs + r) && Between(paths, dirs + r) && NonEmptyAll(dirs + r)
  {
    hide Apart;
    var all := dirs + r;
    forall i, j | 0 <= i < j < |all| ensures Apart(all[i], all[j]) {
      if i < |dirs| && j >= |dirs| { assert Apart(dirs[i], s[|s| - 1 - (j - |dirs|)]); }
      else if i >= |dirs| { assert Apart(r[i - |dirs|], r[j - |dirs|]); }
      else { assert Apart(dirs[i], dirs[j]); }
    }
    forall i, j | 0 <= i < |paths| && 0 <= j < |all| ensures Apart(paths[i], all[j]) {
      if j < |dirs| { assert Apart(paths[i], dirs[j]); } else { assert Apart(paths[i], s[|s| - 1 - (j - |dirs|)]); }
    }
  }

  // ---- Closing out ----

  /** The class of a rejection: one the wire knows, or a broken invariant. */
  function ClassifyManifestFailure(f: ManifestPolicy.Failure): Option<Failure> {
    match f
    case BadPath(reason) => Some(MapPathFailure(reason))
    case FileTooLarge => Some(TooLarge)
    case TooManyEntries => Some(TooLarge)
    case ManifestTooLarge => Some(TooLarge)
    case _ => None
  }


  /** A walk's entries are validated once more by the shared policy. */
  method CloseOut(fs: FileSystem, limits: Limits, entries: seq<Entry>) returns (r: Scan)
    requires Sane(fs) && WasCollected(fs, limits, entries)
    ensures limits.fileMaxBytes <= MAX_SAFE_INTEGER ==> !r.InvariantBroken?
    ensures r.Scanned? ==> Acceptable(entries) && r.entries == SortByPath(entries)
    ensures WasCollected(fs, Tight(limits), entries) ==> r.Scanned?
    ensures Shared(limits) ==> r.Scanned?
  {
    hide Sane, Collected, EntryFine, Acceptable, Sound, OnlyTooLarge, Compatible, Why, SortByPath, NeverSync,
         ValidatePath;
    ghost var total :| Collected(fs, limits, entries, total);
    CollectedIsSound(fs, limits, entries, total);
    var validation := Normalize(entries);
    if validation.Rejected? {
      if t :| Collected(fs, Tight(limits), entries, t) {
        CollectedIsSound(fs, Tight(limits), entries, t);
        RejectionIsCapacity(fs, Tight(limits), entries, t, validation);
      }
      RejectionIsCapacity(fs, limits, entries, total, validation);
      var failure := ClassifyManifestFailure(validation.failure);
      if failure.None? { return InvariantBroken; }
      return ScanFailed(failure.value);
    }
    return Scanned(validation.entries);
  }

  /** The policy can refuse a walk's entries only for a capacity, and only if the
      scan's limits are above the shared ones. */
  lemma RejectionIsCapacity(fs: FileSystem, limits: Limits, entries: seq<Entry>, total: nat, v: Validation)
    requires Sane(fs) && Collected(fs, limits, entries, total) && v.Rejected? && !Acceptable(entries)
    requires v.index.Some? ==>
      v.index.value < |entries| && Why(entries[..v.index.value], entries[v.index.value]) == Some(v.failure)
    requires v.index.None? ==> v.failure == if |entries| > MAX_ENTRIES then TooManyEntries else ManifestTooLarge
    ensures limits.fileMaxBytes <= MAX_SAFE_INTEGER ==> ClassifyManifestFailure(v.failure).Some?
    ensures !Shared(limits)
  {
    hide EntryFine, Sane, OnlyTooLarge, EntryFailure, Compatible, Why;
    CollectedIsSound(fs, limits, entries, total);
    if v.index.Some? {
      var k := v.index.value;
      forall i | 0 <= i < k ensures Compatible(entries[..k][i], entries[k]) {
        assert Compatible(entries[i], entries[k]);
      }
      assert EntryFine(fs, limits, entries[k]) && OnlyTooLarge(entries[k]);
      WhyOnlyEntry(entries[..k], entries[k]);
      if limits.fileMaxBytes <= MAX_SAFE_INTEGER { SafeSize(fs, limits, entries[k]); }
      FineIsCapacity(entries[k]);
    }
  }

  lemma WhyOnlyEntry(before: seq<Entry>, e: Entry)
    requires forall i :: 0 <= i < |before| ==> Compatible(before[i], e)
    ensures Why(before, e) == EntryFailure(e)
  {
    hide EntryFailure, Conflict;
    assert forall i :: 0 <= i < |before| ==> Compatible(before[i], e);
  }

  lemma FineIsCapacity(e: Entry)
    requires OnlyTooLarge(e)
    ensures EntryFailure(e).Some? && EntryFailure(e) != Some(SizeInvalid) ==> EntryFailure(e) == Some(FileTooLarge)
  {
    hide EntryFailure;
  }

  lemma SafeSize(fs: FileSystem, limits: Limits, e: Entry)
    requires EntryFine(fs, limits, e) && limits.fileMaxBytes <= MAX_SAFE_INTEGER
    ensures EntryFailure(e) != Some(SizeInvalid)
  {
    hide ValidatePath, NeverSync, IsHash;
  }

  /** The sorted entries of one finished walk. */
  ghost predicate IsScan(fs: FileSystem, entries: seq<Entry>) {
    exists attempt: nat, visits, walked :: Observes(fs, attempt, visits, walked) && entries == SortByPath(walked)
  }

  lemma CalmIsQuiet(fs: FileSystem, limits: Limits, attempt: nat)
    requires CalmAt(fs, limits, attempt)
    ensures !fs.aborted(attempt, 0, 0)
  {
    var c :| IsCalm(fs, limits, attempt, c);
  }

  /** Up to three attempts; a tree that keeps changing is reported as unstable. */
  method ScanArtifactRoot(fs: FileSystem, limits: Limits) returns (r: Scan)
    requires Sane(fs)
    ensures limits.fileMaxBytes <= MAX_SAFE_INTEGER ==> !r.InvariantBroken?
    ensures r.Scanned? ==> Acceptable(r.entries) && SortByPath(r.entries) == r.entries
    ensures r.Scanned? ==> IsScan(fs, r.entries)
    ensures CalmAt(fs, limits, 1) ==> r.Scanned?
  {
    hide Sane, WasCollected, EntryFine, Acceptable, SortByPath, Observes, CalmAt, Tight;
    var attempt := 1;
    while attempt <= MAX_ATTEMPTS
      invariant 1 <= attempt <= MAX_ATTEMPTS + 1
      invariant attempt > 1 ==> !CalmAt(fs, limits, 1)
    {
      if CalmAt(fs, limits, attempt) { CalmIsQuiet(fs, limits, attempt); }
      if fs.aborted(attempt, 0, 0) { return Cancelled; }
      var outcome := WalkAttempt(fs, limits, attempt);
      if outcome.Aborted? { return Cancelled; }
      if outcome.WalkFailed? { return ScanFailed(outcome.failure); }
      if !outcome.dirty {
        r := CloseOut(fs, limits, outcome.entries);
        if r.Scanned? {
          NormalizedStaysNormal(outcome.entries);
          ghost var visits :| Observes(fs, attempt, visits, outcome.entries);
        }
        return;
      }
      attempt := attempt + 1;
    }
    return ScanFailed(Unstable);
  }

  /** What a successful scan of a tree that does not change returns: its files, sorted,
      none missing, none invented. */
  lemma SteadyScanIsExact(fs: FileSystem, t: Tree, entries: seq<Entry>)
    requires Steady(fs, t) && IsScan(fs, entries)
    ensures forall e :: e in entries <==> TreeHolds(fs, t, e)
  {
    hide Steady, Observes, TreeHolds;
    var attempt: nat, visits, walked :| Observes(fs, attempt, visits, walked) && entries == SortByPath(walked);
    forall e ensures e in entries <==> TreeHolds(fs, t, e) {
      SteadyWalkIsExact(fs, t, attempt, visits, walked, e);
    }
  }

  /** A finished walk skipped nothing but what is never synced: whatever its directories
      list is a directory, or a file it lists. */
  lemma WalkIsPlain(fs: FileSystem, t: Tree, attempt: nat, visits: seq<Stop>, walked: seq<Entry>, p: Text, rel: Text)
    requires Steady(fs, t) && Observes(fs, attempt, visits, walked) && Reached(t, p) && Lists(t, p, rel)
    ensures
      || NeverSync(rel) || IsDir(t.inspect(rel), rel)
      || exists e :: e in walked && IsFile(fs, t.inspect(rel), rel, e)
  {
    hide NeverSync, IsFile, IsDir, Child, Confirmed;
    var depth: nat :| Reach(t, p, depth);
    ReachedIsVisited(fs, t, attempt, visits, walked, p, depth);
    var i :| 0 <= i < |visits| && visits[i].dir == p;
    assert InListing(fs, attempt, visits[i], rel);
    assert NameDone(fs, attempt, visits[i], rel, visits, walked, []);
    hide Visits, Reach;
  }

  lemma ScannedTreeIsPlain(fs: FileSystem, t: Tree, entries: seq<Entry>, p: Text, rel: Text)
    requires Steady(fs, t) && IsScan(fs, entries) && Reached(t, p) && Lists(t, p, rel)
    ensures
      || NeverSync(rel) || IsDir(t.inspect(rel), rel)
      || exists e :: e in entries && IsFile(fs, t.inspect(rel), rel, e)
  {
    var attempt: nat, visits: seq<Stop>, walked :| Observes(fs, attempt, visits, walked)
      && entries == SortByPath(walked);
    assert forall e :: e in entries <==> e in walked;
    hide *;
    WalkIsPlain(fs, t, attempt, visits, walked, p, rel);
  }

  /** A name of one unit matches no rule: every rule has at least three units. */
  lemma ShortNameIsSynced(u: Unit)
    requires u != SLASH
    ensures !NeverSync([u])
  {
    var none: Text, low := [], Lower([u]);
    assert [u][1..] == none && Split(none) == [none] && [u] + none == [u];
    assert Split([u]) == [[u] + none];
    ShortHitsNoDirectory(low);
    ShortHitsNoFile(low);
    hide HitsDirectoryRule, HitsFileRule, DirectoryRules;
    assert LowerAll([[u]]) == [low];
  }

  lemma ShortHitsNoDirectory(name: Text)
    requires |name| == 1
    ensures !HitsDirectoryRule(LowerRules(DirectoryRules()), [name])
  {
    var rules := LowerRules(DirectoryRules());
    forall r, start | 0 <= r < |rules| && 0 <= start && start + |rules[r]| <= |[name]|
      ensures !WindowMatches(rules[r], [name], start)
    {
      LongRule(rules[r][0], name);
      hide SegmentMatches;
      assert !SegmentMatches(rules[r][0], [name][start + 0]);
    }
  }

  lemma ShortHitsNoFile(name: Text)
    requires |name| == 1
    ensures !HitsFileRule(name)
  {
    hide SegmentMatches;
    forall r | 0 <= r < |FileRules()| ensures !SegmentMatches(Lower(FileRules()[r]), name) {
      LongRule(Lower(FileRules()[r]), name);
    }
  }

  lemma LongRule(rule: Text, name: Text)
    requires |rule| >= 3 && |name| == 1
    ensures !SegmentMatches(rule, name)
  {
    var star := IndexOf(rule, STAR);
    hide IndexOf, StartsWith, EndsWith;
    if star == -1 { assert rule != name; } else { assert |rule[..star]| + |rule[star + 1..]| == |rule| - 1; }
  }

  /** One file of one unit at the root, and the system that always answers so. */
  function OneFile(name: Text, content: Content): Tree {
    Tree(p => if p == [] then Names([name]) else ListMissing, p => RegularFile(|content|, Read(content)))
  }

  function Settled(t: Tree, h: Text): FileSystem {
    FileSystem(_ => Directory, (a, s, p) => t.list(p), (a, s, p) => t.inspect(p), (a, s, p) => Unchanged,
               (a, s, k) => false, c => h)
  }

  lemma SettledIsSane(u: Unit, content: Content, h: Text)
    requires u != SLASH && IsHash(h)
    ensures Sane(Settled(OneFile([u], content), h))
  {
    hide IsHash;
    var fs := Settled(OneFile([u], content), h);
    assert forall k :: Gives(fs, k) ==> ContentAt(fs, k) == content;
  }

  lemma SettledIsWalked(u: Unit, content: Content, h: Text)
    requires !NeverSync([u])
    ensures
      var t, e := OneFile([u], content), Entry([u], h, Whole(|content|));
      Observes(Settled(t, h), 1, [Stop([], 1)], [e]) && TreeHolds(Settled(t, h), t, e)
  {
    hide NeverSync;
    var t, e, v := OneFile([u], content), Entry([u], h, Whole(|content|)), Stop([], 1);
    var fs := Settled(t, h);
    assert [u] in t.list([]).names && [u] == Child([], [u]);
    assert Reach(t, [], 0) && Lists(t, [], [u]) && IsFile(fs, t.inspect([u]), [u], e);
    assert InListing(fs, 1, v, [u]) && FoundFile(fs, 1, [v][0], e);
    hide IsFile, IsDir;
    assert OnlyFound(fs, 1, [v], [e], []) by { assert InVisit(fs, 1, [v], e); }
    assert Visits([v], []) by { assert [v][0].dir == []; }
    assert UnchangedAt(fs, 1, [v], [], 2);
    forall i, rel | 0 <= i < |[v]| && InListing(fs, 1, [v][i], rel) ensures NameDone(fs, 1, [v][i], rel, [v], [e], []) {
      assert rel == [u];
    }
  }

  /** The assumptions are consistent: some sane system that does not change holds a file
      to list, and a scan may return just that file. */
  lemma SomeTreeIsScanned(u: Unit, content: Content, h: Text)
    requires u != SLASH && IsHash(h)
    ensures
      var t, e := OneFile([u], content), Entry([u], h, Whole(|content|));
      Sane(Settled(t, h)) && Steady(Settled(t, h), t) && IsScan(Settled(t, h), [e]) && TreeHolds(Settled(t, h), t, e)
  {
    hide Sane, IsHash, Observes, TreeHolds;
    ShortNameIsSynced(u);
    SettledIsSane(u, content, h);
    SettledIsWalked(u, content, h);
    assert SortByPath([Entry([u], h, Whole(|content|))]) == [Entry([u], h, Whole(|content|))];
  }

  /** And some system lets itself be scanned. */
  lemma SomeTreeIsCalm(u: Unit, content: Content, h: Text, limits: Limits)
    requires ValidatePath([u]).None? && limits.maxEntries >= 1 && limits.maxVisited >= 1
    requires |content| <= limits.fileMaxBytes && |content| <= FILE_MAX_BYTES && |content| <= limits.maxTotalBytes
    ensures CalmAt(Settled(OneFile([u], content), h), limits, 1)
  {
    var t, e := OneFile([u], content), Entry([u], h, Whole(|content|));
    var fs, c := Settled(t, h), Calm(t, {[u]}, [e]);
    hide ValidatePath, NeverSync;
    assert [e][..0] == [];
    assert TotalBytes([e]) == |content|;
    assert FilesFit(Tight(limits), c.files);
    assert Child([], [u]) == [u];
    forall p | Reached(t, p) ensures DirCalm(fs, c, p) {
      var depth: nat :| Reach(t, p, depth);
      OnlyRoot(content, [u], p, depth);
    }
    assert IsCalm(fs, limits, 1, c);
  }

  lemma {:induction false} OnlyRoot(content: Content, name: Text, p: Text, depth: nat)
    requires Reach(OneFile(name, content), p, depth)
    ensures p == []
  {
    hide NeverSync;
  }
}
