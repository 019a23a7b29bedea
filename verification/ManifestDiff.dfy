/**
 The structural diff of two snapshots, and what it is good for: applied to one
 snapshot it rebuilds the other, sizes included, although entries of equal hash
 are left out.
 */
module ManifestDiff {
  import opened Wrappers
  import opened ArtifactStore
  import opened ArtifactServer
  import opened ArtifactSafety

  datatype Change = Change(path: string, beforeHash: Hash, beforeSize: nat, afterHash: Hash, afterSize: nat)
  datatype Diff = Diff(added: seq<Entry>, modified: seq<Change>, removed: seq<Entry>)

  // ---- What the diff is ----

  function Find(entries: seq<Entry>, path: string): (e: Option<Entry>)
    ensures e.Some? ==> e.value in entries && e.value.path == path
    ensures e.None? <==> forall i :: 0 <= i < |entries| ==> entries[i].path != path
  {
    if entries == [] then None
    else if entries[|entries| - 1].path == path then Some(entries[|entries| - 1])
    else Find(entries[..|entries| - 1], path)
  }

  function Added(before: seq<Entry>, after: seq<Entry>): seq<Entry> {
    if after == [] then []
    else
      var e := after[|after| - 1];
      Added(before, after[..|after| - 1]) + (if Find(before, e.path).None? then [e] else [])
  }

  function Modified(before: seq<Entry>, after: seq<Entry>): seq<Change> {
    if after == [] then []
    else
      var e := after[|after| - 1];
      var prev := Find(before, e.path);
      Modified(before, after[..|after| - 1])
      + (if prev.Some? && prev.value.hash != e.hash
         then [Change(e.path, prev.value.hash, prev.value.size, e.hash, e.size)] else [])
  }

  /** The diff loop: a map of the earlier entries by path (a later entry of the
      same path wins), then one pass over the later ones, then the filter. */
  method DiffManifestEntries(before: seq<Entry>, after: seq<Entry>) returns (d: Diff)
    ensures d == Diff(Added(before, after), Modified(before, after), Added(after, before))
  {
    var beforeByPath: map<string, Entry> := map[];
    var i := 0;
    while i < |before|
      invariant 0 <= i <= |before|
      invariant forall p :: if p in beforeByPath then Find(before[..i], p) == Some(beforeByPath[p])
        else Find(before[..i], p).None?
    {
      assert before[..i + 1][..i] == before[..i];
      beforeByPath := beforeByPath[before[i].path := before[i]];
      i := i + 1;
    }
    assert before[..i] == before;
    var added: seq<Entry>, modified: seq<Change> := [], [];
    i := 0;
    while i < |after|
      invariant 0 <= i <= |after|
      invariant added == Added(before, after[..i]) && modified == Modified(before, after[..i])
    {
      var entry := after[i];
      assert after[..i + 1][..i] == after[..i];
      if entry.path !in beforeByPath {
        added := added + [entry];
      } else if beforeByPath[entry.path].hash != entry.hash {
        var prev := beforeByPath[entry.path];
        modified := modified + [Change(entry.path, prev.hash, prev.size, entry.hash, entry.size)];
      }
      i := i + 1;
    }
    assert after[..i] == after;
    var afterPaths := set k | 0 <= k < |after| :: after[k].path;
    var removed: seq<Entry> := [];
    i := 0;
    while i < |before|
      invariant 0 <= i <= |before| && removed == Added(after, before[..i])
    {
      assert before[..i + 1][..i] == before[..i];
      if before[i].path !in afterPaths { removed := removed + [before[i]]; }
      i := i + 1;
    }
    assert before[..i] == before;
    return Diff(added, modified, removed);
  }

  // ---- Applying a diff ----

  datatype File = File(hash: Hash, size: nat)

  /** A snapshot as the tree it stands for. */
  function View(entries: seq<Entry>): (v: map<string, File>)
    ensures forall p :: p in v <==> Find(entries, p).Some?
    ensures forall p :: p in v ==> v[p] == File(Find(entries, p).value.hash, Find(entries, p).value.size)
  {
    map p | p in (set i | 0 <= i < |entries| :: entries[i].path) ::
      File(Find(entries, p).value.hash, Find(entries, p).value.size)
  }

  function AfterOf(changes: seq<Change>, path: string): Option<File> {
    if changes == [] then None
    else
      var c := changes[|changes| - 1];
      if c.path == path then Some(File(c.afterHash, c.afterSize)) else AfterOf(changes[..|changes| - 1], path)
  }

  /** The file at a path once the diff is applied to a snapshot. */
  function AppliedAt(v: map<string, File>, d: Diff, path: string): Option<File> {
    if Find(d.removed, path).Some? then None
    else if Find(d.added, path).Some? then Some(File(Find(d.added, path).value.hash, Find(d.added, path).value.size))
    else if AfterOf(d.modified, path).Some? then AfterOf(d.modified, path)
    else if path in v then Some(v[path])
    else None
  }

  function At(v: map<string, File>, path: string): Option<File> { if path in v then Some(v[path]) else None }

  /** The diff the other way round. */
  function Reverse(d: Diff): Diff { Diff(d.removed, Turned(d.modified), d.added) }

  function Turned(changes: seq<Change>): (r: seq<Change>)
    ensures |r| == |changes|
    ensures forall i :: 0 <= i < |r| ==> r[i] == Change(changes[i].path, changes[i].afterHash, changes[i].afterSize,
                                                       changes[i].beforeHash, changes[i].beforeSize)
  {
    seq(|changes|, i requires 0 <= i < |changes| =>
      Change(changes[i].path, changes[i].afterHash, changes[i].afterSize, changes[i].beforeHash, changes[i].beforeSize))
  }

  ghost predicate Rebuilds(before: seq<Entry>, d: Diff, after: seq<Entry>) {
    forall p :: AppliedAt(View(before), d, p) == At(View(after), p)
  }

  /** No path keeps its hash and changes its size. */
  ghost predicate SizesAgree(before: seq<Entry>, after: seq<Entry>) {
    forall p :: p in View(before) && p in View(after) && View(before)[p].hash == View(after)[p].hash
                ==> View(before)[p].size == View(after)[p].size
  }

  lemma {:induction false} AddedAt(before: seq<Entry>, after: seq<Entry>, path: string)
    ensures Find(Added(before, after), path) == if Find(before, path).None? then Find(after, path) else None
  {
    if after != [] {
      var n := |after| - 1;
      AddedAt(before, after[..n], path);
      if Find(before, after[n].path).None? {
        assert Added(before, after)[..|Added(before, after)| - 1] == Added(before, after[..n]);
      } else {
        assert Added(before, after) == Added(before, after[..n]);
      }
    }
  }

  lemma {:induction false} ModifiedAt(before: seq<Entry>, after: seq<Entry>, path: string)
    requires DistinctPaths(after)
    ensures
      var x, y := Find(before, path), Find(after, path);
      AfterOf(Modified(before, after), path)
      == if x.Some? && y.Some? && x.value.hash != y.value.hash then Some(File(y.value.hash, y.value.size)) else None
  {
    if after != [] {
      var n := |after| - 1;
      ModifiedAt(before, after[..n], path);
      assert after[n].path == path ==> Find(after[..n], path).None?;
      var prev := Find(before, after[n].path);
      if prev.Some? && prev.value.hash != after[n].hash {
        assert Modified(before, after)[..|Modified(before, after)| - 1] == Modified(before, after[..n]);
      } else {
        assert Modified(before, after) == Modified(before, after[..n]);
      }
    }
  }

  lemma {:induction false} TurnedAt(before: seq<Entry>, after: seq<Entry>, path: string)
    requires DistinctPaths(after)
    ensures
      var x, y := Find(before, path), Find(after, path);
      AfterOf(Turned(Modified(before, after)), path)
      == if x.Some? && y.Some? && x.value.hash != y.value.hash then Some(File(x.value.hash, x.value.size)) else None
  {
    if after != [] {
      var n := |after| - 1;
      TurnedAt(before, after[..n], path);
      assert after[n].path == path ==> Find(after[..n], path).None?;
      var prev := Find(before, after[n].path);
      if prev.Some? && prev.value.hash != after[n].hash {
        var t := Turned(Modified(before, after));
        assert t[..|t| - 1] == Turned(Modified(before, after[..n]));
      } else {
        assert Modified(before, after) == Modified(before, after[..n]);
      }
    }
  }

  /** The diff rebuilds the later snapshot from the earlier one exactly when no path
      keeps its hash and changes its size; the reversed diff then rebuilds the
      earlier one. */
  lemma DiffRebuilds(before: seq<Entry>, after: seq<Entry>)
    requires DistinctPaths(before) && DistinctPaths(after)
    ensures
      var d := Diff(Added(before, after), Modified(before, after), Added(after, before));
      && (Rebuilds(before, d, after) <==> SizesAgree(before, after))
      && (Rebuilds(after, Reverse(d), before) <==> SizesAgree(before, after))
  {
    var d := Diff(Added(before, after), Modified(before, after), Added(after, before));
    hide AppliedAt, At, Find;
    forall p
      ensures AppliedAt(View(before), d, p) == At(View(after), p) <==> SizeAgrees(before, after, p)
      ensures AppliedAt(View(after), Reverse(d), p) == At(View(before), p) <==> SizeAgrees(before, after, p)
    {
      PathRebuilt(before, after, p);
    }
    assert SizesAgree(before, after) <==> forall p :: SizeAgrees(before, after, p) by {
      if SizesAgree(before, after) { assert forall p :: SizeAgrees(before, after, p); }
      if forall p :: SizeAgrees(before, after, p) {
        assert forall p :: p in View(before) ==> SizeAgrees(before, after, p);
      }
    }
  }

  lemma PathRebuilt(before: seq<Entry>, after: seq<Entry>, p: string)
    requires DistinctPaths(before) && DistinctPaths(after)
    ensures
      var d := Diff(Added(before, after), Modified(before, after), Added(after, before));
      && (AppliedAt(View(before), d, p) == At(View(after), p) <==> SizeAgrees(before, after, p))
      && (AppliedAt(View(after), Reverse(d), p) == At(View(before), p) <==> SizeAgrees(before, after, p))
  {
    AddedAt(before, after, p);
    AddedAt(after, before, p);
    ModifiedAt(before, after, p);
    TurnedAt(before, after, p);
    hide Find, Added, Modified, AfterOf, Turned;
  }

  ghost predicate SizeAgrees(before: seq<Entry>, after: seq<Entry>, p: string) {
    p in View(before) && p in View(after) && View(before)[p].hash == View(after)[p].hash ==>
      View(before)[p].size == View(after)[p].size
  }

  /** Between any two committed manifests, and from the empty baseline, the diff
      always rebuilds: equal hashes stand for equal verified sizes. */
  lemma CommittedDiffRebuilds(run: seq<Action>, a: ManifestId, b: ManifestId)
    requires a in Acts(EMPTY, run).store.manifests && b in Acts(EMPTY, run).store.manifests
    ensures
      var x, y := Acts(EMPTY, run).store.manifests[a].entries, Acts(EMPTY, run).store.manifests[b].entries;
      && Rebuilds(x, Diff(Added(x, y), Modified(x, y), Added(y, x)), y)
      && Rebuilds(y, Reverse(Diff(Added(x, y), Modified(x, y), Added(y, x))), x)
      && Rebuilds([], Diff(Added([], y), Modified([], y), Added(y, [])), y)
  {
    var x, y := Acts(EMPTY, run).store.manifests[a].entries, Acts(EMPTY, run).store.manifests[b].entries;
    CommittedEntries(run, a);
    CommittedEntries(run, b);
    hide Acts, Rebuilds, Added, Modified;
    DiffRebuilds(x, y);
    DiffRebuilds([], y);
  }

  lemma CommittedEntries(run: seq<Action>, mid: ManifestId)
    requires mid in Acts(EMPTY, run).store.manifests
    ensures
      var entries := Acts(EMPTY, run).store.manifests[mid].entries;
      DistinctPaths(entries) && forall p :: p in View(entries) ==>
        View(entries)[p].size == |View(entries)[p].hash.content|
  {
    Reachable(run);
    ReceiptsMatchManifests(run);
    var s := Acts(EMPTY, run).store;
    var entries := s.manifests[mid].entries;
    var sid :| sid in s.sessions && s.sessions[sid].receipt.Some? && s.sessions[sid].receipt.value.snapshot == mid;
    assert DistinctPaths(entries) by {
      hide Acts, ManifestOk, LoopOk;
      assert SessionOk(s, sid);
    }
    forall p | p in View(entries) ensures View(entries)[p].size == |View(entries)[p].hash.content| {
      var e := Find(entries, p).value;
      var i :| 0 <= i < |entries| && entries[i] == e;
      SizesAreVerified(run, [], mid, i);
    }
  }
}
