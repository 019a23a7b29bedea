/**
 The uploads of one round: one group for each hash the server asked for, each
 verified and sent on its own, and one verdict once all of them are settled.
 */
module UploadRound {
  import opened Wrappers
  import opened ArtifactStore
  import opened ArtifactTables

  datatype Code =
    | ValidationFailed | ConfigConflictCode | ManifestConflictCode | SessionExpiredCode | HashNotNegotiatedCode
    | ContentMismatchCode | BlobMissingCode | StorageErrorCode | AttributionMissingCode | RevisionExhaustedCode
    | SessionCommittedCode

  predicate Transient(status: nat) { status == 408 || status == 429 || status >= 500 }

  /** The refusals that stop every later call. */
  predicate Stopping(status: nat) { status == 401 || status == 403 }

  /** How one group ended. `Dropped` is a group the caller's cancellation cut short. */
  datatype Ending = Stored | Exhausted | Dropped | FileChanged | FileUnreadable
    | PutRefused(status: nat, code: Option<Code>)

  datatype Upload = Parked | Putting(msg: nat, attempt: nat) | Settled(ending: Ending)

  datatype Group = Group(hash: Hash, upload: Upload)

  // ---- Grouping ----

  /** One group for each hash of the tree that is asked for, in the order of the tree. */
  function Wanted(hashes: seq<Hash>, need: seq<Hash>): (groups: seq<Group>)
    ensures |groups| <= |hashes|
    ensures forall g :: 0 <= g < |groups| ==> groups[g].upload == Parked
  {
    if hashes == [] then []
    else
      var last := hashes[|hashes| - 1];
      Wanted(hashes[..|hashes| - 1], need) + (if last in need then [Group(last, Parked)] else [])
  }

  function GroupsOf(entries: seq<Entry>, need: seq<Hash>): (groups: seq<Group>) { Wanted(Distinct(entries), need) }

  ghost predicate Grouped(groups: seq<Group>, h: Hash) { exists g :: 0 <= g < |groups| && groups[g].hash == h }

  /** Every hash both scanned and asked for gets exactly one group. */
  lemma {:induction false} WantedIsExact(hashes: seq<Hash>, need: seq<Hash>)
    requires forall i, j :: 0 <= i < j < |hashes| ==> hashes[i] != hashes[j]
    ensures forall h :: Grouped(Wanted(hashes, need), h) <==> h in hashes && h in need
    ensures forall i, j :: 0 <= i < j < |Wanted(hashes, need)| ==>
      Wanted(hashes, need)[i].hash != Wanted(hashes, need)[j].hash
  {
    if hashes != [] {
      var less, last := hashes[..|hashes| - 1], hashes[|hashes| - 1];
      assert hashes == less + [last];
      WantedIsExact(less, need);
      var before, all := Wanted(less, need), Wanted(hashes, need);
      assert forall g :: 0 <= g < |before| ==> Grouped(before, before[g].hash) && all[g] == before[g];
      forall h ensures Grouped(all, h) <==> Grouped(before, h) || (h == last && last in need) {
        if Grouped(before, h) {
          var g :| 0 <= g < |before| && before[g].hash == h;
          assert all[g].hash == h;
        }
        if last in need { assert all[|before|].hash == last; }
      }
    }
  }

  lemma {:induction false} GroupsAreExact(entries: seq<Entry>, need: seq<Hash>)
    ensures
      var groups := GroupsOf(entries, need);
      && (forall h :: Grouped(groups, h) <==> h in Distinct(entries) && h in need)
      && (forall i, j :: 0 <= i < j < |groups| ==> groups[i].hash != groups[j].hash)
      && |groups| <= |entries|
  {
    DistinctOnce(entries);
    WantedIsExact(Distinct(entries), need);
    DistinctIsShorter(entries);
  }

  lemma {:induction false} DistinctIsShorter(entries: seq<Entry>)
    ensures |Distinct(entries)| <= |entries|
  {
    if entries != [] { DistinctIsShorter(entries[..|entries| - 1]); }
  }

  lemma GroupsStep(entries: seq<Entry>, need: seq<Hash>, i: nat)
    requires i < |entries|
    ensures
      var h, before, after := entries[i].hash, Distinct(entries[..i]), Distinct(entries[..i + 1]);
      && (forall other :: other in after <==> other in before || other == h)
      && GroupsOf(entries[..i + 1], need)
         == GroupsOf(entries[..i], need) + if h in need && h !in before then [Group(h, Parked)] else []
  {
    DistinctStep(entries, i);
    var h, before := entries[i].hash, Distinct(entries[..i]);
    hide Distinct;
    assert (before + [h])[..|before|] == before;
  }

  /** The grouping loop: a hash met again joins the group it has. */
  method GroupNeeded(entries: seq<Entry>, need: seq<Hash>) returns (groups: seq<Group>)
    ensures groups == GroupsOf(entries, need)
  {
    groups := [];
    var seen: set<Hash> := {};
    var i := 0;
    while i < |entries|
      invariant 0 <= i <= |entries|
      invariant forall h :: h in seen <==> h in Distinct(entries[..i]) && h in need
      invariant groups == GroupsOf(entries[..i], need)
    {
      GroupsStep(entries, need, i);
      var h := entries[i].hash;
      if h in need && h !in seen {
        groups := groups + [Group(h, Parked)];
        seen := seen + {h};
      }
      i := i + 1;
    }
    assert entries[..i] == entries;
  }

  // ---- The verdict ----

  predicate AllSettled(groups: seq<Group>) { forall g :: 0 <= g < |groups| ==> groups[g].upload.Settled? }

  function Severity(e: Ending): nat {
    match e
    case Stored => 0
    case PutRefused(status, _) => if Stopping(status) then 3 else 2
    case _ => 1
  }

  /** The first of the most severe endings: a refusal that stops the machine before any
      other refusal, any refusal before a local fault. */
  function Worst(groups: seq<Group>): Ending
    requires AllSettled(groups)
  {
    if groups == [] then Stored
    else
      var rest := Worst(groups[1..]);
      var first := groups[0].upload.ending;
      if Severity(first) >= Severity(rest) then first else rest
  }

  /** The verdict is one of the endings, none is more severe, and none before it is as
      severe; it is `Stored` only when every group stored its bytes. */
  lemma {:induction false} WorstIsFirst(groups: seq<Group>)
    requires AllSettled(groups)
    ensures forall g :: 0 <= g < |groups| ==> Severity(groups[g].upload.ending) <= Severity(Worst(groups))
    ensures groups != [] ==>
      exists g :: 0 <= g < |groups| && groups[g].upload.ending == Worst(groups)
               && forall f :: 0 <= f < g ==> Severity(groups[f].upload.ending) < Severity(Worst(groups))
    ensures Worst(groups) == Stored <==> forall g :: 0 <= g < |groups| ==> groups[g].upload.ending == Stored
  {
    if groups != [] {
      var rest, first := groups[1..], groups[0].upload.ending;
      assert forall g :: 1 <= g < |groups| ==> groups[g] == rest[g - 1];
      WorstIsFirst(rest);
      if Severity(first) >= Severity(Worst(rest)) {
        assert groups[0].upload.ending == Worst(groups);
      } else {
        var g :| 0 <= g < |rest| && rest[g].upload.ending == Worst(rest)
              && forall f :: 0 <= f < g ==> Severity(rest[f].upload.ending) < Severity(Worst(rest));
        assert groups[g + 1].upload.ending == Worst(groups);
        assert forall f :: 1 <= f < g + 1 ==> groups[f] == rest[f - 1];
      }
    }
  }

  /** The two passes over the settled groups: refusals first, each one that stops the
      machine recorded, then the first fault. */
  method Adjudicate(groups: seq<Group>) returns (verdict: Ending, stopped: bool)
    requires AllSettled(groups)
    ensures verdict == Worst(groups)
    ensures stopped <==> exists g :: 0 <= g < |groups| && Severity(groups[g].upload.ending) == 3
    ensures stopped <==> verdict.PutRefused? && Stopping(verdict.status)
  {
    WorstIsFirst(groups);
    var firstRefusal, firstStop: Option<Ending> := None, None;
    stopped := false;
    var i := 0;
    while i < |groups|
      invariant 0 <= i <= |groups|
      invariant FirstOf(groups, i, 2, firstRefusal) && FirstOf(groups, i, 3, firstStop) && stopped == firstStop.Some?
    {
      var e := groups[i].upload.ending;
      if e.PutRefused? {
        if firstRefusal.None? { firstRefusal := Some(e); }
        if Stopping(e.status) {
          stopped := true;
          if firstStop.None? { firstStop := Some(e); }
        }
      }
      i := i + 1;
    }
    if firstStop.Some? || firstRefusal.Some? {
      verdict := if firstStop.Some? then firstStop.value else firstRefusal.value;
      return;
    }
    i := 0;
    while i < |groups|
      invariant 0 <= i <= |groups| && forall g :: 0 <= g < i ==> groups[g].upload.ending == Stored
    {
      if groups[i].upload.ending != Stored { return groups[i].upload.ending, stopped; }
      i := i + 1;
    }
    return Stored, stopped;
  }

  /** The first ending of at least this severity among the first n groups. */
  ghost predicate FirstOf(groups: seq<Group>, n: nat, severity: nat, found: Option<Ending>)
    requires AllSettled(groups) && n <= |groups|
  {
    match found
    case None => forall g :: 0 <= g < n ==> Severity(groups[g].upload.ending) < severity
    case Some(e) =>
      exists g :: 0 <= g < n && groups[g].upload.ending == e && Severity(e) >= severity
               && forall f :: 0 <= f < g ==> Severity(groups[f].upload.ending) < severity
  }

  /** The caller's cancellation ends every group that is not settled yet. */
  function Dropping(groups: seq<Group>): (dropped: seq<Group>)
    ensures |dropped| == |groups| && AllSettled(dropped)
    ensures forall g :: 0 <= g < |groups| ==>
      dropped[g] == if groups[g].upload.Settled? then groups[g] else groups[g].(upload := Settled(Dropped))
  {
    seq(|groups|, g requires 0 <= g < |groups| =>
      if groups[g].upload.Settled? then groups[g] else groups[g].(upload := Settled(Dropped)))
  }

  // ---- Budgets ----

  function AttemptsLeft(u: Upload, attempts: nat): nat {
    match u
    case Parked => attempts
    case Putting(_, k) => if k <= attempts then attempts - k else 0
    case Settled(_) => 0
  }

  /** How many more PUTs these groups may send, at `attempts` for each hash. */
  function PutsLeft(groups: seq<Group>, attempts: nat): nat {
    if groups == [] then 0
      else PutsLeft(groups[..|groups| - 1], attempts) + AttemptsLeft(groups[|groups| - 1].upload, attempts)
  }

  function WorkOf(u: Upload, attempts: nat): nat { if u.Settled? then 0 else AttemptsLeft(u, attempts) + 1 }

  /** How many more events these groups can go through. */
  function WorkLeft(groups: seq<Group>, attempts: nat): nat {
    if groups == [] then 0
      else WorkLeft(groups[..|groups| - 1], attempts) + WorkOf(groups[|groups| - 1].upload, attempts)
  }

  lemma {:induction false} LeftAfter(groups: seq<Group>, g: nat, group: Group, attempts: nat)
    requires g < |groups|
    ensures PutsLeft(groups[g := group], attempts)
         == PutsLeft(groups, attempts) - AttemptsLeft(groups[g].upload, attempts) + AttemptsLeft(group.upload, attempts)
    ensures WorkLeft(groups[g := group], attempts)
         == WorkLeft(groups, attempts) - WorkOf(groups[g].upload, attempts) + WorkOf(group.upload, attempts)
  {
    var n := |groups| - 1;
    if g == n {
      assert groups[g := group][..n] == groups[..n];
    } else {
      assert groups[g := group][..n] == groups[..n][g := group];
      LeftAfter(groups[..n], g, group, attempts);
    }
  }

  lemma {:induction false} LeftAtMost(groups: seq<Group>, attempts: nat)
    ensures PutsLeft(groups, attempts) <= attempts * |groups| && WorkLeft(groups, attempts) <= (attempts + 1) * |groups|
    ensures (forall g :: 0 <= g < |groups| ==> groups[g].upload == Parked) ==>
      PutsLeft(groups, attempts) == attempts * |groups|
  {
    if groups != [] {
      LeftAtMost(groups[..|groups| - 1], attempts);
      Distribute(attempts, |groups| - 1);
      Distribute(attempts + 1, |groups| - 1);
    }
  }

  lemma Distribute(a: nat, n: nat)
    ensures a * (n + 1) == a * n + a
  {
  }
}
