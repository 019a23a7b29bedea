/**
 Copying the planned blobs into the team namespace. Nothing already there is ever
 overwritten; whatever is found there is read back and verified.
 */
module ClaimBlobs {
  import opened Wrappers
  import opened ClaimPlan

  type Content = seq<bv8>
  type Key = (Namespace, Hash)

  /** What one store call meets: nothing unusual, an I/O failure, or another writer
      that publishes the same key first. */
  datatype Weather = Fine | Broken | Raced(content: Content)

  datatype Reading = Missing | IoError | Opened(content: Content)
  datatype Writing = ContentMismatch | WriteError | Published | AlreadyThere

  predicate Matches(content: Content, h: Hash, size: nat) {
    LegalSize(size) && |content| == size && Store.Sha256(content) == h
  }

  predicate VerifiedAt(files: map<Key, Content>, ns: Namespace, h: Hash, size: nat) {
    (ns, h) in files && Matches(files[(ns, h)], h, size)
  }

  /** Files are only added, and only in one namespace. */
  ghost predicate OnlyAdds(before: map<Key, Content>, after: map<Key, Content>, ns: Namespace) {
    && (forall k :: k in before ==> k in after && after[k] == before[k])
    && (forall k :: k in after && k !in before ==> k.0 == ns)
  }

  /** Nothing changes but that one key may appear. */
  ghost predicate AddsOnly(before: map<Key, Content>, after: map<Key, Content>, key: Key) {
    && (forall k :: k in before ==> k in after && after[k] == before[k])
    && (forall k :: k in after && k !in before ==> k == key)
  }

  /** The hash can be copied: a file already in the team namespace is sound, or else
      the source file is. */
  predicate Copyable(files: map<Key, Content>, plan: Plan, h: Hash)
    requires h in plan.expected && h in plan.sourceOf
  {
    var team := OfTeam(plan.team);
    if (team, h) in files then VerifiedAt(files, team, h, plan.expected[h])
      else VerifiedAt(files, plan.sourceOf[h], h, plan.expected[h])
  }

  datatype Outcome = Outcome(copied: nat, copiedBytes: nat, reused: nat, reusedBytes: nat)

  class BlobFiles {
    var files: map<Key, Content>

    constructor (files: map<Key, Content>)
      ensures this.files == files
    {
      this.files := files;
    }

    method Has(key: Key, w: Weather) returns (r: Option<bool>)
      ensures r == if w.Broken? then None else Some(key in files)
    {
      r := if w.Broken? then None else Some(key in files);
    }

    method Read(key: Key, w: Weather) returns (r: Reading)
      ensures r == if w.Broken? then IoError else if key in files then Opened(files[key]) else Missing
    {
      r := if w.Broken? then IoError else if key in files then Opened(files[key]) else Missing;
    }

    /** The incoming bytes are verified; a file already at the key is left alone. */
    method WriteVerified(key: Key, size: nat, bytes: Content, w: Weather) returns (r: Writing)
      modifies this
      ensures AddsOnly(old(files), files, key)
      ensures r.Published? ==> VerifiedAt(files, key.0, key.1, size)
      ensures r.ContentMismatch? <==> !Matches(bytes, key.1, size)
      ensures r.WriteError? <==> Matches(bytes, key.1, size) && w.Broken?
      ensures r.AlreadyThere? ==> key in files
      ensures w.Fine? && Matches(bytes, key.1, size) ==> (r.Published? <==> key !in old(files))
    {
      if w.Raced? && key !in files { files := files[key := w.content]; }
      if !Matches(bytes, key.1, size) { return ContentMismatch; }
      if w.Broken? { return WriteError; }
      if key in files { return AlreadyThere; }
      files := files[key := bytes];
      return Published;
    }

    method VerifyExisting(ns: Namespace, h: Hash, size: nat, opening: Weather, streaming: Weather)
      returns (refusal: Option<Refusal>)
      ensures refusal.None? ==> VerifiedAt(files, ns, h, size)
      ensures !opening.Broken? && !streaming.Broken? && VerifiedAt(files, ns, h, size) ==> refusal.None?
    {
      var reading := Read((ns, h), opening);
      if reading.IoError? { return Some(StorageError); }
      if reading.Missing? || |reading.content| != size { return Some(TargetBlobCorrupt); }
      if streaming.Broken? { return Some(StorageError); }
      if !Matches(reading.content, h, size) { return Some(TargetBlobCorrupt); }
      return None;
    }

    /** One planned hash: copied and verified, or found and verified. */
    method CopyOne(plan: Plan, h: Hash, weather: nat -> Weather) returns (r: Result<bool>)
      requires h in plan.expected && h in plan.sourceOf
      modifies this
      ensures AddsOnly(old(files), files, (OfTeam(plan.team), h))
      ensures r.Ok? ==> VerifiedAt(files, OfTeam(plan.team), h, plan.expected[h])
      ensures (forall k: nat :: weather(k).Fine?) ==> (r.Ok? <==> Copyable(old(files), plan, h))
      ensures r.Ok? && (forall k: nat :: weather(k).Fine?) ==> (r.value <==> (OfTeam(plan.team), h) !in old(files))
    {
      var size, team := plan.expected[h], OfTeam(plan.team);
      var present := Has((team, h), weather(0));
      if present.None? { return Refused(StorageError); }
      if !present.value {
        var reading := Read((plan.sourceOf[h], h), weather(1));
        if reading.IoError? { return Refused(StorageError); }
        if reading.Missing? { return Refused(SourceBlobMissing); }
        if |reading.content| != size { return Refused(SourceBlobCorrupt); }
        var written := WriteVerified((team, h), size, reading.content, weather(2));
        if written.ContentMismatch? { return Refused(SourceBlobCorrupt); }
        if written.WriteError? { return Refused(StorageError); }
        if written.Published? { return Ok(true); }
      }
      var verified := VerifyExisting(team, h, size, weather(3), weather(4));
      if verified.Some? { return Refused(verified.value); }
      return Ok(false);
    }

    /** Every planned hash ends up verified in the team namespace, or the whole copy
        refuses; in both cases nothing that was there has changed. */
    method CopyAndVerify(plan: Plan, weather: (nat, nat) -> Weather) returns (r: Result<Outcome>)
      requires forall h :: h in plan.copyHashes || h in plan.reuseHashes ==> h in plan.expected && h in plan.sourceOf
      modifies this
      ensures OnlyAdds(old(files), files, OfTeam(plan.team))
      ensures r.Ok? ==> AllVerified(files, plan, plan.copyHashes) && AllVerified(files, plan, plan.reuseHashes)
      ensures r.Ok? ==> Conserved(plan, |plan.copyHashes|, r.value)
      ensures AllFine(weather) ==>
        (r.Ok? <==> AllVerified(old(files), plan, plan.reuseHashes) && forall h :: h in plan.copyHashes ==>
         Copyable(old(files), plan, h))
    {
      var reused := VerifyReused(plan, weather);
      if reused.Some? { return Refused(reused.value); }
      r := CopyPlanned(plan, weather);
    }

    method VerifyReused(plan: Plan, weather: (nat, nat) -> Weather) returns (refusal: Option<Refusal>)
      requires forall h :: h in plan.reuseHashes ==> h in plan.expected
      ensures refusal.None? ==> AllVerified(files, plan, plan.reuseHashes)
      ensures AllFine(weather) && refusal.Some? ==> !AllVerified(files, plan, plan.reuseHashes)
    {
      var i := 0;
      while i < |plan.reuseHashes|
        invariant 0 <= i <= |plan.reuseHashes| && AllVerified(files, plan, plan.reuseHashes[..i])
      {
        var h := plan.reuseHashes[i];
        assert plan.reuseHashes[..i + 1] == plan.reuseHashes[..i] + [h];
        var verified := VerifyExisting(OfTeam(plan.team), h, plan.expected[h], weather(i, 0), weather(i, 1));
        if verified.Some? { return verified; }
        i := i + 1;
      }
      assert plan.reuseHashes[..i] == plan.reuseHashes;
      return None;
    }

    /** The counters start from the verified reuse. */
    method CopyPlanned(plan: Plan, weather: (nat, nat) -> Weather) returns (r: Result<Outcome>)
      requires forall h :: h in plan.copyHashes || h in plan.reuseHashes ==> h in plan.expected && h in plan.sourceOf
      requires AllVerified(files, plan, plan.reuseHashes)
      modifies this
      ensures OnlyAdds(old(files), files, OfTeam(plan.team))
      ensures r.Ok? ==> AllVerified(files, plan, plan.copyHashes) && AllVerified(files, plan, plan.reuseHashes)
      ensures r.Ok? ==> Conserved(plan, |plan.copyHashes|, r.value)
      ensures AllFine(weather) ==> (r.Ok? <==> forall h :: h in plan.copyHashes ==> Copyable(old(files), plan, h))
    {
      hide Copying, Copyable, AllVerified, AddsOnly, Conserved;
      var out := Outcome(0, 0, |plan.reuseHashes|, SumOf(plan.expected, plan.reuseHashes));
      ghost var before, fine := files, AllFine(weather);
      CopyingStarts(before, plan, out, fine);
      var j := 0;
      while j < |plan.copyHashes|
        invariant 0 <= j <= |plan.copyHashes| && Copying(before, files, plan, j, out, fine)
      {
        var h := plan.copyHashes[j];
        var at: nat := |plan.reuseHashes| + j;
        ghost var was := files;
        var one := CopyOne(plan, h, (k: nat) => weather(at, k));
        if one.Refused? {
          CopyingStuck(before, was, files, plan, j, out, fine);
          return Refused(one.refusal);
        }
        CopyingStep(before, was, files, plan, j, out, fine, one.value);
        out := Counted(out, one.value, plan.expected[h]);
        j := j + 1;
      }
      CopyingDone(before, files, plan, out, fine);
      return Ok(out);
    }
  }

  ghost predicate AllFine(weather: (nat, nat) -> Weather) { forall i: nat, k: nat :: weather(i, k).Fine? }

  ghost predicate AllVerified(files: map<Key, Content>, plan: Plan, hashes: seq<Hash>) {
    forall h :: h in hashes ==> h in plan.expected && VerifiedAt(files, OfTeam(plan.team), h, plan.expected[h])
  }

  /** The first n planned hashes were copyable and still are; the others are as they were. */
  ghost predicate CopiedSoFar(before: map<Key, Content>, now: map<Key, Content>, plan: Plan, n: nat) {
    && n <= |plan.copyHashes| && (forall h :: h in plan.copyHashes ==> h in plan.expected && h in plan.sourceOf)
    && (forall h :: h in plan.copyHashes[..n] ==> Copyable(before, plan, h) && Copyable(now, plan, h))
    && (forall h :: h in plan.copyHashes && h !in plan.copyHashes[..n] ==>
        Copyable(now, plan, h) == Copyable(before, plan, h))
  }

  /** What the copy loop keeps; `fine` when no store call fails. */
  ghost predicate Copying(before: map<Key, Content>, now: map<Key, Content>, plan: Plan, n: nat, out: Outcome,
                          fine: bool) {
    && OnlyAdds(before, now, OfTeam(plan.team)) && Conserved(plan, n, out)
    && AllVerified(now, plan, plan.copyHashes[..n]) && (fine ==> CopiedSoFar(before, now, plan, n))
  }

  lemma CopyingStarts(before: map<Key, Content>, plan: Plan, out: Outcome, fine: bool)
    requires forall h :: h in plan.copyHashes || h in plan.reuseHashes ==> h in plan.expected && h in plan.sourceOf
    requires out == Outcome(0, 0, |plan.reuseHashes|, SumOf(plan.expected, plan.reuseHashes))
    ensures Copying(before, before, plan, 0, out, fine)
  {
  }

  lemma CopyingStep(before: map<Key, Content>, was: map<Key, Content>, now: map<Key, Content>, plan: Plan, n: nat,
                    out: Outcome,
                    fine: bool, copied: bool)
    requires n < |plan.copyHashes| && Copying(before, was, plan, n, out, fine)
    requires
      var h := plan.copyHashes[n];
      h in plan.expected && h in plan.sourceOf && AddsOnly(was, now, (OfTeam(plan.team), h))
    requires VerifiedAt(now, OfTeam(plan.team), plan.copyHashes[n], plan.expected[plan.copyHashes[n]])
    requires fine ==> Copyable(was, plan, plan.copyHashes[n])
    ensures Copying(before, now, plan, n + 1, Counted(out, copied, plan.expected[plan.copyHashes[n]]), fine)
  {
    assert plan.copyHashes[..n + 1] == plan.copyHashes[..n] + [plan.copyHashes[n]];
    ConservedStep(plan, n, out, copied);
    hide VerifiedAt, Copyable, Conserved, CopiedSoFar;
    if fine { CopiedMore(before, was, now, plan, n); }
    StillVerified(was, now, plan, plan.copyHashes[..n]);
  }

  lemma CopyingStuck(before: map<Key, Content>, was: map<Key, Content>, now: map<Key, Content>, plan: Plan, n: nat,
                     out: Outcome, fine: bool)
    requires n < |plan.copyHashes| && Copying(before, was, plan, n, out, fine)
    requires
      var h := plan.copyHashes[n];
      h in plan.expected && h in plan.sourceOf && AddsOnly(was, now, (OfTeam(plan.team), h))
    ensures OnlyAdds(before, now, OfTeam(plan.team))
    ensures fine && !Copyable(was, plan, plan.copyHashes[n]) ==> !Copyable(before, plan, plan.copyHashes[n])
  {
    hide Copyable;
    if fine { CopiedFacts(before, was, plan, n); }
  }

  lemma CopyingDone(before: map<Key, Content>, now: map<Key, Content>, plan: Plan, out: Outcome, fine: bool)
    requires Copying(before, now, plan, |plan.copyHashes|, out, fine) && AllVerified(before, plan, plan.reuseHashes)
    requires forall h :: h in plan.copyHashes ==> h in plan.expected && h in plan.sourceOf
    ensures OnlyAdds(before, now, OfTeam(plan.team)) && Conserved(plan, |plan.copyHashes|, out)
    ensures AllVerified(now, plan, plan.copyHashes) && AllVerified(now, plan, plan.reuseHashes)
    ensures fine ==> forall h :: h in plan.copyHashes ==> Copyable(before, plan, h)
  {
    hide Copyable, Conserved;
    assert plan.copyHashes[..|plan.copyHashes|] == plan.copyHashes;
    if fine { CopiedFacts(before, now, plan, |plan.copyHashes|); }
    StillVerified(before, now, plan, plan.reuseHashes);
  }

  lemma CopiedFacts(before: map<Key, Content>, now: map<Key, Content>, plan: Plan, n: nat)
    requires n <= |plan.copyHashes| && forall h :: h in plan.copyHashes ==> h in plan.expected && h in plan.sourceOf
    ensures n == 0 && now == before ==> CopiedSoFar(before, now, plan, n)
    ensures CopiedSoFar(before, now, plan, n) && n < |plan.copyHashes| && !Copyable(now, plan, plan.copyHashes[n])
            ==> !Copyable(before, plan, plan.copyHashes[n])
    ensures CopiedSoFar(before, now, plan, n) && n == |plan.copyHashes| ==> forall h :: h in plan.copyHashes ==>
      Copyable(before, plan, h)
  {
    assert plan.copyHashes[..|plan.copyHashes|] == plan.copyHashes;
  }

  lemma CopiedMore(before: map<Key, Content>, was: map<Key, Content>, now: map<Key, Content>, plan: Plan, n: nat)
    requires n < |plan.copyHashes| && CopiedSoFar(before, was, plan, n) && Copyable(was, plan, plan.copyHashes[n])
    requires AddsOnly(was, now, (OfTeam(plan.team), plan.copyHashes[n]))
    requires VerifiedAt(now, OfTeam(plan.team), plan.copyHashes[n], plan.expected[plan.copyHashes[n]])
    ensures CopiedSoFar(before, now, plan, n + 1)
  {
    var h, done := plan.copyHashes[n], plan.copyHashes[..n];
    assert plan.copyHashes[..n + 1] == done + [h];
    forall k | k in plan.copyHashes && k != h ensures Copyable(now, plan, k) == Copyable(was, plan, k) {}
  }

  lemma StillVerified(before: map<Key, Content>, after: map<Key, Content>, plan: Plan, hashes: seq<Hash>)
    requires OnlyAdds(before, after, OfTeam(plan.team)) && AllVerified(before, plan, hashes)
    ensures AllVerified(after, plan, hashes)
  {
  }

  function Counted(out: Outcome, copied: bool, size: nat): Outcome {
    if copied then out.(copied := out.copied + 1, copiedBytes := out.copiedBytes + size)
    else out.(reused := out.reused + 1, reusedBytes := out.reusedBytes + size)
  }

  /** Every planned hash and byte is counted once, as copied or as reused. */
  ghost predicate Conserved(plan: Plan, n: nat, out: Outcome) {
    && n <= |plan.copyHashes| && (forall h :: h in plan.copyHashes || h in plan.reuseHashes ==> h in plan.expected)
    && out.copied + out.reused == n + |plan.reuseHashes|
    && out.copiedBytes + out.reusedBytes
          == SumOf(plan.expected, plan.copyHashes[..n]) + SumOf(plan.expected, plan.reuseHashes)
  }

  lemma ConservedStep(plan: Plan, n: nat, out: Outcome, copied: bool)
    requires n < |plan.copyHashes| && Conserved(plan, n, out)
    ensures Conserved(plan, n + 1, Counted(out, copied, plan.expected[plan.copyHashes[n]]))
  {
    assert plan.copyHashes[..n + 1][..n] == plan.copyHashes[..n];
  }
}
