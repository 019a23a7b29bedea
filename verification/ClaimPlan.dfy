/**
 Planning the claim of legacy machines for a team: read-only checks of every
 machine's whole history, and the list of blobs to copy or to reuse.
 */
module ClaimPlan {
  import opened Wrappers
  import Store = ArtifactStore

  type Hash = Store.Hash
  type Entry = Store.Entry
  type TeamId = nat

  const FILE_MAX_BYTES: nat := 10_485_760

  datatype Namespace = OfMachine(id: nat) | OfTeam(team: TeamId)

  datatype Machine = Machine(revoked: bool, team: Option<TeamId>)
  datatype LoopRow = LoopRow(id: nat, machine: nat, manifest: Option<nat>)
  datatype ManifestRow = ManifestRow(id: nat, ns: Namespace, machine: nat, loop: nat, config: nat, revision: nat,
                                     entries: seq<Entry>, fileCount: nat, totalBytes: nat)
  datatype SessionRow = SessionRow(id: nat, ns: Namespace, machine: nat, loop: nat, requestId: nat,
                                   receipt: Option<Store.Receipt>)
  datatype Phase = Pending | Running | Finished
  datatype RunRow = RunRow(id: nat, machine: nat, phase: Phase, snapshot: Option<nat>)

  datatype Rows = Rows(machines: map<nat, Machine>, loops: seq<LoopRow>, manifests: seq<ManifestRow>,
                       sessions: seq<SessionRow>, runs: seq<RunRow>, blobs: map<(Namespace, Hash), nat>)

  datatype Refusal =
    | MachineMissing | MachineRevoked | MachineOwnedByOtherTeam | MachineRunActive
    | ManifestNamespaceMismatch | ManifestOrphanLoop | ManifestFileCountMismatch | ManifestTotalBytesMismatch
    | EntryBadSize
    | SessionNamespaceMismatch | SessionOrphanLoop | RunSnapshotDangling | LoopSnapshotDangling
    | BlobRowMissing | BlobSizeMismatch | BlobRowBadSize | BlobSizeConflict
    | SourceBlobMissing | SourceBlobCorrupt | TargetBlobCorrupt | StorageError | GuardLost | TransactionFailed

  datatype Result<+T> = Ok(value: T) | Refused(refusal: Refusal)

  predicate LegalSize(n: nat) { n <= FILE_MAX_BYTES }

  // ---- One machine's resource chain ----

  ghost predicate OwnsLoop(rows: Rows, machine: nat, loop: nat) {
    exists i :: 0 <= i < |rows.loops| && rows.loops[i].machine == machine && rows.loops[i].id == loop
  }

  ghost predicate OwnsManifest(rows: Rows, machine: nat, manifest: nat) {
    exists i :: 0 <= i < |rows.manifests| && rows.manifests[i].machine == machine && rows.manifests[i].id == manifest
  }

  predicate EntriesLegal(entries: seq<Entry>) { forall i :: 0 <= i < |entries| ==> LegalSize(entries[i].size) }

  ghost predicate ManifestFine(rows: Rows, machine: nat, ns: Namespace, m: ManifestRow) {
    && m.ns == ns && OwnsLoop(rows, machine, m.loop) && m.fileCount == |m.entries|
    && m.totalBytes == Store.TotalBytes(m.entries) && EntriesLegal(m.entries)
  }

  /** The size the chain check remembers for each hash: the last one it saw. */
  function EntrySizes(entries: seq<Entry>): map<Hash, nat> {
    if entries == [] then map[]
      else EntrySizes(entries[..|entries| - 1])[entries[|entries| - 1].hash := entries[|entries| - 1].size]
  }

  function ManifestSizes(manifests: seq<ManifestRow>, machine: nat): map<Hash, nat> {
    if manifests == [] then map[]
    else
      var before, m := ManifestSizes(manifests[..|manifests| - 1], machine), manifests[|manifests| - 1];
      if m.machine == machine then before + EntrySizes(m.entries) else before
  }

  /** The whole chain, without an order of checks. */
  ghost predicate ChainOk(rows: Rows, machine: nat, ns: Namespace) {
    && (forall i :: 0 <= i < |rows.manifests| && rows.manifests[i].machine == machine ==>
        ManifestFine(rows, machine, ns, rows.manifests[i]))
    && (forall i :: 0 <= i < |rows.sessions| && rows.sessions[i].machine == machine ==>
          rows.sessions[i].ns == ns && OwnsLoop(rows, machine, rows.sessions[i].loop))
    && (forall i :: 0 <= i < |rows.runs| && rows.runs[i].machine == machine && rows.runs[i].snapshot.Some? ==>
          OwnsManifest(rows, machine, rows.runs[i].snapshot.value))
    && (forall i :: 0 <= i < |rows.loops| && rows.loops[i].machine == machine && rows.loops[i].manifest.Some? ==>
          OwnsManifest(rows, machine, rows.loops[i].manifest.value))
    && SizesMatch(rows, ns, ManifestSizes(rows.manifests, machine))
    && (forall h :: (ns, h) in rows.blobs ==> LegalSize(rows.blobs[(ns, h)]))
  }

  ghost predicate SizesMatch(rows: Rows, ns: Namespace, sizes: map<Hash, nat>) {
    forall h :: h in sizes ==> (ns, h) in rows.blobs && rows.blobs[(ns, h)] == sizes[h]
  }

  /** The blob rows of a namespace, as sizes by hash. */
  function RowsOf(rows: Rows, ns: Namespace): (r: map<Hash, nat>)
    ensures forall h :: h in r <==> (ns, h) in rows.blobs
    ensures forall h :: h in r ==> r[h] == rows.blobs[(ns, h)]
  {
    map k | k in rows.blobs.Keys && k.0 == ns :: k.1 := rows.blobs[k]
  }

  function ManifestCount(manifests: seq<ManifestRow>, machine: nat, ns: Namespace): nat {
    if manifests == [] then 0
    else
      var m := manifests[|manifests| - 1];
      ManifestCount(manifests[..|manifests| - 1], machine, ns) + (if m.machine == machine && m.ns == ns then 1 else 0)
  }

  function SessionCount(sessions: seq<SessionRow>, machine: nat, ns: Namespace): nat {
    if sessions == [] then 0
    else
      var s := sessions[|sessions| - 1];
      SessionCount(sessions[..|sessions| - 1], machine, ns) + (if s.machine == machine && s.ns == ns then 1 else 0)
  }

  datatype Chain = Chain(hashes: map<Hash, nat>, manifestCount: nat, sessionCount: nat)

  method CheckChain(rows: Rows, machine: nat, ns: Namespace) returns (r: Result<Chain>)
    ensures r.Ok? <==> ChainOk(rows, machine, ns)
    ensures r.Ok? ==>
      r.value == Chain(RowsOf(rows, ns), ManifestCount(rows.manifests, machine, ns),
                       SessionCount(rows.sessions, machine, ns))
  {
    var loopIds := LoopIds(rows, machine);
    var manifests := CheckManifests(rows, machine, ns, loopIds);
    if manifests.Refused? { return Refused(manifests.refusal); }
    var (sizes, manifestIds, manifestCount) := manifests.value;
    var sessions := CheckSessions(rows, machine, ns, loopIds);
    if sessions.Refused? { return Refused(sessions.refusal); }
    var pointers := CheckPointers(rows, machine, manifestIds);
    if pointers.Refused? { return Refused(pointers.refusal); }
    var hashes := CheckBlobRows(rows, ns, sizes);
    if hashes.Refused? { return Refused(hashes.refusal); }
    return Ok(Chain(hashes.value, manifestCount, sessions.value));
  }

  method LoopIds(rows: Rows, machine: nat) returns (ids: set<nat>)
    ensures forall l :: l in ids <==> OwnsLoop(rows, machine, l)
  {
    ids := {};
    var i := 0;
    while i < |rows.loops|
      invariant 0 <= i <= |rows.loops|
      invariant forall l :: l in ids <==>
        exists k :: 0 <= k < i && rows.loops[k].machine == machine && rows.loops[k].id == l
    {
      if rows.loops[i].machine == machine { ids := ids + {rows.loops[i].id}; }
      i := i + 1;
    }
  }

  /** The entries of one manifest: legal sizes, and the last size of each hash wins. */
  method CheckEntries(entries: seq<Entry>, before: map<Hash, nat>) returns (r: Result<map<Hash, nat>>)
    ensures r.Ok? <==> EntriesLegal(entries)
    ensures r.Ok? ==> r.value == before + EntrySizes(entries)
  {
    var sizes := before;
    var i := 0;
    while i < |entries|
      invariant 0 <= i <= |entries| && EntriesLegal(entries[..i]) && sizes == before + EntrySizes(entries[..i])
    {
      assert entries[..i + 1][..i] == entries[..i];
      if !LegalSize(entries[i].size) { return Refused(EntryBadSize); }
      sizes := sizes[entries[i].hash := entries[i].size];
      i := i + 1;
    }
    assert entries[..i] == entries;
    return Ok(sizes);
  }

  method CheckManifests(rows: Rows, machine: nat, ns: Namespace, loopIds: set<nat>)
    returns (r: Result<(map<Hash, nat>, set<nat>, nat)>)
    requires forall l :: l in loopIds <==> OwnsLoop(rows, machine, l)
    ensures r.Ok? <==> forall i :: 0 <= i < |rows.manifests| && rows.manifests[i].machine == machine
                                   ==> ManifestFine(rows, machine, ns, rows.manifests[i])
    ensures r.Ok? ==>
              && r.value.0 == ManifestSizes(rows.manifests, machine)
              && (forall m :: m in r.value.1 <==> OwnsManifest(rows, machine, m))
              && r.value.2 == ManifestCount(rows.manifests, machine, ns)
  {
    hide OwnsLoop;
    var sizes: map<Hash, nat>, ids: set<nat>, count := map[], {}, 0;
    var i := 0;
    while i < |rows.manifests|
      invariant 0 <= i <= |rows.manifests|
      invariant forall k :: 0 <= k < i && rows.manifests[k].machine == machine ==>
        ManifestFine(rows, machine, ns, rows.manifests[k])
      invariant sizes == ManifestSizes(rows.manifests[..i], machine)
        && count == ManifestCount(rows.manifests[..i], machine, ns)
      invariant forall m :: m in ids <==>
        exists k :: 0 <= k < i && rows.manifests[k].machine == machine && rows.manifests[k].id == m
    {
      var m := rows.manifests[i];
      assert rows.manifests[..i + 1][..i] == rows.manifests[..i];
      if m.machine == machine {
        if m.ns != ns { return Refused(ManifestNamespaceMismatch); }
        if m.loop !in loopIds { return Refused(ManifestOrphanLoop); }
        if m.fileCount != |m.entries| { return Refused(ManifestFileCountMismatch); }
        if m.totalBytes != Store.TotalBytes(m.entries) { return Refused(ManifestTotalBytesMismatch); }
        var more := CheckEntries(m.entries, sizes);
        if more.Refused? { return Refused(more.refusal); }
        sizes := more.value;
        ids := ids + {m.id};
        count := count + 1;
      }
      i := i + 1;
    }
    assert rows.manifests[..i] == rows.manifests;
    return Ok((sizes, ids, count));
  }

  method CheckSessions(rows: Rows, machine: nat, ns: Namespace, loopIds: set<nat>) returns (r: Result<nat>)
    requires forall l :: l in loopIds <==> OwnsLoop(rows, machine, l)
    ensures r.Ok? <==> forall i :: 0 <= i < |rows.sessions| && rows.sessions[i].machine == machine ==>
                                   rows.sessions[i].ns == ns && OwnsLoop(rows, machine, rows.sessions[i].loop)
    ensures r.Ok? ==> r.value == SessionCount(rows.sessions, machine, ns)
  {
    hide OwnsLoop;
    var count := 0;
    var i := 0;
    while i < |rows.sessions|
      invariant 0 <= i <= |rows.sessions| && count == SessionCount(rows.sessions[..i], machine, ns)
      invariant forall k :: 0 <= k < i && rows.sessions[k].machine == machine ==>
                            rows.sessions[k].ns == ns && OwnsLoop(rows, machine, rows.sessions[k].loop)
    {
      assert rows.sessions[..i + 1][..i] == rows.sessions[..i];
      if rows.sessions[i].machine == machine {
        if rows.sessions[i].ns != ns { return Refused(SessionNamespaceMismatch); }
        if rows.sessions[i].loop !in loopIds { return Refused(SessionOrphanLoop); }
        count := count + 1;
      }
      i := i + 1;
    }
    assert rows.sessions[..i] == rows.sessions;
    return Ok(count);
  }

  method CheckPointers(rows: Rows, machine: nat, manifestIds: set<nat>) returns (r: Result<bool>)
    requires forall m :: m in manifestIds <==> OwnsManifest(rows, machine, m)
    ensures r.Ok? <==>
      && (forall i :: 0 <= i < |rows.runs| && rows.runs[i].machine == machine && rows.runs[i].snapshot.Some? ==>
            OwnsManifest(rows, machine, rows.runs[i].snapshot.value))
      && (forall i :: 0 <= i < |rows.loops| && rows.loops[i].machine == machine && rows.loops[i].manifest.Some? ==>
            OwnsManifest(rows, machine, rows.loops[i].manifest.value))
  {
    hide OwnsManifest;
    var i := 0;
    while i < |rows.runs|
      invariant 0 <= i <= |rows.runs|
      invariant forall k :: 0 <= k < i && rows.runs[k].machine == machine && rows.runs[k].snapshot.Some? ==>
                            OwnsManifest(rows, machine, rows.runs[k].snapshot.value)
    {
      var run := rows.runs[i];
      if run.machine == machine && run.snapshot.Some? && run.snapshot.value !in manifestIds {
        return Refused(RunSnapshotDangling);
      }
      i := i + 1;
    }
    i := 0;
    while i < |rows.loops|
      invariant 0 <= i <= |rows.loops|
      invariant forall k :: 0 <= k < i && rows.loops[k].machine == machine && rows.loops[k].manifest.Some? ==>
                            OwnsManifest(rows, machine, rows.loops[k].manifest.value)
    {
      var loop := rows.loops[i];
      if loop.machine == machine && loop.manifest.Some? && loop.manifest.value !in manifestIds {
        return Refused(LoopSnapshotDangling);
      }
      i := i + 1;
    }
    return Ok(true);
  }

  method CheckBlobRows(rows: Rows, ns: Namespace, sizes: map<Hash, nat>) returns (r: Result<map<Hash, nat>>)
    ensures r.Ok? <==> SizesMatch(rows, ns, sizes) && forall h :: (ns, h) in rows.blobs ==>
      LegalSize(rows.blobs[(ns, h)])
    ensures r.Ok? ==> r.value == RowsOf(rows, ns)
  {
    var left := sizes.Keys;
    while left != {}
      invariant left <= sizes.Keys
      invariant forall h :: h in sizes && h !in left ==> (ns, h) in rows.blobs && rows.blobs[(ns, h)] == sizes[h]
    {
      var h :| h in left;
      if (ns, h) !in rows.blobs { return Refused(BlobRowMissing); }
      if rows.blobs[(ns, h)] != sizes[h] { return Refused(BlobSizeMismatch); }
      left := left - {h};
    }
    var hashes := sizes;
    var own := RowsOf(rows, ns);
    left := own.Keys;
    while left != {}
      invariant left <= own.Keys
      invariant forall h :: h in own && h !in left ==> h in hashes && hashes[h] == own[h] && LegalSize(own[h])
      invariant forall h :: h in hashes ==> h in own && hashes[h] == own[h]
    {
      var h :| h in left;
      if !LegalSize(own[h]) { return Refused(BlobRowBadSize); }
      hashes := hashes[h := own[h]];
      left := left - {h};
    }
    assert hashes == own;
    return Ok(hashes);
  }

  // ---- The plan ----

  datatype MachinePlan = MachinePlan(id: nat, alreadyClaimed: bool, source: Namespace, manifestCount: nat,
                                     sessionCount: nat)

  datatype Plan = Plan(team: TeamId, machines: seq<MachinePlan>, copyHashes: seq<Hash>, reuseHashes: seq<Hash>,
                       copyBytes: nat, reuseBytes: nat, expected: map<Hash, nat>, sourceOf: map<Hash, Namespace>)

  ghost predicate Eligible(rows: Rows, team: TeamId, m: MachinePlan) {
    && m.id in rows.machines && !rows.machines[m.id].revoked
    && rows.machines[m.id].team == (if m.alreadyClaimed then Some(team) else None)
    && m.source == (if m.alreadyClaimed then OfTeam(team) else OfMachine(m.id))
    && ChainOk(rows, m.id, m.source)
    && m.manifestCount == ManifestCount(rows.manifests, m.id, m.source)
    && m.sessionCount == SessionCount(rows.sessions, m.id, m.source)
    && forall i :: 0 <= i < |rows.runs| && rows.runs[i].machine == m.id ==> !rows.runs[i].phase.Running?
  }

  ghost predicate HasRow(rows: Rows, ns: Namespace, h: Hash, size: nat) {
    (ns, h) in rows.blobs && rows.blobs[(ns, h)] == size
  }

  /** Every blob row of every planned machine is expected with its own size. */
  ghost predicate RowsExpected(rows: Rows, machines: seq<MachinePlan>, expected: map<Hash, nat>) {
    forall i, h, n :: 0 <= i < |machines| && HasRow(rows, machines[i].source, h, n) ==>
      h in expected && expected[h] == n
  }

  /** Every expected hash has a source row, in the namespace of the last machine that
      holds the hash. */
  ghost predicate SourcesHold(rows: Rows, machines: seq<MachinePlan>, expected: map<Hash, nat>,
                              sourceOf: map<Hash, Namespace>) {
    forall h :: h in expected ==>
      h in sourceOf && HasRow(rows, sourceOf[h], h, expected[h]) && FromLast(rows, machines, sourceOf[h], h)
  }

  ghost predicate FromLast(rows: Rows, machines: seq<MachinePlan>, ns: Namespace, h: Hash) {
    exists i :: LastHolder(rows, machines, i, h) && machines[i].source == ns
  }

  ghost predicate LastHolder(rows: Rows, machines: seq<MachinePlan>, i: int, h: Hash) {
    && 0 <= i < |machines| && (machines[i].source, h) in rows.blobs
    && forall j :: i < j < |machines| ==> (machines[j].source, h) !in rows.blobs
  }

  /** No two planned machines disagree on the size of a hash. */
  ghost predicate OneRowSize(rows: Rows, machines: seq<MachinePlan>) {
    forall i, j, h, n, k | 0 <= i < |machines| && 0 <= j < |machines| ::
      HasRow(rows, machines[i].source, h, n) && HasRow(rows, machines[j].source, h, k) ==> n == k
  }

  /** The store has every source file, and answers for it and for its target. */
  ghost predicate FilesThere(rows: Rows, machines: seq<MachinePlan>, files: set<(Namespace, Hash)>,
                             broken: set<(Namespace, Hash)>, team: TeamId) {
    forall i, h :: LastHolder(rows, machines, i, h) ==>
      (machines[i].source, h) in files && (machines[i].source, h) !in broken && (OfTeam(team), h) !in broken
  }

  ghost predicate MachinesFor(rows: Rows, team: TeamId, ids: seq<nat>, machines: seq<MachinePlan>) {
    |machines| == |ids| && forall i :: 0 <= i < |ids| ==> machines[i].id == ids[i] && Eligible(rows, team, machines[i])
  }

  ghost predicate Gathered(rows: Rows, machines: seq<MachinePlan>, expected: map<Hash, nat>,
                           sourceOf: map<Hash, Namespace>) {
    RowsExpected(rows, machines, expected) && SourcesHold(rows, machines, expected, sourceOf)
  }

  function SumOf(sizes: map<Hash, nat>, hashes: seq<Hash>): nat
    requires forall h :: h in hashes ==> h in sizes
  {
    if hashes == [] then 0 else SumOf(sizes, hashes[..|hashes| - 1]) + sizes[hashes[|hashes| - 1]]
  }

  lemma SumMore(sizes: map<Hash, nat>, hashes: seq<Hash>, h: Hash)
    requires h in sizes && forall x :: x in hashes ==> x in sizes
    ensures SumOf(sizes, hashes + [h]) == SumOf(sizes, hashes) + sizes[h]
  {
    assert (hashes + [h])[..|hashes|] == hashes;
  }

  ghost predicate Classified(plan: Plan, files: set<(Namespace, Hash)>) {
    && (forall h :: h in plan.copyHashes <==> h in plan.expected && (OfTeam(plan.team), h) !in files)
    && (forall h :: h in plan.reuseHashes <==> h in plan.expected && (OfTeam(plan.team), h) in files)
    && (forall h :: h in plan.expected ==> h in plan.sourceOf && (plan.sourceOf[h], h) in files)
    && plan.copyBytes == SumOf(plan.expected, plan.copyHashes)
    && plan.reuseBytes == SumOf(plan.expected, plan.reuseHashes)
  }

  ghost predicate PlanOk(rows: Rows, files: set<(Namespace, Hash)>, ids: seq<nat>, plan: Plan) {
    && MachinesFor(rows, plan.team, ids, plan.machines)
    && Gathered(rows, plan.machines, plan.expected, plan.sourceOf) && Classified(plan, files)
  }

  method PlanMachine(rows: Rows, team: TeamId, id: nat) returns (r: Result<(MachinePlan, map<Hash, nat>)>)
    ensures r.Ok? ==>
      r.value.0.id == id && Eligible(rows, team, r.value.0) && r.value.1 == RowsOf(rows, r.value.0.source)
    ensures r.Refused? ==> forall m: MachinePlan :: Eligible(rows, team, m) ==> m.id != id
  {
    if id !in rows.machines { return Refused(MachineMissing); }
    var machine := rows.machines[id];
    if machine.revoked { return Refused(MachineRevoked); }
    var alreadyClaimed := machine.team == Some(team);
    if machine.team.Some? && !alreadyClaimed { return Refused(MachineOwnedByOtherTeam); }
    var source := if alreadyClaimed then OfTeam(team) else OfMachine(id);
    var chain := CheckChain(rows, id, source);
    if chain.Refused? { return Refused(chain.refusal); }
    var i := 0;
    while i < |rows.runs|
      invariant 0 <= i <= |rows.runs|
      invariant forall k :: 0 <= k < i && rows.runs[k].machine == id ==> !rows.runs[k].phase.Running?
    {
      if rows.runs[i].machine == id && rows.runs[i].phase.Running? { return Refused(MachineRunActive); }
      i := i + 1;
    }
    return Ok((MachinePlan(id, alreadyClaimed, source, chain.value.manifestCount, chain.value.sessionCount),
               chain.value.hashes));
  }

  lemma EligibleOnce(rows: Rows, team: TeamId, m: MachinePlan, n: MachinePlan)
    requires Eligible(rows, team, m) && Eligible(rows, team, n) && m.id == n.id
    ensures m == n
  {
  }

  /** The ids determine the machines, one by one. */
  lemma MachinesOnce(rows: Rows, team: TeamId, ids: seq<nat>, machines: seq<MachinePlan>, others: seq<MachinePlan>,
                     n: nat)
    requires n <= |ids| && MachinesFor(rows, team, ids[..n], machines) && MachinesFor(rows, team, ids, others)
    ensures others[..n] == machines
  {
    hide Eligible;
    forall i | 0 <= i < n ensures others[i] == machines[i] {
      assert ids[..n][i] == ids[i];
      EligibleOnce(rows, team, others[i], machines[i]);
    }
  }

  lemma ConflictStays(rows: Rows, machines: seq<MachinePlan>, n: nat)
    requires n <= |machines| && OneRowSize(rows, machines)
    ensures OneRowSize(rows, machines[..n])
  {
  }

  /** `broken` are the keys on which the store answers with a storage error. A plan is
      made exactly when every machine is eligible, their rows agree on sizes, and the
      store has every source file. */
  method PlanClaim(rows: Rows, files: set<(Namespace, Hash)>, broken: set<(Namespace, Hash)>, team: TeamId,
                   ids: seq<nat>)
    returns (r: Result<Plan>)
    ensures r.Ok? ==>
      && r.value.team == team && PlanOk(rows, files, ids, r.value)
      && OneRowSize(rows, r.value.machines) && FilesThere(rows, r.value.machines, files, broken, team)
    ensures r.Refused? ==> forall machines :: MachinesFor(rows, team, ids, machines) ==>
      !OneRowSize(rows, machines) || !FilesThere(rows, machines, files, broken, team)
  {
    hide Eligible, Gathered, OneRowSize, FilesThere, Classified;
    var machines: seq<MachinePlan>, expected: map<Hash, nat>, sourceOf: map<Hash, Namespace> := [], map[], map[];
    NothingGathered(rows);
    var i := 0;
    while i < |ids|
      invariant 0 <= i <= |ids| && MachinesFor(rows, team, ids[..i], machines)
      invariant Gathered(rows, machines, expected, sourceOf)
    {
      var planned := PlanMachine(rows, team, ids[i]);
      if planned.Refused? { return Refused(planned.refusal); }
      var (machine, hashes) := planned.value;
      ghost var all := machines + [machine];
      assert MachinesFor(rows, team, ids[..i + 1], all);
      var gathered := GatherHashes(rows, machines, machine, hashes, expected, sourceOf);
      if gathered.Refused? {
        forall others | MachinesFor(rows, team, ids, others) ensures !OneRowSize(rows, others) {
          MachinesOnce(rows, team, ids, all, others, i + 1);
          if OneRowSize(rows, others) { ConflictStays(rows, others, i + 1); }
        }
        return Refused(gathered.refusal);
      }
      expected, sourceOf := gathered.value.0, gathered.value.1;
      machines := machines + [machine];
      i := i + 1;
    }
    assert ids[..i] == ids;
    GatheredAgrees(rows, machines, expected, sourceOf);
    var plan := Plan(team, machines, [], [], 0, 0, expected, sourceOf);
    r := ClassifyHashes(plan, files, broken, rows);
    forall others | MachinesFor(rows, team, ids, others) ensures others == machines {
      MachinesOnce(rows, team, ids, machines, others, i);
      assert others[..i] == others;
    }
    FilesThereIff(rows, plan, files, broken);
  }

  lemma NothingGathered(rows: Rows)
    ensures Gathered(rows, [], map[], map[])
  {
  }

  lemma GatheredAgrees(rows: Rows, machines: seq<MachinePlan>, expected: map<Hash, nat>, sourceOf: map<Hash, Namespace>)
    requires Gathered(rows, machines, expected, sourceOf)
    ensures OneRowSize(rows, machines) && forall h :: h in expected ==> h in sourceOf
  {
  }

  /** The store answers for every expected hash. */
  ghost predicate Answered(plan: Plan, files: set<(Namespace, Hash)>, broken: set<(Namespace, Hash)>) {
    forall h :: h in plan.expected ==>
      h in plan.sourceOf && (plan.sourceOf[h], h) in files && (plan.sourceOf[h], h) !in broken
        && (OfTeam(plan.team), h) !in broken
  }

  lemma FilesThereIff(rows: Rows, plan: Plan, files: set<(Namespace, Hash)>, broken: set<(Namespace, Hash)>)
    requires Gathered(rows, plan.machines, plan.expected, plan.sourceOf)
    ensures FilesThere(rows, plan.machines, files, broken, plan.team) <==> Answered(plan, files, broken)
  {
    var ms := plan.machines;
    forall i, h | LastHolder(rows, ms, i, h)
      ensures h in plan.expected && h in plan.sourceOf && plan.sourceOf[h] == ms[i].source {
      assert HasRow(rows, ms[i].source, h, rows.blobs[(ms[i].source, h)]);
      var k :| LastHolder(rows, ms, k, h) && ms[k].source == plan.sourceOf[h];
    }
    if FilesThere(rows, ms, files, broken, plan.team) {
      forall h | h in plan.expected
        ensures (plan.sourceOf[h], h) in files && (plan.sourceOf[h], h) !in broken
        && (OfTeam(plan.team), h) !in broken {
        var k :| LastHolder(rows, ms, k, h) && ms[k].source == plan.sourceOf[h];
      }
    }
  }

  method GatherHashes(rows: Rows, ghost machines: seq<MachinePlan>, machine: MachinePlan, hashes: map<Hash, nat>,
                      expected: map<Hash, nat>, sourceOf: map<Hash, Namespace>)
    returns (r: Result<(map<Hash, nat>, map<Hash, Namespace>)>)
    requires Gathered(rows, machines, expected, sourceOf) && hashes == RowsOf(rows, machine.source)
    ensures r.Ok? ==> Gathered(rows, machines + [machine], r.value.0, r.value.1)
    ensures r.Refused? ==> !OneRowSize(rows, machines + [machine])
  {
    var newSizes, newSources := expected, sourceOf;
    var left := hashes.Keys;
    hide Gathered, RowsOf, OneRowSize;
    while left != {}
      invariant left <= hashes.Keys && Overlaid(expected, hashes, left, newSizes)
      invariant Overlaid(sourceOf, map h | h in hashes.Keys :: machine.source, left, newSources)
      invariant forall h :: h in hashes && h !in left && h in expected ==> expected[h] == hashes[h]
    {
      var h :| h in left;
      if h in newSizes && newSizes[h] != hashes[h] {
        SizesConflict(rows, machines, machine, hashes, expected, sourceOf, h);
        return Refused(BlobSizeConflict);
      }
      newSizes := newSizes[h := hashes[h]];
      newSources := newSources[h := machine.source];
      left := left - {h};
    }
    GatheredMore(rows, machines, machine, hashes, expected, sourceOf, newSizes, newSources);
    return Ok((newSizes, newSources));
  }

  lemma SizesConflict(rows: Rows, machines: seq<MachinePlan>, machine: MachinePlan, hashes: map<Hash, nat>,
                      expected: map<Hash, nat>, sourceOf: map<Hash, Namespace>, h: Hash)
    requires Gathered(rows, machines, expected, sourceOf) && hashes == RowsOf(rows, machine.source)
    requires h in hashes && h in expected && expected[h] != hashes[h]
    ensures !OneRowSize(rows, machines + [machine])
  {
    var all := machines + [machine];
    var i :| LastHolder(rows, machines, i, h) && machines[i].source == sourceOf[h];
    assert all[i] == machines[i] && all[|machines|] == machine;
    assert HasRow(rows, all[i].source, h, expected[h]) && HasRow(rows, all[|machines|].source, h, hashes[h]);
  }

  /** `base` with the entries of `top` outside `left` laid over it. */
  ghost predicate Overlaid<V(!new)>(base: map<Hash, V>, top: map<Hash, V>, left: set<Hash>, r: map<Hash, V>) {
    && (forall h :: h in r <==> h in base || (h in top && h !in left))
    && (forall h :: h in r ==> r[h] == if h in top && h !in left then top[h] else base[h])
  }

  lemma GatheredMore(rows: Rows, machines: seq<MachinePlan>, machine: MachinePlan, hashes: map<Hash, nat>,
                     expected: map<Hash, nat>, sourceOf: map<Hash, Namespace>, sizes: map<Hash, nat>,
                     sources: map<Hash, Namespace>)
    requires Gathered(rows, machines, expected, sourceOf) && hashes == RowsOf(rows, machine.source)
    requires forall h :: h in hashes && h in expected ==> expected[h] == hashes[h]
    requires Overlaid(expected, hashes, {}, sizes)
      && Overlaid(sourceOf, map h | h in hashes.Keys :: machine.source, {}, sources)
    ensures Gathered(rows, machines + [machine], sizes, sources)
  {
    var all := machines + [machine];
    RowsExpectedMore(rows, machines, machine, hashes, expected, sizes);
    hide RowsExpected, Overlaid;
    forall h | h in sizes
      ensures h in sources && HasRow(rows, sources[h], h, sizes[h]) && FromLast(rows, all, sources[h], h) {
      if h in hashes {
        OverlaidAt(expected, hashes, sizes, h);
        OverlaidAt(sourceOf, map h | h in hashes.Keys :: machine.source, sources, h);
        LastIsNew(rows, machines, machine, h);
      } else {
        OverlaidAt(expected, hashes, sizes, h);
        OverlaidAt(sourceOf, map h | h in hashes.Keys :: machine.source, sources, h);
        LastStays(rows, machines, machine, sourceOf[h], h);
      }
    }
  }

  lemma OverlaidAt<V(!new)>(base: map<Hash, V>, top: map<Hash, V>, r: map<Hash, V>, h: Hash)
    requires Overlaid(base, top, {}, r)
    ensures h in r <==> h in base || h in top
    ensures h in r ==> r[h] == if h in top then top[h] else base[h]
  {
  }

  lemma RowsExpectedMore(rows: Rows, machines: seq<MachinePlan>, machine: MachinePlan, hashes: map<Hash, nat>,
                         expected: map<Hash, nat>, sizes: map<Hash, nat>)
    requires RowsExpected(rows, machines, expected) && hashes == RowsOf(rows, machine.source)
    requires forall h :: h in hashes && h in expected ==> expected[h] == hashes[h]
    requires Overlaid(expected, hashes, {}, sizes)
    ensures RowsExpected(rows, machines + [machine], sizes)
  {
    var all := machines + [machine];
    forall h, n ensures HasRow(rows, machine.source, h, n) <==> h in hashes && hashes[h] == n {}
    hide HasRow, RowsOf;
    forall i, h, n | 0 <= i < |all| && HasRow(rows, all[i].source, h, n) ensures h in sizes && sizes[h] == n {
      if i < |machines| { assert HasRow(rows, machines[i].source, h, n); }
    }
  }

  lemma LastIsNew(rows: Rows, machines: seq<MachinePlan>, machine: MachinePlan, h: Hash)
    requires (machine.source, h) in rows.blobs
    ensures FromLast(rows, machines + [machine], machine.source, h)
  {
    assert LastHolder(rows, machines + [machine], |machines|, h);
  }

  lemma LastStays(rows: Rows, machines: seq<MachinePlan>, machine: MachinePlan, ns: Namespace, h: Hash)
    requires FromLast(rows, machines, ns, h) && (machine.source, h) !in rows.blobs
    ensures FromLast(rows, machines + [machine], ns, h)
  {
    var i :| LastHolder(rows, machines, i, h) && machines[i].source == ns;
    assert LastHolder(rows, machines + [machine], i, h);
  }

  method ClassifyHashes(plan: Plan, files: set<(Namespace, Hash)>, broken: set<(Namespace, Hash)>, ghost rows: Rows)
    returns (r: Result<Plan>)
    requires plan.copyHashes == [] && plan.reuseHashes == [] && plan.copyBytes == 0 && plan.reuseBytes == 0
    requires forall h :: h in plan.expected ==> h in plan.sourceOf
    ensures r.Ok? ==>
              && r.value == plan.(copyHashes := r.value.copyHashes, reuseHashes := r.value.reuseHashes,
                                  copyBytes := r.value.copyBytes, reuseBytes := r.value.reuseBytes)
              && Classified(r.value, files)
    ensures r.Ok? <==> Answered(plan, files, broken)
  {
    var copy: seq<Hash>, reuse: seq<Hash>, copyBytes, reuseBytes := [], [], 0, 0;
    assert SumOf(plan.expected, []) == 0;
    hide SumOf;
    var left := plan.expected.Keys;
    var team := OfTeam(plan.team);
    while left != {}
      invariant left <= plan.expected.Keys
      invariant forall h :: h in copy <==> h in plan.expected && h !in left && (team, h) !in files
      invariant forall h :: h in reuse <==> h in plan.expected && h !in left && (team, h) in files
      invariant forall h :: h in plan.expected && h !in left ==>
        (plan.sourceOf[h], h) in files && (plan.sourceOf[h], h) !in broken && (team, h) !in broken
      invariant copyBytes == SumOf(plan.expected, copy) && reuseBytes == SumOf(plan.expected, reuse)
    {
      var h :| h in left;
      var source := (plan.sourceOf[h], h);
      if source in broken { return Refused(StorageError); }
      if source !in files { return Refused(SourceBlobMissing); }
      if (team, h) in broken { return Refused(StorageError); }
      if (team, h) in files {
        SumMore(plan.expected, reuse, h);
        reuse, reuseBytes := reuse + [h], reuseBytes + plan.expected[h];
      } else {
        SumMore(plan.expected, copy, h);
        copy, copyBytes := copy + [h], copyBytes + plan.expected[h];
      }
      left := left - {h};
    }
    return Ok(plan.(copyHashes := copy, reuseHashes := reuse, copyBytes := copyBytes, reuseBytes := reuseBytes));
  }
}
