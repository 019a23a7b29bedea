/**
 The rows behind artifact sync and the transactions that write them. Each
 transaction is a function on the whole store; a lost guard leaves the store as
 it was. `StoreOk` is what every reachable store satisfies and `Evolves` is what
 no transaction ever undoes.
 */
module ArtifactStore {
  import opened Wrappers

  type Namespace = nat
  type MachineId = nat
  type LoopId = nat
  type SyncId = nat
  type RequestId = nat
  type ManifestId = nat
  type RunId = nat
  type Time = int

  const REVISION_MAX: nat := 0x7FFF_FFFF
  const SESSION_TTL: nat := 3_600_000

  /** SHA-256 as an injective function: a hash is identified with its content. */
  datatype Hash = Sha256(content: seq<bv8>)

  datatype Entry = Entry(path: string, hash: Hash, size: nat)

  /** What a prepare fingerprint covers: everything but the request id. Equal
      fingerprints mean equal payloads (`PayloadFingerprint.SamePrintSamePayload`). */
  datatype Payload = Payload(loopId: LoopId, config: nat, base: nat, entries: seq<Entry>)

  datatype Receipt = Receipt(snapshot: ManifestId, revision: nat)

  datatype Session = Session(ns: Namespace, machine: MachineId, requestId: RequestId, payload: Payload,
                             negotiated: seq<Hash>, expiresAt: Time, receipt: Option<Receipt>)

  datatype Manifest = Manifest(ns: Namespace, machine: MachineId, loopId: LoopId, config: nat, revision: nat,
                               entries: seq<Entry>, fileCount: nat, totalBytes: nat)

  /** The sync-attempt triple. `bound` is an auxiliary note of the config
      generation that the last writer of the triple was bound to. */
  datatype Attempt = Attempt(attemptedAt: Option<Time>, succeededAt: Option<Time>, error: Option<string>, bound: nat)

  const CLEAR := Attempt(None, None, None, 0)

  datatype Loop = Loop(machine: MachineId, dir: Option<string>, workdir: Option<string>, config: nat,
                       manifestRevision: nat, manifestId: Option<ManifestId>, revision: nat, attempt: Attempt)

  datatype Run = Run(machine: MachineId, loopId: LoopId, phase: nat, snapshot: Option<ManifestId>,
                     syncError: Option<string>)

  /** `retired` remembers the loop ids that were deleted; ids are not reused. */
  datatype Store = Store(loops: map<LoopId, Loop>, retired: set<LoopId>, sessions: map<SyncId, Session>,
                         manifests: map<ManifestId, Manifest>, blobs: map<(Namespace, Hash), nat>,
                         runs: map<RunId, Run>)

  // ---- Entries ----

  function TotalBytes(entries: seq<Entry>): nat {
    if entries == [] then 0 else entries[0].size + TotalBytes(entries[1..])
  }

  /** The distinct hashes of a manifest in first-occurrence order. */
  function Distinct(entries: seq<Entry>): (hashes: seq<Hash>)
    ensures forall h :: h in hashes <==> exists i :: 0 <= i < |entries| && entries[i].hash == h
  {
    if entries == [] then []
    else
      var last := entries[|entries| - 1].hash;
      var before := Distinct(entries[..|entries| - 1]);
      assert entries == entries[..|entries| - 1] + [entries[|entries| - 1]];
      if last in before then before else before + [last]
  }

  /** The policy's one-size-per-hash rule. */
  ghost predicate OneSizePerHash(entries: seq<Entry>) {
    forall i, j :: 0 <= i < |entries| && 0 <= j < |entries| && entries[i].hash == entries[j].hash
                   ==> entries[i].size == entries[j].size
  }

  /** What the manifest policy guarantees of every list it accepts. */
  ghost predicate Normalized(entries: seq<Entry>) { OneSizePerHash(entries) && DistinctPaths(entries) }

  ghost predicate DistinctPaths(entries: seq<Entry>) {
    forall i, j :: 0 <= i < j < |entries| ==> entries[i].path != entries[j].path
  }

  /** The size negotiated for a hash: that of its first entry. */
  function SizeFor(entries: seq<Entry>, h: Hash): Option<nat> {
    if entries == [] then None
    else if entries[0].hash == h then Some(entries[0].size)
    else SizeFor(entries[1..], h)
  }

  lemma {:induction false} SizeForEntry(entries: seq<Entry>, i: nat)
    requires OneSizePerHash(entries) && i < |entries|
    ensures SizeFor(entries, entries[i].hash) == Some(entries[i].size)
  {
    if entries[0].hash != entries[i].hash {
      SizeForEntry(entries[1..], i - 1);
    }
  }

  /** Every entry has a metadata row of its own size. */
  ghost predicate RowsBack(blobs: map<(Namespace, Hash), nat>, ns: Namespace, entries: seq<Entry>) {
    forall i :: 0 <= i < |entries| ==>
      (ns, entries[i].hash) in blobs && blobs[(ns, entries[i].hash)] == entries[i].size
  }

  // ---- Pure planners ----

  datatype PreparePlan = PlanInsert | PlanReuse(refresh: bool) | PlanCommitted | PlanConflict

  function PlanPrepare(existing: Option<Session>, payload: Payload, now: Time): PreparePlan {
    match existing
    case None => PlanInsert
    case Some(session) =>
      if session.payload != payload then PlanConflict
      else if session.receipt.Some? then PlanCommitted
      else PlanReuse(now >= session.expiresAt)
  }

  datatype Precheck = ReplayReceipt | Lapsed | ConfigMoved | BaseMoved | AtLimit | Proceed

  function PlanCommit(session: Session, loop: Loop, now: Time): Precheck {
    if session.receipt.Some? then ReplayReceipt
    else if now >= session.expiresAt then Lapsed
    else if session.payload.config != loop.config then ConfigMoved
    else if session.payload.base != loop.manifestRevision then BaseMoved
    else if loop.manifestRevision >= REVISION_MAX then AtLimit
    else Proceed
  }

  datatype ConfigPlan = ConfigNoop | ConfigInvalid | ConfigRelative | ConfigExhausted | ConfigChange(loop: Loop)

  function PlanConfig(loop: Loop, dir: Option<string>): ConfigPlan {
    if dir.Some? && (dir.value == "" || '\0' in dir.value) then ConfigInvalid
    else if dir.Some? && dir.value[0] != '/' && (loop.workdir.None? || loop.workdir.value == "") then ConfigRelative
    else if dir == loop.dir then ConfigNoop
    else if loop.config >= REVISION_MAX then ConfigExhausted
    else ConfigChange(loop.(dir := dir, config := loop.config + 1, attempt := CLEAR))
  }

  datatype BindPlan = BindSkip | BindTo(snapshot: ManifestId, generation: nat) | BindError(reason: string)

  function PlanBinding(run: Run, loopId: LoopId, loop: Loop, manifest: Option<(ManifestId, Manifest)>,
                       snapshot: Option<ManifestId>, syncError: Option<string>, syncErrorText: Option<string>,
                       attribution: Option<(Namespace, MachineId)>): BindPlan
  {
    if snapshot.None? && syncError.None? then BindSkip
    else if snapshot.Some? && syncError.Some? then BindError("ambiguous_artifact_report")
    else if syncError.Some? then (if syncErrorText.None? then BindSkip else BindError(syncErrorText.value))
    else if attribution.None? then BindError("attribution_missing")
    else if manifest.None? || manifest.value.0 != snapshot.value then BindError("snapshot_not_committed")
    else
      var m := manifest.value.1;
      if m.ns != attribution.value.0 then BindError("cross_namespace")
      else if m.machine != run.machine || m.machine != attribution.value.1 || loop.machine != run.machine
      then BindError("cross_machine")
      else if m.loopId != run.loopId || run.loopId != loopId then BindError("cross_loop")
      else if m.config != loop.config then BindError("stale_config_generation")
      else BindTo(manifest.value.0, loop.config)
  }

  // ---- Transactions ----

  /** Every write to a loop row goes through here and bumps its revision. */
  function WriteLoop(s: Store, id: LoopId, loop: Loop): Store {
    s.(loops := s.loops[id := loop.(revision := loop.revision + 1)])
  }

  predicate AtRevision(s: Store, id: LoopId, seen: Loop) {
    id in s.loops && s.loops[id].revision == seen.revision
  }

  /** Insert a session under the loop-row lock, unless its key is taken. */
  function InsertSession(s: Store, seen: Loop, sid: SyncId, session: Session): Option<Store> {
    if AtRevision(s, session.payload.loopId, seen) && sid !in s.sessions then
      Some(s.(sessions := s.sessions[sid := session]))
    else None
  }

  predicate SameKey(a: Session, b: Session) {
    a.ns == b.ns && a.machine == b.machine && a.requestId == b.requestId
  }

  predicate KeyTaken(s: Store, session: Session) {
    exists sid :: sid in s.sessions && SameKey(s.sessions[sid], session)
  }

  function Renew(s: Store, sid: SyncId, seen: Session, now: Time): Option<Store> {
    if sid in s.sessions && s.sessions[sid].receipt.None? && s.sessions[sid].expiresAt == seen.expiresAt then
      Some(s.(sessions := s.sessions[sid := s.sessions[sid].(expiresAt := now + SESSION_TTL)]))
    else None
  }

  function RegisterBlob(s: Store, ns: Namespace, hash: Hash, size: nat): Store {
    if (ns, hash) in s.blobs then s else s.(blobs := s.blobs[(ns, hash) := size])
  }

  /** Best-effort failure stamp, guarded on the seen revision and the session's generation. */
  function StampFailure(s: Store, id: LoopId, seen: Loop, config: nat, error: string, now: Time): Store {
    if AtRevision(s, id, seen) && s.loops[id].config == config then
      var loop := s.loops[id];
      WriteLoop(s, id, loop.(attempt := Attempt(Some(now), loop.attempt.succeededAt, Some(error), config)))
    else s
  }

  function ManifestOf(session: Session, revision: nat): Manifest {
    Manifest(session.ns, session.machine, session.payload.loopId, session.payload.config, revision,
             session.payload.entries, |session.payload.entries|, TotalBytes(session.payload.entries))
  }

  /** The commit transaction's writes: loop row, manifest, receipt; or nothing. */
  function Commit(s: Store, sid: SyncId, live: Loop, mid: ManifestId, now: Time): Option<Store> {
    if sid in s.sessions && AtRevision(s, s.sessions[sid].payload.loopId, live)
       && mid !in s.manifests && s.sessions[sid].receipt.None? then
      var session := s.sessions[sid];
      var id := session.payload.loopId;
      var revision := live.manifestRevision + 1;
      var loop := s.loops[id].(manifestId := Some(mid), manifestRevision := revision,
                               attempt := Attempt(Some(now), Some(now), None, session.payload.config));
      Some(WriteLoop(s, id, loop).(
             manifests := s.manifests[mid := ManifestOf(session, revision)],
             sessions := s.sessions[sid := session.(receipt := Some(Receipt(mid, revision)))]))
    else None
  }

  function UpdateConfig(s: Store, id: LoopId, seen: Loop, planned: Loop): Option<Store> {
    if AtRevision(s, id, seen) then
      Some(WriteLoop(s, id, s.loops[id].(dir := planned.dir, config := planned.config, attempt := planned.attempt)))
    else None
  }

  function RecordSyncError(s: Store, id: LoopId, seen: Loop, config: nat, base: nat, error: string,
                           now: Time): Option<Store> {
    if AtRevision(s, id, seen) && s.loops[id].config == config && s.loops[id].manifestRevision == base then
      var loop := s.loops[id];
      Some(WriteLoop(s, id, loop.(attempt := Attempt(Some(now), loop.attempt.succeededAt, Some(error), config))))
    else None
  }

  /** The binding update: keyed on the run's phase and, for a bind, on the loop's
      current generation. */
  function ApplyBinding(s: Store, rid: RunId, seen: Run, plan: BindPlan): Option<Store> {
    if plan.BindSkip? then Some(s)
    else if rid !in s.runs || s.runs[rid].phase != seen.phase then None
    else if plan.BindError? then
      Some(s.(runs := s.runs[rid := s.runs[rid].(snapshot := None, syncError := Some(plan.reason))]))
    else if seen.loopId !in s.loops || s.loops[seen.loopId].config != plan.generation then None
    else Some(s.(runs := s.runs[rid := s.runs[rid].(snapshot := Some(plan.snapshot))]))
  }

  // ---- What every reachable store satisfies ----

  ghost predicate LoopKnown(s: Store, id: LoopId) { id in s.loops || id in s.retired }

  ghost predicate SessionOk(s: Store, sid: SyncId)
    requires sid in s.sessions
  {
    var session := s.sessions[sid];
    var id := session.payload.loopId;
    && LoopKnown(s, id) && Normalized(session.payload.entries)
    && session.negotiated == Distinct(session.payload.entries)
    && (id in s.loops ==>
          session.payload.base <= s.loops[id].manifestRevision && session.payload.config <= s.loops[id].config)
    && (session.receipt.Some? ==>
          && session.receipt.value.snapshot in s.manifests
          && session.receipt.value.revision == session.payload.base + 1
          && s.manifests[session.receipt.value.snapshot] == ManifestOf(session, session.payload.base + 1))
  }

  /** Some session holds the receipt of manifest `mid`. */
  ghost predicate Receipted(s: Store, mid: ManifestId) {
    exists sid :: sid in s.sessions && s.sessions[sid].receipt.Some? && s.sessions[sid].receipt.value.snapshot == mid
  }

  /** Some manifest of the loop carries this revision. */
  ghost predicate Numbered(s: Store, id: LoopId, revision: nat) {
    exists mid :: mid in s.manifests && s.manifests[mid].loopId == id && s.manifests[mid].revision == revision
  }

  ghost predicate ManifestOk(s: Store, mid: ManifestId)
    requires mid in s.manifests
  {
    var m := s.manifests[mid];
    && Receipted(s, mid) && LoopKnown(s, m.loopId) && 1 <= m.revision
    && (m.loopId in s.loops ==>
        m.revision <= s.loops[m.loopId].manifestRevision && m.config <= s.loops[m.loopId].config)
    && RowsBack(s.blobs, m.ns, m.entries)
    && m.fileCount == |m.entries| && m.totalBytes == TotalBytes(m.entries)
  }

  ghost predicate LoopOk(s: Store, id: LoopId)
    requires id in s.loops
  {
    var loop := s.loops[id];
    && id !in s.retired
    && (loop.manifestRevision == 0 <==> loop.manifestId.None?)
    && (loop.manifestId.Some? ==>
          && loop.manifestId.value in s.manifests
          && s.manifests[loop.manifestId.value].loopId == id
          && s.manifests[loop.manifestId.value].revision == loop.manifestRevision)
    && (forall r :: 1 <= r <= loop.manifestRevision ==> Numbered(s, id, r))
    && (Untouched(loop.attempt) || loop.attempt.bound == loop.config)
  }

  predicate Untouched(a: Attempt) { a.attemptedAt.None? && a.succeededAt.None? && a.error.None? }

  ghost predicate RunOk(s: Store, rid: RunId)
    requires rid in s.runs
  {
    s.runs[rid].snapshot.Some? ==>
      && s.runs[rid].snapshot.value in s.manifests
      && s.manifests[s.runs[rid].snapshot.value].loopId == s.runs[rid].loopId
      && s.manifests[s.runs[rid].snapshot.value].machine == s.runs[rid].machine
  }

  predicate SameReceipt(a: Session, b: Session) {
    a.receipt.Some? && b.receipt.Some? && a.receipt.value.snapshot == b.receipt.value.snapshot
  }

  predicate SameNumber(a: Manifest, b: Manifest) { a.loopId == b.loopId && a.revision == b.revision }

  ghost predicate KeysUnique(s: Store) {
    forall a, b :: a in s.sessions && b in s.sessions && SameKey(s.sessions[a], s.sessions[b]) ==> a == b
  }

  ghost predicate ReceiptsUnique(s: Store) {
    forall a, b :: a in s.sessions && b in s.sessions && SameReceipt(s.sessions[a], s.sessions[b]) ==> a == b
  }

  ghost predicate NumbersUnique(s: Store) {
    forall a, b :: a in s.manifests && b in s.manifests && SameNumber(s.manifests[a], s.manifests[b]) ==> a == b
  }

  ghost predicate LoopsOk(s: Store) { forall id :: id in s.loops ==> LoopOk(s, id) }
  ghost predicate SessionsOk(s: Store) { forall sid :: sid in s.sessions ==> SessionOk(s, sid) }
  ghost predicate ManifestsOk(s: Store) { forall mid :: mid in s.manifests ==> ManifestOk(s, mid) }
  ghost predicate RunsOk(s: Store) { forall rid :: rid in s.runs ==> RunOk(s, rid) }
  ghost predicate BlobsOk(s: Store) { forall k :: k in s.blobs ==> s.blobs[k] == |k.1.content| }

  ghost predicate StoreOk(s: Store) {
    && LoopsOk(s) && SessionsOk(s) && ManifestsOk(s) && RunsOk(s) && BlobsOk(s)
    && KeysUnique(s) && ReceiptsUnique(s) && NumbersUnique(s)
  }

  // ---- What no transaction undoes ----

  ghost predicate SessionLater(a: Session, b: Session) {
    && b == a.(expiresAt := b.expiresAt, receipt := b.receipt)
    && (a.receipt.Some? ==> b.receipt == a.receipt)
  }

  ghost predicate LoopLater(a: Loop, b: Loop) {
    && a.revision <= b.revision && a.config <= b.config && a.manifestRevision <= b.manifestRevision
    && a.machine == b.machine
    && (a.revision == b.revision ==> a == b)
  }

  /** A session that can never be committed: no receipt, and its base is passed. */
  ghost predicate Dead(s: Store, sid: SyncId) {
    && sid in s.sessions && s.sessions[sid].receipt.None?
    && var id := s.sessions[sid].payload.loopId;
       id in s.retired || (id in s.loops && s.sessions[sid].payload.base < s.loops[id].manifestRevision)
  }

  /** A run keeps its loop and its machine. */
  predicate SameRun(a: Run, b: Run) { a.loopId == b.loopId && a.machine == b.machine }

  ghost predicate Evolves(s: Store, t: Store) { RowsEvolve(s, t) && StaysDead(s, t) }

  ghost predicate StaysDead(s: Store, t: Store) { forall sid :: Dead(s, sid) ==> Dead(t, sid) }

  ghost predicate RowsEvolve(s: Store, t: Store) {
    && (forall sid :: sid in s.sessions ==> sid in t.sessions && SessionLater(s.sessions[sid], t.sessions[sid]))
    && (forall mid :: mid in s.manifests ==> mid in t.manifests && t.manifests[mid] == s.manifests[mid])
    && (forall k :: k in s.blobs ==> k in t.blobs && t.blobs[k] == s.blobs[k])
    && (forall id :: id in s.loops ==> if id in t.loops then LoopLater(s.loops[id], t.loops[id]) else id in t.retired)
    && (forall id :: id in s.retired ==> id in t.retired && id !in t.loops)
    && (forall rid :: rid in s.runs ==> rid in t.runs && SameRun(s.runs[rid], t.runs[rid]))
  }

  lemma EvolvesTransitive(s: Store, t: Store, u: Store)
    requires Evolves(s, t) && Evolves(t, u)
    ensures Evolves(s, u)
  {
  }

  // ---- Every transaction keeps the store well formed and evolves it ----

  ghost predicate Keeps(s: Store, t: Store) { StoreOk(t) && Evolves(s, t) }

  // Rows that a transaction does not touch keep their part of the invariant.

  lemma LoopFrame(s: Store, t: Store, id: LoopId)
    requires id in s.loops && LoopOk(s, id) && Evolves(s, t) && id in t.loops && id !in t.retired
    requires t.loops[id].manifestRevision == s.loops[id].manifestRevision
      && t.loops[id].manifestId == s.loops[id].manifestId
    requires Untouched(t.loops[id].attempt) || t.loops[id].attempt.bound == t.loops[id].config
    ensures LoopOk(t, id)
  {
    forall r | 1 <= r <= t.loops[id].manifestRevision ensures Numbered(t, id, r) {
      assert Numbered(s, id, r);
    }
  }

  lemma SessionFrame(s: Store, t: Store, sid: SyncId)
    requires sid in s.sessions && SessionOk(s, sid) && Evolves(s, t)
      && t.sessions[sid].receipt == s.sessions[sid].receipt
    requires forall id :: id in t.loops && id !in s.loops ==> id !in s.retired
    ensures SessionOk(t, sid)
  {
  }

  lemma ManifestFrame(s: Store, t: Store, mid: ManifestId)
    requires mid in s.manifests && ManifestOk(s, mid) && Evolves(s, t)
    requires forall id :: id in t.loops && id !in s.loops ==> id !in s.retired
    ensures ManifestOk(t, mid)
  {
    var sid :| sid in s.sessions && s.sessions[sid].receipt.Some? && s.sessions[sid].receipt.value.snapshot == mid;
    assert t.sessions[sid].receipt == s.sessions[sid].receipt;
  }

  lemma RunsFrame(s: Store, t: Store)
    requires RunsOk(s) && t.runs == s.runs && Evolves(s, t)
    ensures RunsOk(t)
  {
    assert forall rid :: rid in s.runs ==> RunOk(s, rid);
  }

  lemma LoopFacts(s: Store)
    requires LoopsOk(s)
    ensures forall id :: id in s.loops ==>
              id !in s.retired && (Untouched(s.loops[id].attempt) || s.loops[id].attempt.bound == s.loops[id].config)
  {
    assert forall i :: i in s.loops ==> LoopOk(s, i);
  }

  /** The frame for a transaction that writes no manifest and no receipt, and
      does not move the current manifest. */
  lemma QuietKeeps(s: Store, t: Store)
    requires StoreOk(s) && Evolves(s, t) && t.manifests == s.manifests && KeysUnique(t) && BlobsOk(t)
    requires t.runs == s.runs || RunsOk(t)
    requires forall id :: id in t.loops && id !in s.loops ==> id !in s.retired && LoopOk(t, id)
    requires forall id :: id in t.loops && id in s.loops ==>
               && id !in t.retired
               && t.loops[id].manifestRevision == s.loops[id].manifestRevision
               && t.loops[id].manifestId == s.loops[id].manifestId
               && (Untouched(t.loops[id].attempt) || t.loops[id].attempt.bound == t.loops[id].config)
    requires forall sid :: sid in s.sessions ==> t.sessions[sid].receipt == s.sessions[sid].receipt
    requires forall sid :: sid in t.sessions && sid !in s.sessions ==>
      SessionOk(t, sid) && t.sessions[sid].receipt.None?
    ensures Keeps(s, t)
  {
    hide SessionOk, LoopOk, ManifestOk, Evolves;
    if t.runs == s.runs { RunsFrame(s, t); }
    forall id | id in t.loops ensures LoopOk(t, id) { if id in s.loops { LoopFrame(s, t, id); } }
    forall sid | sid in t.sessions ensures SessionOk(t, sid) { if sid in s.sessions { SessionFrame(s, t, sid); } }
    forall mid | mid in t.manifests ensures ManifestOk(t, mid) { ManifestFrame(s, t, mid); }
    forall a, b | a in t.sessions && b in t.sessions && SameReceipt(t.sessions[a], t.sessions[b]) ensures a == b {
      assert SameReceipt(s.sessions[a], s.sessions[b]);
    }
  }

  /** A loop-row write that leaves the current manifest alone. */
  lemma WriteLoopKeeps(s: Store, id: LoopId, loop: Loop)
    requires StoreOk(s) && id in s.loops
    requires loop.machine == s.loops[id].machine && loop.revision == s.loops[id].revision
    requires loop.manifestRevision == s.loops[id].manifestRevision && loop.manifestId == s.loops[id].manifestId
    requires s.loops[id].config <= loop.config && (Untouched(loop.attempt) || loop.attempt.bound == loop.config)
    ensures Keeps(s, WriteLoop(s, id, loop))
  {
    hide ManifestOk, SessionOk, LoopOk, RunOk;
    LoopFacts(s);
    QuietKeeps(s, WriteLoop(s, id, loop));
  }

  /** A session that is new, or an open one with another expiry. */
  lemma SessionWriteEvolves(s: Store, sid: SyncId, session: Session)
    requires LoopsOk(s) && session.receipt.None?
    requires sid in s.sessions ==> session == s.sessions[sid].(expiresAt := session.expiresAt)
    ensures Evolves(s, s.(sessions := s.sessions[sid := session]))
  {
    hide LoopOk, LoopsOk;
    LoopFacts(s);
  }

  lemma CreateEvolves(s: Store, id: LoopId, loop: Loop)
    requires StoreOk(s) && !LoopKnown(s, id)
    ensures Evolves(s, s.(loops := s.loops[id := loop]))
  {
    hide ManifestOk, LoopOk, RunsOk, ManifestsOk, KeysUnique, NumbersUnique, ReceiptsUnique, BlobsOk;
    LoopFacts(s);
    assert forall sid :: sid in s.sessions ==> SessionOk(s, sid);
  }

  lemma InsertKeeps(s: Store, seen: Loop, sid: SyncId, session: Session)
    requires StoreOk(s) && InsertSession(s, seen, sid, session).Some? && !KeyTaken(s, session)
    requires session.receipt.None? && Normalized(session.payload.entries)
    requires session.negotiated == Distinct(session.payload.entries)
    requires s.loops[session.payload.loopId] == seen && session.payload.config == seen.config
    requires session.payload.base == seen.manifestRevision
    ensures Keeps(s, InsertSession(s, seen, sid, session).value)
  {
    hide ManifestOk, LoopOk, RunOk, Distinct, Normalized, Evolves;
    var t := InsertSession(s, seen, sid, session).value;
    SessionWriteEvolves(s, sid, session);
    assert forall x :: x in s.sessions ==> !SameKey(s.sessions[x], session);
    forall a, b | a in t.sessions && b in t.sessions && SameKey(t.sessions[a], t.sessions[b]) ensures a == b {
      assert a in s.sessions && b in s.sessions ==> SameKey(s.sessions[a], s.sessions[b]);
    }
    LoopFacts(s);
    QuietKeeps(s, t);
  }

  lemma RenewKeeps(s: Store, sid: SyncId, seen: Session, now: Time)
    requires StoreOk(s) && Renew(s, sid, seen, now).Some?
    ensures Keeps(s, Renew(s, sid, seen, now).value)
  {
    hide ManifestOk, SessionOk, LoopOk, RunOk, Evolves;
    var t := Renew(s, sid, seen, now).value;
    SessionWriteEvolves(s, sid, t.sessions[sid]);
    forall a, b | a in t.sessions && b in t.sessions && SameKey(t.sessions[a], t.sessions[b]) ensures a == b {
      assert SameKey(s.sessions[a], s.sessions[b]);
    }
    LoopFacts(s);
    QuietKeeps(s, t);
  }

  lemma RegisterKeeps(s: Store, ns: Namespace, hash: Hash, size: nat)
    requires StoreOk(s) && size == |hash.content|
    ensures Keeps(s, RegisterBlob(s, ns, hash, size))
  {
    hide ManifestsOk, SessionsOk, LoopsOk, RunsOk, SameKey, SameReceipt, SameNumber, Evolves, BlobsOk;
    RegisterEvolves(s, ns, hash, size);
    LoopFacts(s);
    QuietKeeps(s, RegisterBlob(s, ns, hash, size));
  }

  lemma RegisterEvolves(s: Store, ns: Namespace, hash: Hash, size: nat)
    requires LoopsOk(s) && BlobsOk(s) && size == |hash.content|
    ensures Evolves(s, RegisterBlob(s, ns, hash, size)) && BlobsOk(RegisterBlob(s, ns, hash, size))
  {
    hide LoopOk, LoopsOk;
    LoopFacts(s);
    assert (ns, hash).1 == hash;
  }

  /** An out-of-band deletion of a loop row. */
  lemma DeleteKeeps(s: Store, id: LoopId)
    requires StoreOk(s) && id in s.loops
    ensures Keeps(s, s.(loops := s.loops - {id}, retired := s.retired + {id}))
  {
    hide ManifestOk, SessionOk, LoopOk, RunOk;
    LoopFacts(s);
    QuietKeeps(s, s.(loops := s.loops - {id}, retired := s.retired + {id}));
  }

  /** A new, never synced loop under an id that was never used. */
  lemma CreateKeeps(s: Store, id: LoopId, loop: Loop)
    requires StoreOk(s) && !LoopKnown(s, id) && loop.manifestRevision == 0 && loop.manifestId.None?
      && Untouched(loop.attempt)
    ensures Keeps(s, s.(loops := s.loops[id := loop]))
  {
    hide ManifestOk, Evolves;
    var t := s.(loops := s.loops[id := loop]);
    LoopFacts(s);
    CreateEvolves(s, id, loop);
    QuietKeeps(s, t);
  }

  lemma RunsKeep(s: Store, runs: map<RunId, Run>)
    requires StoreOk(s) && RunsOk(s.(runs := runs))
    requires forall rid :: rid in s.runs ==> rid in runs && SameRun(s.runs[rid], runs[rid])
    ensures Keeps(s, s.(runs := runs))
  {
    hide ManifestOk, SessionOk, LoopOk, RunOk;
    LoopFacts(s);
    QuietKeeps(s, s.(runs := runs));
  }

  lemma BindKeeps(s: Store, rid: RunId, seen: Run, plan: BindPlan)
    requires StoreOk(s) && ApplyBinding(s, rid, seen, plan).Some?
    requires plan.BindTo? && rid in s.runs ==>
               && plan.snapshot in s.manifests && s.manifests[plan.snapshot].loopId == s.runs[rid].loopId
               && s.manifests[plan.snapshot].machine == s.runs[rid].machine
    ensures Keeps(s, ApplyBinding(s, rid, seen, plan).value)
  {
    hide ManifestOk, Numbered, SessionOk, LoopOk;
    assert forall rid :: rid in s.runs ==> RunOk(s, rid);
    var t := ApplyBinding(s, rid, seen, plan).value;
    assert t == s.(runs := t.runs);
    RunsKeep(s, t.runs);
  }

  /** The commit lands only where the revision, base and rows were verified. */
  lemma CommitKeeps(s: Store, sid: SyncId, live: Loop, mid: ManifestId, now: Time)
    requires StoreOk(s) && Commit(s, sid, live, mid, now).Some? && Committable(s, sid, live)
    ensures Keeps(s, Commit(s, sid, live, mid, now).value)
  {
    hide SessionOk, LoopOk, ManifestOk, Evolves, RunOk, SameReceipt, SameKey, SameNumber, Commit, Committable;
    var t := Commit(s, sid, live, mid, now).value;
    CommitEvolves(s, sid, live, mid, now);
    CommitLoops(s, sid, live, mid, now);
    CommitManifests(s, sid, live, mid, now);
    CommitUnique(s, sid, live, mid, now);
  }

  ghost predicate Committable(s: Store, sid: SyncId, live: Loop)
    requires sid in s.sessions && s.sessions[sid].payload.loopId in s.loops
  {
    var session := s.sessions[sid];
    && s.loops[session.payload.loopId] == live
    && session.payload.config == live.config && session.payload.base == live.manifestRevision
    && RowsBack(s.blobs, session.ns, session.payload.entries)
  }

  lemma CommitEvolves(s: Store, sid: SyncId, live: Loop, mid: ManifestId, now: Time)
    requires StoreOk(s) && Commit(s, sid, live, mid, now).Some? && Committable(s, sid, live)
    ensures var t := Commit(s, sid, live, mid, now).value; Evolves(s, t) && RunsOk(t) && BlobsOk(t) && SessionsOk(t)
  {
    hide ManifestOk, LoopOk, RunOk, RowsBack, TotalBytes, SessionOk, LoopsOk, RunsOk, SessionsOk, ManifestsOk, SameKey,
         SameReceipt, SameNumber;
    var t := Commit(s, sid, live, mid, now).value;
    LoopFacts(s);
    CommitRows(s, sid, live, mid, now);
    CommitKeepsDead(s, sid, live, mid, now);
    hide RowsEvolve, StaysDead, Commit;
    RunsFrame(s, t);
    CommitSessions(s, sid, live, mid, now);
  }

  lemma CommitRows(s: Store, sid: SyncId, live: Loop, mid: ManifestId, now: Time)
    requires Commit(s, sid, live, mid, now).Some? && Committable(s, sid, live) && LoopsOk(s)
    ensures RowsEvolve(s, Commit(s, sid, live, mid, now).value)
  {
    hide LoopOk, RowsBack, TotalBytes, LoopsOk;
    LoopFacts(s);
  }

  lemma CommitKeepsDead(s: Store, sid: SyncId, live: Loop, mid: ManifestId, now: Time)
    requires Commit(s, sid, live, mid, now).Some? && Committable(s, sid, live) && LoopsOk(s)
    ensures StaysDead(s, Commit(s, sid, live, mid, now).value)
  {
    hide RowsBack, TotalBytes, Numbered;
    LoopFacts(s);
  }

  lemma CommitSessions(s: Store, sid: SyncId, live: Loop, mid: ManifestId, now: Time)
    requires StoreOk(s) && Commit(s, sid, live, mid, now).Some? && Committable(s, sid, live)
    requires Evolves(s, Commit(s, sid, live, mid, now).value)
    ensures SessionsOk(Commit(s, sid, live, mid, now).value)
  {
    hide ManifestOk, LoopOk, RunOk, RowsBack, TotalBytes, Normalized, Distinct, Evolves;
    var t := Commit(s, sid, live, mid, now).value;
    assert SessionOk(s, sid);
    forall x | x in t.sessions ensures SessionOk(t, x) {
      if x != sid { SessionFrame(s, t, x); }
    }
  }

  lemma CommitLoops(s: Store, sid: SyncId, live: Loop, mid: ManifestId, now: Time)
    requires StoreOk(s) && Commit(s, sid, live, mid, now).Some? && Committable(s, sid, live)
    requires Evolves(s, Commit(s, sid, live, mid, now).value)
    ensures LoopsOk(Commit(s, sid, live, mid, now).value)
  {
    hide ManifestOk, SessionOk, RowsBack, TotalBytes;
    var t := Commit(s, sid, live, mid, now).value;
    var id := s.sessions[sid].payload.loopId;
    assert forall i :: i in s.loops ==> LoopOk(s, i);
    forall i | i in t.loops ensures LoopOk(t, i) {
      if i != id {
        LoopFrame(s, t, i);
      } else {
        forall r | 1 <= r <= t.loops[i].manifestRevision ensures Numbered(t, i, r) {
          if r == t.loops[i].manifestRevision {
            assert t.manifests[mid].loopId == i && t.manifests[mid].revision == r;
          } else {
            assert Numbered(s, i, r);
            var m :| m in s.manifests && s.manifests[m].loopId == i && s.manifests[m].revision == r;
            assert t.manifests[m] == s.manifests[m];
          }
        }
      }
    }
  }

  lemma CommitManifests(s: Store, sid: SyncId, live: Loop, mid: ManifestId, now: Time)
    requires StoreOk(s) && Commit(s, sid, live, mid, now).Some? && Committable(s, sid, live)
    requires Evolves(s, Commit(s, sid, live, mid, now).value)
    ensures ManifestsOk(Commit(s, sid, live, mid, now).value)
  {
    hide SessionOk, LoopOk, TotalBytes;
    var t := Commit(s, sid, live, mid, now).value;
    forall m | m in t.manifests ensures ManifestOk(t, m) {
      if m == mid {
        assert t.sessions[sid].receipt.value.snapshot == mid;
      } else {
        ManifestFrame(s, t, m);
      }
    }
  }

  lemma CommitUnique(s: Store, sid: SyncId, live: Loop, mid: ManifestId, now: Time)
    requires StoreOk(s) && Commit(s, sid, live, mid, now).Some? && Committable(s, sid, live)
    ensures var t := Commit(s, sid, live, mid, now).value; KeysUnique(t) && ReceiptsUnique(t) && NumbersUnique(t)
  {
    CommitKeysUnique(s, sid, live, mid, now);
    CommitReceiptsUnique(s, sid, live, mid, now);
    CommitNumbersUnique(s, sid, live, mid, now);
    hide *;
  }

  lemma CommitKeysUnique(s: Store, sid: SyncId, live: Loop, mid: ManifestId, now: Time)
    requires KeysUnique(s) && Commit(s, sid, live, mid, now).Some?
    ensures KeysUnique(Commit(s, sid, live, mid, now).value)
  {
    hide TotalBytes;
    var t := Commit(s, sid, live, mid, now).value;
    forall a, b | a in t.sessions && b in t.sessions && SameKey(t.sessions[a], t.sessions[b]) ensures a == b {
      assert SameKey(s.sessions[a], s.sessions[b]);
    }
  }

  lemma CommitReceiptsUnique(s: Store, sid: SyncId, live: Loop, mid: ManifestId, now: Time)
    requires SessionsOk(s) && ReceiptsUnique(s) && Commit(s, sid, live, mid, now).Some?
    ensures ReceiptsUnique(Commit(s, sid, live, mid, now).value)
  {
    hide LoopOk, Numbered, RowsBack, TotalBytes;
    var t := Commit(s, sid, live, mid, now).value;
    assert forall x :: x in s.sessions ==> SessionOk(s, x);
    forall a, b | a in t.sessions && b in t.sessions && SameReceipt(t.sessions[a], t.sessions[b]) ensures a == b {
      if a != sid && b != sid { assert SameReceipt(s.sessions[a], s.sessions[b]); }
    }
  }

  lemma CommitNumbersUnique(s: Store, sid: SyncId, live: Loop, mid: ManifestId, now: Time)
    requires ManifestsOk(s) && NumbersUnique(s) && Commit(s, sid, live, mid, now).Some? && Committable(s, sid, live)
    ensures NumbersUnique(Commit(s, sid, live, mid, now).value)
  {
    hide LoopOk, Numbered, RowsBack, TotalBytes;
    var t := Commit(s, sid, live, mid, now).value;
    assert forall m :: m in s.manifests ==> ManifestOk(s, m);
    forall a, b | a in t.manifests && b in t.manifests && SameNumber(t.manifests[a], t.manifests[b]) ensures a == b {
      if a != mid && b != mid { assert SameNumber(s.manifests[a], s.manifests[b]); }
    }
  }
}
