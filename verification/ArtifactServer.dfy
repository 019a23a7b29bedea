/**
 The artifact operations as interleaved programs. Between two awaits an
 operation sees exactly one SQL statement, one transaction, or one answer from
 outside (clock, attribution, blob store, id factory, a storage fault); those
 answers are the `Oracle` of a step. The commit transaction's two reads are steps
 of their own, its writes are one.
 */
module ArtifactServer {
  import opened Wrappers
  import opened ArtifactStore

  datatype Call =
    | Prepare(machine: MachineId, requestId: RequestId, payload: Payload)
    | Put(machine: MachineId, sid: SyncId, hash: Hash)
    | CommitSync(machine: MachineId, sid: SyncId)
    | Configure(id: LoopId, dir: Option<string>)
    | ReportError(machine: MachineId, id: LoopId, config: nat, base: nat, error: string)
    /** `attributed` is the machine the caller's attribution speaks for. */
    | BindSnapshot(rid: RunId, snapshot: Option<ManifestId>, syncError: Option<string>, syncErrorText: Option<string>,
                   attributed: MachineId)
    | ReadLoop(machine: MachineId, id: LoopId)

  datatype Failure =
    | AttributionMissing | LoopNotFound | SessionNotFound | Unconfigured | ConfigConflict | ManifestConflict
    | SessionExpired | SessionCommitted | HashNotNegotiated | ContentMismatch | BlobMissing | StorageError
    | RevisionExhausted | ConfigRejected | NotRecorded
    /** The guard was lost again on the one bounded re-run: thrown, never a result. */
    | RaceLost

  datatype Result =
    | Failed(failure: Failure)
    | Prepared(sid: SyncId, need: seq<Hash>)
    | Uploaded
    | Committed(receipt: Receipt)
    | Viewed(config: nat, revision: nat, dir: string)
    | Accepted

  /** What a commit saw before its transaction. */
  datatype Seen = Seen(ns: Namespace, loop: Loop, session: Session, now: Time)

  datatype Pc =
    | Begin
    | PreLoop(ns: Namespace)
    | PreKey(ns: Namespace, loop: Loop)
    | PreInsert(ns: Namespace, loop: Loop, now: Time)
    | PreRenew(sid: SyncId, session: Session, now: Time)
    | PreReread(sid: SyncId)
    | PreNeed(sid: SyncId, session: Session, need: seq<Hash>, i: nat)
    | PreHas(sid: SyncId, session: Session, need: seq<Hash>, i: nat)
    | PutSession(ns: Namespace)
    | PutLoop(session: Session)
    | PutWrite(session: Session)
    | PutAgain(size: nat)
    | PutSessionAgain(ns: Namespace, size: nat)
    | PutLoopAgain(session: Session, size: nat)
    | PutRow(session: Session, size: nat)
    | ComProbe(ns: Namespace)
    | ComLoop(ns: Namespace, id: LoopId)
    | ComSession(ns: Namespace, id: LoopId, found: Option<Loop>)
    | ComBlob(seen: Seen, i: nat)
    | ComHas(seen: Seen, i: nat)
    | ComLive(seen: Seen)
    | ComLiveSession(seen: Seen, live: Loop)
    | ComWrite(seen: Seen, live: Loop)
    | ComStamp(seen: Seen, failure: Failure)
    | CfgWrite(loop: Loop, planned: Loop)
    | RepLoop(ns: Namespace)
    | RepWrite(loop: Loop)
    | BindManifest(run: Run)
    | BindLoop(run: Run, manifest: Option<(ManifestId, Manifest)>)
    | BindWrite(run: Run, plan: BindPlan)
    | Done(result: Result)

  datatype Op = Op(call: Call, retried: bool, pc: Pc)

  datatype Fault = NoFault | RolledBack | AckLost

  datatype Oracle = Oracle(now: Time, ns: Option<Namespace>, minted: nat, found: Option<SyncId>,
                           bytes: seq<bv8>, present: Option<bool>, fault: Fault)

  datatype Move = Move(store: Store, op: Op)

  function Goto(s: Store, op: Op, pc: Pc): Move { Move(s, op.(pc := pc)) }
  function Finish(s: Store, op: Op, r: Result): Move { Goto(s, op, Done(r)) }
  function Fail(s: Store, op: Op, f: Failure): Move { Finish(s, op, Failed(f)) }

  /** One bounded re-run on fresh state, then the race is reported as lost. */
  function GuardLost(s: Store, op: Op): Move {
    if op.retried then Fail(s, op, RaceLost) else Move(s, op.(retried := true, pc := Begin))
  }

  function Find<K, V>(m: map<K, V>, k: K): Option<V> { if k in m then Some(m[k]) else None }

  predicate KeyIs(session: Session, ns: Namespace, call: Call)
    requires call.Prepare?
  {
    session.ns == ns && session.machine == call.machine && session.requestId == call.requestId
  }

  /** The answer to the select by idempotency key. */
  predicate FoundIsRight(s: Store, ns: Namespace, call: Call, found: Option<SyncId>)
    requires call.Prepare?
  {
    match found
    case None => forall sid :: sid in s.sessions ==> !KeyIs(s.sessions[sid], ns, call)
    case Some(sid) => sid in s.sessions && KeyIs(s.sessions[sid], ns, call)
  }

  function NewSession(ns: Namespace, call: Call, now: Time): Session
    requires call.Prepare?
  {
    Session(ns, call.machine, call.requestId, call.payload, Distinct(call.payload.entries), now + SESSION_TTL, None)
  }

  /** A negotiated hash has a row of its negotiated size. */
  predicate RowMatches(s: Store, session: Session, h: Hash) {
    (session.ns, h) in s.blobs && Some(s.blobs[(session.ns, h)]) == SizeFor(session.payload.entries, h)
  }

  /** What prepare does with a session it found or inserted. */
  function AfterPlan(s: Store, op: Op, sid: SyncId, session: Session, now: Time): Move
    requires op.call.Prepare?
  {
    match PlanPrepare(Some(session), op.call.payload, now)
    case PlanInsert => Goto(s, op, op.pc)
    case PlanConflict => Fail(s, op, ManifestConflict)
    case PlanCommitted => Finish(s, op, Prepared(sid, []))
    case PlanReuse(refresh) => Goto(s, op, if refresh then PreRenew(sid, session, now)
                                    else PreNeed(sid, session, [], 0))
  }

  function AdvancePrepare(s: Store, op: Op, o: Oracle): Move
    requires op.call.Prepare?
  {
    var call := op.call;
    match op.pc
    case Begin => if o.ns.None? then Fail(s, op, AttributionMissing) else Goto(s, op, PreLoop(o.ns.value))
    case PreLoop(ns) =>
      var loop := Find(s.loops, call.payload.loopId);
      if loop.None? || loop.value.machine != call.machine then Fail(s, op, LoopNotFound)
      else Goto(s, op, PreKey(ns, loop.value))
    case PreKey(ns, loop) =>
      if !FoundIsRight(s, ns, call, o.found) then Goto(s, op, op.pc)
      else if o.found.Some? && s.sessions[o.found.value].payload == call.payload
        && s.sessions[o.found.value].receipt.Some?
      then Finish(s, op, Prepared(o.found.value, []))
      else if loop.dir.None? then Fail(s, op, Unconfigured)
      else if call.payload.config != loop.config then Fail(s, op, ConfigConflict)
      else if call.payload.base != loop.manifestRevision then Fail(s, op, ManifestConflict)
      else if o.found.None? then Goto(s, op, PreInsert(ns, loop, o.now))
      else AfterPlan(s, op, o.found.value, s.sessions[o.found.value], o.now)
    case PreInsert(ns, loop, now) =>
      var session := NewSession(ns, call, now);
      if !FoundIsRight(s, ns, call, o.found) || o.minted in s.sessions then Goto(s, op, op.pc)
      else if !AtRevision(s, call.payload.loopId, loop) then GuardLost(s, op)
      else if o.found.Some? then AfterPlan(s, op, o.found.value, s.sessions[o.found.value], now)
      else
        var inserted := InsertSession(s, loop, o.minted, session);
        if inserted.None? then GuardLost(s, op) else Goto(inserted.value, op, PreNeed(o.minted, session, [], 0))
    case PreRenew(sid, session, now) =>
      var renewed := Renew(s, sid, session, now);
      if renewed.Some? then Goto(renewed.value, op, PreNeed(sid, renewed.value.sessions[sid], [], 0))
      else Goto(s, op, PreReread(sid))
    case PreReread(sid) =>
      if sid !in s.sessions then Fail(s, op, RaceLost)
      else if s.sessions[sid].receipt.Some? then Finish(s, op, Prepared(sid, []))
      else Goto(s, op, PreNeed(sid, s.sessions[sid], [], 0))
    case PreNeed(sid, session, need, i) =>
      if i >= |session.negotiated| then Finish(s, op, Prepared(sid, need))
      else if RowMatches(s, session, session.negotiated[i]) then Goto(s, op, PreHas(sid, session, need, i))
      else Goto(s, op, PreNeed(sid, session, need + [session.negotiated[i]], i + 1))
    case PreHas(sid, session, need, i) =>
      if o.present.None? || i >= |session.negotiated| then Fail(s, op, StorageError)
      else if o.present.value then Goto(s, op, PreNeed(sid, session, need, i + 1))
      else Goto(s, op, PreNeed(sid, session, need + [session.negotiated[i]], i + 1))
    case _ => Goto(s, op, op.pc)
  }

  function AdvancePut(s: Store, op: Op, o: Oracle): Move
    requires op.call.Put?
  {
    var call := op.call;
    match op.pc
    case Begin => if o.ns.None? then Fail(s, op, AttributionMissing) else Goto(s, op, PutSession(o.ns.value))
    case PutSession(ns) =>
      var found := Find(s.sessions, call.sid);
      if found.None? || found.value.ns != ns || found.value.machine != call.machine then Fail(s, op, SessionNotFound)
      else if found.value.receipt.Some? then Fail(s, op, SessionCommitted)
      else if o.now >= found.value.expiresAt then Fail(s, op, SessionExpired)
      else Goto(s, op, PutLoop(found.value))
    case PutLoop(session) =>
      var loop := Find(s.loops, session.payload.loopId);
      if loop.None? then Fail(s, op, LoopNotFound)
      else if loop.value.machine != session.machine then Fail(s, op, SessionNotFound)
      else if session.payload.config != loop.value.config then Fail(s, op, ConfigConflict)
      else if call.hash !in session.negotiated then Fail(s, op, HashNotNegotiated)
      else Goto(s, op, PutWrite(session))
    case PutWrite(session) =>
      // The store verifies the received bytes against the hash and the negotiated size.
      if o.present.None? then Fail(s, op, StorageError)
      else if Sha256(o.bytes) != call.hash || Some(|o.bytes|) != SizeFor(session.payload.entries, call.hash)
      then Fail(s, op, ContentMismatch)
      else Goto(s, op, PutAgain(|o.bytes|))
    case PutAgain(size) =>
      if o.ns.None? then Fail(s, op, AttributionMissing) else Goto(s, op, PutSessionAgain(o.ns.value, size))
    case PutSessionAgain(ns, size) =>
      var found := Find(s.sessions, call.sid);
      if found.None? || found.value.ns != ns || found.value.machine != call.machine then Fail(s, op, SessionNotFound)
      else if found.value.receipt.Some? then Fail(s, op, SessionCommitted)
      else if o.now >= found.value.expiresAt then Fail(s, op, SessionExpired)
      else Goto(s, op, PutLoopAgain(found.value, size))
    case PutLoopAgain(session, size) =>
      var loop := Find(s.loops, session.payload.loopId);
      if loop.None? then Fail(s, op, LoopNotFound)
      else if loop.value.machine != session.machine then Fail(s, op, SessionNotFound)
      else if session.payload.config != loop.value.config then Fail(s, op, ConfigConflict)
      else Goto(s, op, PutRow(session, size))
    case PutRow(session, size) =>
      if o.fault == RolledBack then Fail(s, op, StorageError)
      else
        var t := RegisterBlob(s, session.ns, call.hash, size);
        if o.fault == AckLost then Fail(t, op, StorageError) else Finish(t, op, Uploaded)
    case _ => Goto(s, op, op.pc)
  }

  function AdvanceCommit(s: Store, op: Op, o: Oracle): Move
    requires op.call.CommitSync?
  {
    var call := op.call;
    match op.pc
    case Begin => if o.ns.None? then Fail(s, op, AttributionMissing) else Goto(s, op, ComProbe(o.ns.value))
    case ComProbe(ns) =>
      var probe := Find(s.sessions, call.sid);
      if probe.None? || probe.value.ns != ns || probe.value.machine != call.machine then Fail(s, op, SessionNotFound)
      else Goto(s, op, ComLoop(ns, probe.value.payload.loopId))
    case ComLoop(ns, id) => Goto(s, op, ComSession(ns, id, Find(s.loops, id)))
    case ComSession(ns, id, found) =>
      if call.sid !in s.sessions then GuardLost(s, op)
      else
        var session := s.sessions[call.sid];
        if found.None? then
          if session.receipt.Some? then Finish(s, op, Committed(session.receipt.value)) else Fail(s, op, LoopNotFound)
        else if found.value.machine != session.machine then Fail(s, op, SessionNotFound)
        else
          var seen := Seen(ns, found.value, session, o.now);
          (match PlanCommit(session, found.value, o.now)
           case ReplayReceipt => Finish(s, op, Committed(session.receipt.value))
           case Lapsed => Fail(s, op, SessionExpired)
           case ConfigMoved => Fail(s, op, ConfigConflict)
           case BaseMoved => Goto(s, op, ComStamp(seen, ManifestConflict))
           case AtLimit => Fail(s, op, RevisionExhausted)
           case Proceed => Goto(s, op, ComBlob(seen, 0)))
    case ComBlob(seen, i) =>
      if i >= |seen.session.negotiated| then Goto(s, op, ComLive(seen))
      else if RowMatches(s, seen.session, seen.session.negotiated[i]) then Goto(s, op, ComHas(seen, i))
      else Goto(s, op, ComStamp(seen, BlobMissing))
    case ComHas(seen, i) =>
      if o.present.None? then Goto(s, op, ComStamp(seen, StorageError))
      else if o.present.value then Goto(s, op, ComBlob(seen, i + 1))
      else Goto(s, op, ComStamp(seen, BlobMissing))
    case ComLive(seen) =>
      var live := Find(s.loops, seen.session.payload.loopId);
      if o.fault != NoFault then Goto(s, op, ComStamp(seen, StorageError))
      else if live.None? then GuardLost(s, op)
      else Goto(s, op, ComLiveSession(seen, live.value))
    case ComLiveSession(seen, live) =>
      if o.fault != NoFault then Goto(s, op, ComStamp(seen, StorageError))
      else if call.sid !in s.sessions then GuardLost(s, op)
      else
        var session := s.sessions[call.sid];
        if session.receipt.Some? then Finish(s, op, Committed(session.receipt.value))
        else if o.now >= session.expiresAt then Fail(s, op, SessionExpired)
        else if session.ns != seen.ns || session.machine != call.machine then Fail(s, op, SessionNotFound)
        else if live.machine != session.machine then Fail(s, op, SessionNotFound)
        else if live.config != session.payload.config then Fail(s, op, ConfigConflict)
        else if live.manifestRevision != session.payload.base then Goto(s, op, ComStamp(seen, ManifestConflict))
        else if live.manifestRevision >= REVISION_MAX then Fail(s, op, RevisionExhausted)
        else Goto(s, op, ComWrite(seen, live))
    case ComWrite(seen, live) =>
      if o.fault == RolledBack then Goto(s, op, ComStamp(seen, StorageError))
      else if o.minted in s.manifests then Goto(s, op, op.pc)
      else
        var landed := Commit(s, call.sid, live, o.minted, seen.now);
        if landed.None? then GuardLost(s, op)
        else if o.fault == AckLost then Goto(landed.value, op, ComStamp(seen, StorageError))
        else Finish(landed.value, op, Committed(Receipt(o.minted, live.manifestRevision + 1)))
    case ComStamp(seen, failure) =>
      var session := seen.session;
      var t := if o.fault == RolledBack then s
               else StampFailure(s, session.payload.loopId, seen.loop, session.payload.config, ErrorText(failure),
                                 seen.now);
      Fail(t, op, failure)
    case _ => Goto(s, op, op.pc)
  }

  function ErrorText(f: Failure): string {
    match f
    case ManifestConflict => "artifact_manifest_conflict"
    case BlobMissing => "artifact_blob_missing"
    case _ => "artifact_storage_error"
  }

  function AdvanceOther(s: Store, op: Op, o: Oracle): Move
    requires !op.call.Prepare? && !op.call.Put? && !op.call.CommitSync?
  {
    match op.call
    case Configure(id, dir) =>
      (match op.pc
       case Begin =>
         if id !in s.loops then Fail(s, op, LoopNotFound)
         else
           (match PlanConfig(s.loops[id], dir)
            case ConfigNoop => Finish(s, op, Accepted)
            case ConfigChange(planned) => Goto(s, op, CfgWrite(s.loops[id], planned))
            case _ => Fail(s, op, ConfigRejected))
       case CfgWrite(loop, planned) =>
         var t := UpdateConfig(s, id, loop, planned);
         if t.None? then GuardLost(s, op) else Finish(t.value, op, Accepted)
       case _ => Goto(s, op, op.pc))
    case ReportError(machine, id, config, base, error) =>
      (match op.pc
       case Begin => if o.ns.None? then Fail(s, op, AttributionMissing) else Goto(s, op, RepLoop(o.ns.value))
       case RepLoop(_) =>
         var loop := Find(s.loops, id);
         if loop.None? || loop.value.machine != machine then Fail(s, op, LoopNotFound)
         else if loop.value.dir.None? || loop.value.config != config || loop.value.manifestRevision != base
         then Fail(s, op, NotRecorded)
         else Goto(s, op, RepWrite(loop.value))
       case RepWrite(loop) =>
         var t := RecordSyncError(s, id, loop, config, base, error, o.now);
         if t.None? then Fail(s, op, NotRecorded) else Finish(t.value, op, Accepted)
       case _ => Goto(s, op, op.pc))
    case BindSnapshot(rid, snapshot, syncError, text, attributed) =>
      (match op.pc
       case Begin => if rid !in s.runs then Fail(s, op, LoopNotFound) else Goto(s, op, BindManifest(s.runs[rid]))
       case BindManifest(run) =>
         var found := if snapshot.Some? && snapshot.value in s.manifests
                      then Some((snapshot.value, s.manifests[snapshot.value])) else None;
         Goto(s, op, BindLoop(run, found))
       case BindLoop(run, found) =>
         if run.loopId !in s.loops then Fail(s, op, LoopNotFound)
         else
           var loop, attribution := s.loops[run.loopId], if o.ns.Some? then Some((o.ns.value, attributed)) else None;
           Goto(s, op, BindWrite(run,
                                 PlanBinding(run, run.loopId, loop, found, snapshot, syncError, text, attribution)))
       case BindWrite(run, plan) =>
         var t := ApplyBinding(s, rid, run, plan);
         if t.None? then GuardLost(s, op) else Finish(t.value, op, Accepted)
       case _ => Goto(s, op, op.pc))
    case ReadLoop(machine, id) =>
      (match op.pc
       case Begin =>
         var loop := Find(s.loops, id);
         if o.ns.None? then Fail(s, op, AttributionMissing)
         else if loop.None? || loop.value.machine != machine then Fail(s, op, LoopNotFound)
         else if loop.value.dir.None? then Fail(s, op, Unconfigured)
         else Finish(s, op, Viewed(loop.value.config, loop.value.manifestRevision, loop.value.dir.value))
       case _ => Goto(s, op, op.pc))
  }

  function Advance(s: Store, op: Op, o: Oracle): Move {
    if op.call.Prepare? then AdvancePrepare(s, op, o)
    else if op.call.Put? then AdvancePut(s, op, o)
    else if op.call.CommitSync? then AdvanceCommit(s, op, o)
    else AdvanceOther(s, op, o)
  }

  // ---- The server as a whole ----

  datatype Server = Server(store: Store, ops: map<nat, Op>)

  datatype Action =
    | Start(opId: nat, call: Call)
    | Step(opId: nat, o: Oracle)
    /** Any other write to a loop row: it only moves the unified revision. */
    | Touch(id: LoopId)
    | CreateLoop(id: LoopId, loop: Loop)
    | DeleteLoop(id: LoopId)
    | CreateRun(rid: RunId, run: Run)
    | MovePhase(rid: RunId, phase: nat)

  /** Manifest validation runs before anything else, so a prepare that reaches the
      store has distinct paths and one size per hash. */
  ghost predicate Admissible(call: Call) { call.Prepare? ==> Normalized(call.payload.entries) }

  ghost function Act(v: Server, a: Action): Server {
    var s := v.store;
    match a
    case Start(opId, call) =>
      if opId in v.ops || !Admissible(call) then v else v.(ops := v.ops[opId := Op(call, false, Begin)])
    case Step(opId, o) =>
      if opId !in v.ops then v
      else var m := Advance(s, v.ops[opId], o); Server(m.store, v.ops[opId := m.op])
    case Touch(id) => if id in s.loops then v.(store := WriteLoop(s, id, s.loops[id])) else v
    case CreateLoop(id, loop) =>
      if LoopKnown(s, id) || loop.manifestRevision != 0 || loop.manifestId.Some? || !Untouched(loop.attempt) then v
      else v.(store := s.(loops := s.loops[id := loop]))
    case DeleteLoop(id) =>
      if id in s.loops then v.(store := s.(loops := s.loops - {id}, retired := s.retired + {id})) else v
    case CreateRun(rid, run) =>
      if rid in s.runs || run.snapshot.Some? then v else v.(store := s.(runs := s.runs[rid := run]))
    case MovePhase(rid, phase) =>
      if rid in s.runs then v.(store := s.(runs := s.runs[rid := s.runs[rid].(phase := phase)])) else v
  }

  ghost function Acts(v: Server, run: seq<Action>): Server {
    if run == [] then v else Act(Acts(v, run[..|run| - 1]), run[|run| - 1])
  }

  const EMPTY := Server(Store(map[], {}, map[], map[], map[], map[]), map[])

  // ---- What each operation may rely on at each point ----

  ghost predicate LoopSnap(s: Store, id: LoopId, loop: Loop) {
    if id in s.loops then LoopLater(loop, s.loops[id]) else id in s.retired
  }

  ghost predicate SessionSnap(s: Store, sid: SyncId, session: Session) {
    sid in s.sessions && SessionLater(session, s.sessions[sid])
  }

  ghost predicate RowsUpTo(s: Store, session: Session, n: nat) {
    n <= |session.negotiated| && forall j :: 0 <= j < n ==> RowMatches(s, session, session.negotiated[j])
  }

  ghost predicate SeenOk(s: Store, sid: SyncId, seen: Seen, n: nat) {
    && SessionSnap(s, sid, seen.session) && LoopSnap(s, seen.session.payload.loopId, seen.loop)
    && RowsUpTo(s, seen.session, n)
  }

  ghost predicate SessionAnswers(s: Store, sid: SyncId, call: Call)
    requires call.Prepare?
  {
    && sid in s.sessions && s.sessions[sid].payload == call.payload
    && s.sessions[sid].machine == call.machine && s.sessions[sid].requestId == call.requestId
  }

  /** Every negotiated hash before `i` is demanded or already has its verified row. */
  ghost predicate NeedOk(s: Store, sid: SyncId, session: Session, call: Call, need: seq<Hash>, i: nat)
    requires call.Prepare?
  {
    && SessionAnswers(s, sid, call) && SessionSnap(s, sid, session)
    && i <= |session.negotiated| && Covers(s, session, need, i)
  }

  ghost predicate Covers(s: Store, session: Session, need: seq<Hash>, n: nat) {
    && n <= |session.negotiated|
    && (forall j :: 0 <= j < n ==> session.negotiated[j] in need || RowMatches(s, session, session.negotiated[j]))
    && (forall h :: h in need ==> h in session.negotiated)
  }

  /** The promise behind every response. */
  ghost predicate ResultOk(s: Store, call: Call, r: Result) {
    match call
    case Prepare(_, _, _) => r.Prepared? ==>
      SessionAnswers(s, r.sid, call) && Covers(s, s.sessions[r.sid], r.need, |s.sessions[r.sid].negotiated|)
    case CommitSync(_, sid) =>
      && (r.Committed? ==> sid in s.sessions && s.sessions[sid].receipt == Some(r.receipt))
      && (r == Failed(ManifestConflict) ==> Dead(s, sid))
    case Put(_, sid, hash) => r.Uploaded? ==> sid in s.sessions && RowMatches(s, s.sessions[sid], hash)
    case _ => true
  }

  ghost predicate PrepareOk(s: Store, op: Op)
    requires op.call.Prepare?
  {
    match op.pc
    case PreKey(ns, loop) => LoopSnap(s, op.call.payload.loopId, loop)
    case PreInsert(ns, loop, now) =>
      && LoopSnap(s, op.call.payload.loopId, loop)
      && op.call.payload.config == loop.config && op.call.payload.base == loop.manifestRevision
    case PreRenew(sid, session, now) => SessionAnswers(s, sid, op.call)
    case PreReread(sid) => SessionAnswers(s, sid, op.call)
    case PreNeed(sid, session, need, i) => NeedOk(s, sid, session, op.call, need, i)
    case PreHas(sid, session, need, i) =>
      && NeedOk(s, sid, session, op.call, need, i)
      && i < |session.negotiated| && RowMatches(s, session, session.negotiated[i])
    case _ => true
  }

  /** The bytes received were those of the hash and of its negotiated size. */
  ghost predicate Checked(s: Store, sid: SyncId, hash: Hash, size: nat) {
    && size == |hash.content|
    && sid in s.sessions && SizeFor(s.sessions[sid].payload.entries, hash) == Some(size)
  }

  ghost predicate PutOk(s: Store, op: Op)
    requires op.call.Put?
  {
    var sid, hash := op.call.sid, op.call.hash;
    match op.pc
    case PutLoop(session) => SessionSnap(s, sid, session)
    case PutWrite(session) => SessionSnap(s, sid, session)
    case PutAgain(size) => Checked(s, sid, hash, size)
    case PutSessionAgain(_, size) => Checked(s, sid, hash, size)
    case PutLoopAgain(session, size) => Checked(s, sid, hash, size) && SessionSnap(s, sid, session)
    case PutRow(session, size) => Checked(s, sid, hash, size) && SessionSnap(s, sid, session)
    case _ => true
  }

  ghost predicate CommitOk(s: Store, op: Op)
    requires op.call.CommitSync?
  {
    var sid := op.call.sid;
    match op.pc
    case ComLoop(ns, id) => sid in s.sessions && s.sessions[sid].payload.loopId == id
    case ComSession(ns, id, found) =>
      && sid in s.sessions && s.sessions[sid].payload.loopId == id
      && (found.Some? ==> LoopSnap(s, id, found.value) && s.sessions[sid].payload.base <= found.value.manifestRevision)
    case ComBlob(seen, i) => SeenOk(s, sid, seen, i)
    case ComHas(seen, i) => SeenOk(s, sid, seen, i) && RowsUpTo(s, seen.session, i + 1)
    case ComLive(seen) => SeenOk(s, sid, seen, |seen.session.negotiated|)
    case ComLiveSession(seen, live) =>
      && SeenOk(s, sid, seen, |seen.session.negotiated|)
      && LoopSnap(s, seen.session.payload.loopId, live) && seen.session.payload.base <= live.manifestRevision
    case ComWrite(seen, live) =>
      && SeenOk(s, sid, seen, |seen.session.negotiated|)
      && LoopSnap(s, seen.session.payload.loopId, live)
      && live.config == seen.session.payload.config && live.manifestRevision == seen.session.payload.base
    case ComStamp(seen, failure) => SeenOk(s, sid, seen, 0) && (failure == ManifestConflict ==> Dead(s, sid))
    case _ => true
  }

  ghost predicate OtherOk(s: Store, op: Op) {
    match op.pc
    case CfgWrite(loop, planned) =>
      && op.call.Configure? && LoopSnap(s, op.call.id, loop)
      && planned.config == loop.config + 1 && planned.attempt == CLEAR
    case BindManifest(run) => op.call.BindSnapshot? && RunSnap(s, op.call.rid, run)
    case BindLoop(run, found) =>
      && op.call.BindSnapshot? && RunSnap(s, op.call.rid, run)
      && (found.Some? ==> found.value.0 in s.manifests && s.manifests[found.value.0] == found.value.1)
    case BindWrite(run, plan) =>
      && op.call.BindSnapshot? && RunSnap(s, op.call.rid, run)
      && (plan.BindTo? ==>
            && plan.snapshot in s.manifests && s.manifests[plan.snapshot].loopId == run.loopId
            && s.manifests[plan.snapshot].machine == run.machine == op.call.attributed
            && s.manifests[plan.snapshot].config == plan.generation)
    case _ => true
  }

  ghost predicate RunSnap(s: Store, rid: RunId, run: Run) { rid in s.runs && SameRun(s.runs[rid], run) }

  ghost predicate OpOk(s: Store, op: Op) {
    && Admissible(op.call)
    && (op.pc.Done? ==> ResultOk(s, op.call, op.pc.result))
    && (if op.call.Prepare? then PrepareOk(s, op)
        else if op.call.Put? then PutOk(s, op)
        else if op.call.CommitSync? then CommitOk(s, op)
        else OtherOk(s, op))
  }

  // ---- What an operation relies on survives every later step of the store ----

  lemma SnapsStable(s: Store, t: Store, sid: SyncId, session: Session, id: LoopId, loop: Loop)
    requires Evolves(s, t)
    ensures LoopSnap(s, id, loop) ==> LoopSnap(t, id, loop)
    ensures SessionSnap(s, sid, session) ==> SessionSnap(t, sid, session)
    ensures Dead(s, sid) ==> Dead(t, sid)
    ensures forall h :: RowMatches(s, session, h) ==> RowMatches(t, session, h)
  {
  }

  lemma CommitStable(s: Store, t: Store, op: Op)
    requires Evolves(s, t) && op.call.CommitSync? && CommitOk(s, op)
    ensures CommitOk(t, op)
  {
    var sid := op.call.sid;
    assert sid in s.sessions ==> sid in t.sessions && t.sessions[sid].payload == s.sessions[sid].payload;
    hide Evolves, LoopSnap, SessionSnap, Dead, RowMatches;
    match op.pc
    case ComSession(ns, id, found) =>
      if found.Some? { SnapsStable(s, t, sid, s.sessions[sid], id, found.value); }
    case ComBlob(seen, _) => SnapsStable(s, t, sid, seen.session, seen.session.payload.loopId, seen.loop);
    case ComHas(seen, _) => SnapsStable(s, t, sid, seen.session, seen.session.payload.loopId, seen.loop);
    case ComLive(seen) => SnapsStable(s, t, sid, seen.session, seen.session.payload.loopId, seen.loop);
    case ComLiveSession(seen, live) =>
      SnapsStable(s, t, sid, seen.session, seen.session.payload.loopId, seen.loop);
      SnapsStable(s, t, sid, seen.session, seen.session.payload.loopId, live);
    case ComWrite(seen, live) =>
      SnapsStable(s, t, sid, seen.session, seen.session.payload.loopId, seen.loop);
      SnapsStable(s, t, sid, seen.session, seen.session.payload.loopId, live);
    case ComStamp(seen, _) => SnapsStable(s, t, sid, seen.session, seen.session.payload.loopId, seen.loop);
    case _ =>
  }

  lemma PrepareStable(s: Store, t: Store, op: Op)
    requires Evolves(s, t) && op.call.Prepare? && PrepareOk(s, op)
    ensures PrepareOk(t, op)
  {
    var id := op.call.payload.loopId;
    match op.pc
    case PreKey(_, loop) => assert LoopSnap(t, id, loop);
    case PreInsert(_, loop, _) => assert LoopSnap(t, id, loop);
    case PreNeed(sid, session, need, i) => CoversStable(s, t, session, need, i);
    case PreHas(sid, session, need, i) => CoversStable(s, t, session, need, i);
    case _ =>
  }

  lemma PutStable(s: Store, t: Store, op: Op)
    requires Evolves(s, t) && op.call.Put? && PutOk(s, op)
    ensures PutOk(t, op)
  {
    hide SizeFor;
  }

  lemma CoversStable(s: Store, t: Store, session: Session, need: seq<Hash>, n: nat)
    requires Evolves(s, t) && Covers(s, session, need, n)
    ensures Covers(t, session, need, n)
  {
    assert forall h :: RowMatches(s, session, h) ==> RowMatches(t, session, h);
  }

  lemma ResultStable(s: Store, t: Store, call: Call, r: Result)
    requires Evolves(s, t) && ResultOk(s, call, r)
    ensures ResultOk(t, call, r)
  {
    if call.Prepare? && r.Prepared? {
      var session := s.sessions[r.sid];
      CoversStable(s, t, session, r.need, |session.negotiated|);
      assert forall h :: RowMatches(t, session, h) == RowMatches(t, t.sessions[r.sid], h);
    } else if call.Put? && r.Uploaded? {
      assert RowMatches(t, s.sessions[call.sid], call.hash) == RowMatches(t, t.sessions[call.sid], call.hash);
    }
  }

  lemma OpOkStable(s: Store, t: Store, op: Op)
    requires OpOk(s, op) && Evolves(s, t)
    ensures OpOk(t, op)
  {
    hide CommitOk, PrepareOk, PutOk, ResultOk;
    if op.pc.Done? { ResultStable(s, t, op.call, op.pc.result); }
    if op.call.Prepare? { PrepareStable(s, t, op); }
    if op.call.Put? { PutStable(s, t, op); }
    if op.call.CommitSync? { CommitStable(s, t, op); }
  }
}
