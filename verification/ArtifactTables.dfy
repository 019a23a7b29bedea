/**
 The sync module's writers against mutable tables: each method is one statement or
 one transaction, ends in the store its function names, and a transaction that loses
 a guard puts every table back.
 */
module ArtifactTables {
  import opened Wrappers
  import opened ArtifactStore
  import opened ArtifactServer

  // ---- What prepare asks for ----

  /** A verified blob stands behind the hash: its row has the negotiated size, and its
      file is present. */
  predicate Backed(s: Store, session: Session, has: Hash -> bool, h: Hash) { RowMatches(s, session, h) && has(h) }

  /** The hashes to upload, in negotiation order. */
  function NeedOf(s: Store, session: Session, has: Hash -> bool, hashes: seq<Hash>): seq<Hash> {
    if hashes == [] then []
    else
      var last := hashes[|hashes| - 1];
      NeedOf(s, session, has, hashes[..|hashes| - 1]) + (if Backed(s, session, has, last) then [] else [last])
  }

  /** Nothing missing is left out, nothing present is asked for again, nothing twice. */
  lemma {:induction false} NeedIsExact(s: Store, session: Session, has: Hash -> bool, hashes: seq<Hash>)
    requires forall i, j :: 0 <= i < j < |hashes| ==> hashes[i] != hashes[j]
    ensures var need := NeedOf(s, session, has, hashes);
      && (forall h :: h in need <==> h in hashes && !Backed(s, session, has, h))
      && (forall i, j :: 0 <= i < j < |need| ==> need[i] != need[j])
  {
    if hashes != [] {
      var less, last := hashes[..|hashes| - 1], hashes[|hashes| - 1];
      assert hashes == less + [last];
      NeedIsExact(s, session, has, less);
      assert last !in less;
    }
  }

  /** The store's answer, fault-free, for the hash under inspection. */
  function Answer(has: Hash -> bool, h: Hash): Oracle { Oracle(0, None, 0, None, [], Some(has(h)), NoFault) }

  /** One hash of the prepare program, left undisturbed: one row read, and one presence
      check when the row matches. */
  function NeedStep(s: Store, op: Op, has: Hash -> bool, h: Hash): Op
    requires op.call.Prepare?
  {
    var first := AdvancePrepare(s, op, Answer(has, h)).op;
    if first.pc.PreHas? && first.call.Prepare? then AdvancePrepare(s, first, Answer(has, h)).op else first
  }

  /** The interleaved program computes the same list when nothing interferes. */
  lemma NeedStepAppends(s: Store, op: Op, has: Hash -> bool, sid: SyncId, session: Session, i: nat)
    requires op.call.Prepare? && i < |session.negotiated|
    requires op.pc == PreNeed(sid, session, NeedOf(s, session, has, session.negotiated[..i]), i)
    ensures NeedStep(s, op, has, session.negotiated[i]).pc
         == PreNeed(sid, session, NeedOf(s, session, has, session.negotiated[..i + 1]), i + 1)
  {
    var more := session.negotiated[..i + 1];
    assert more[..i] == session.negotiated[..i] && more[i] == session.negotiated[i];
  }

  lemma NeedAppend(s: Store, session: Session, has: Hash -> bool, hashes: seq<Hash>, h: Hash)
    ensures NeedOf(s, session, has, hashes + [h])
      == NeedOf(s, session, has, hashes) + if Backed(s, session, has, h) then [] else [h]
  {
    assert (hashes + [h])[..|hashes|] == hashes;
  }

  lemma NothingNeeded(s: Store, session: Session, has: Hash -> bool, entries: seq<Entry>)
    ensures Distinct(entries[..0]) == [] && NeedOf(s, session, has, []) == []
  {
  }

  ghost predicate SeenIs(seen: set<Hash>, hashes: seq<Hash>) { forall h :: h in seen <==> h in hashes }

  // ---- First occurrences ----

  lemma DistinctStep(entries: seq<Entry>, i: nat)
    requires i < |entries|
    ensures var h := entries[i].hash; var before := Distinct(entries[..i]);
      Distinct(entries[..i + 1]) == if h in before then before else before + [h]
  {
    assert entries[..i + 1][..i] == entries[..i] && entries[..i + 1][i] == entries[i];
  }

  lemma {:induction false} DistinctOnce(entries: seq<Entry>)
    ensures forall i, j :: 0 <= i < j < |Distinct(entries)| ==> Distinct(entries)[i] != Distinct(entries)[j]
  {
    if entries != [] { DistinctOnce(entries[..|entries| - 1]); }
  }

  class Tables {
    var loops: map<LoopId, Loop>
    var sessions: map<SyncId, Session>
    var manifests: map<ManifestId, Manifest>
    var blobs: map<(Namespace, Hash), nat>
    var runs: map<RunId, Run>
    ghost var retired: set<LoopId>

    ghost function Now(): Store
      reads this
    {
      Store(loops, retired, sessions, manifests, blobs, runs)
    }

    constructor ()
      ensures Now() == EMPTY.store
    {
      loops, sessions, manifests, blobs, runs, retired := map[], map[], map[], map[], map[], {};
    }

    /** One pass over the manifest with a seen set: the row of each new hash, then its
        file. (A presence check that fails ends the step program of `ArtifactServer`.) */
    method ComputeNeedHashes(session: Session, has: Hash -> bool) returns (need: seq<Hash>)
      requires OneSizePerHash(session.payload.entries)
      ensures need == NeedOf(Now(), session, has, Distinct(session.payload.entries))
    {
      hide NeedOf, Distinct, OneSizePerHash;
      need := [];
      var seen: set<Hash> := {};
      var entries := session.payload.entries;
      NothingNeeded(Now(), session, has, entries);
      var i := 0;
      while i < |entries|
        invariant 0 <= i <= |entries| && SeenIs(seen, Distinct(entries[..i]))
        invariant need == NeedOf(Now(), session, has, Distinct(entries[..i]))
      {
        var entry := entries[i];
        DistinctStep(entries, i);
        SizeForEntry(entries, i);
        NeedAppend(Now(), session, has, Distinct(entries[..i]), entry.hash);
        if entry.hash !in seen {
          seen := seen + {entry.hash};
          var key := (session.ns, entry.hash);
          if key !in blobs || blobs[key] != entry.size {
            need := need + [entry.hash];
          } else if !has(entry.hash) {
            need := need + [entry.hash];
          }
        }
        i := i + 1;
      }
      assert entries[..i] == entries;
    }

    /** Lock the loop row, check the revision seen, insert. False when a guard is lost. */
    method InsertSessionGuarded(seen: Loop, sid: SyncId, session: Session) returns (ok: bool)
      modifies `sessions
      ensures var t := InsertSession(old(Now()), seen, sid, session);
        ok == t.Some? && Now() == if t.Some? then t.value else old(Now())
    {
      var id := session.payload.loopId;
      if id !in loops || loops[id].revision != seen.revision || sid in sessions { return false; }
      sessions := sessions[sid := session];
      return true;
    }

    /** Same syncId, new expiry, unless somebody committed or renewed first. */
    method RenewSession(sid: SyncId, seen: Session, now: Time) returns (ok: bool)
      modifies `sessions
      ensures var t := Renew(old(Now()), sid, seen, now);
        ok == t.Some? && Now() == if t.Some? then t.value else old(Now())
    {
      if sid !in sessions || sessions[sid].receipt.Some? || sessions[sid].expiresAt != seen.expiresAt { return false; }
      sessions := sessions[sid := sessions[sid].(expiresAt := now + SESSION_TTL)];
      return true;
    }

    /** Insert or keep: a row that is there never changes. */
    method RegisterBlobRow(ns: Namespace, hash: Hash, size: nat)
      modifies `blobs
      ensures Now() == RegisterBlob(old(Now()), ns, hash, size)
    {
      if (ns, hash) !in blobs { blobs := blobs[(ns, hash) := size]; }
    }

    method StampCommitFailure(id: LoopId, seen: Loop, config: nat, error: string, now: Time)
      modifies `loops
      ensures Now() == StampFailure(old(Now()), id, seen, config, error, now)
    {
      if id !in loops || loops[id].revision != seen.revision || loops[id].config != config { return; }
      var row := loops[id];
      row := row.(attempt := Attempt(Some(now), row.attempt.succeededAt, Some(error), config));
      loops := loops[id := row.(revision := row.revision + 1)];
    }

    /** The commit transaction's writes in their order: the guarded loop update, the
        manifest, the receipt behind its null guard. A lost guard or a fault between two
        statements rolls everything back. */
    method CommitTransaction(sid: SyncId, live: Loop, mid: ManifestId, now: Time, fault: bool) returns (ok: bool)
      requires mid !in manifests
      modifies `loops, `sessions, `manifests
      ensures var t := if fault then None else Commit(old(Now()), sid, live, mid, now);
        ok == t.Some? && Now() == if t.Some? then t.value else old(Now())
    {
      if sid !in sessions { return false; }
      var savedLoops, savedManifests, savedSessions := loops, manifests, sessions;
      var session := sessions[sid];
      var id := session.payload.loopId;
      var revision := live.manifestRevision + 1;
      if id !in loops || loops[id].revision != live.revision { return false; }
      var row := loops[id].(manifestId := Some(mid), manifestRevision := revision,
                            attempt := Attempt(Some(now), Some(now), None, session.payload.config));
      loops := loops[id := row.(revision := row.revision + 1)];
      var total := SumSizes(session.payload.entries);
      manifests := manifests[mid := Manifest(session.ns, session.machine, id, session.payload.config, revision,
                                             session.payload.entries, |session.payload.entries|, total)];
      if fault || sessions[sid].receipt.Some? {
        loops, manifests, sessions := savedLoops, savedManifests, savedSessions;
        return false;
      }
      sessions := sessions[sid := session.(receipt := Some(Receipt(mid, revision)))];
      return true;
    }

    method UpdateArtifactConfig(id: LoopId, seen: Loop, planned: Loop) returns (ok: bool)
      modifies `loops
      ensures var t := UpdateConfig(old(Now()), id, seen, planned);
        ok == t.Some? && Now() == if t.Some? then t.value else old(Now())
    {
      if id !in loops || loops[id].revision != seen.revision { return false; }
      var row := loops[id].(dir := planned.dir, config := planned.config, attempt := planned.attempt);
      loops := loops[id := row.(revision := row.revision + 1)];
      return true;
    }

    method RecordArtifactSyncError(id: LoopId, seen: Loop, config: nat, base: nat, error: string, now: Time)
      returns (ok: bool)
      modifies `loops
      ensures var t := RecordSyncError(old(Now()), id, seen, config, base, error, now);
        ok == t.Some? && Now() == if t.Some? then t.value else old(Now())
    {
      if id !in loops || loops[id].revision != seen.revision || loops[id].config != config
        || loops[id].manifestRevision != base {
        return false;
      }
      var row := loops[id];
      row := row.(attempt := Attempt(Some(now), row.attempt.succeededAt, Some(error), config));
      loops := loops[id := row.(revision := row.revision + 1)];
      return true;
    }

    method ApplyArtifactBindingPlan(rid: RunId, seen: Run, plan: BindPlan) returns (ok: bool)
      modifies `runs
      ensures var t := ApplyBinding(old(Now()), rid, seen, plan);
        ok == t.Some? && Now() == if t.Some? then t.value else old(Now())
    {
      if plan.BindSkip? { return true; }
      if rid !in runs || runs[rid].phase != seen.phase { return false; }
      if plan.BindError? {
        runs := runs[rid := runs[rid].(snapshot := None, syncError := Some(plan.reason))];
        return true;
      }
      if seen.loopId !in loops || loops[seen.loopId].config != plan.generation { return false; }
      runs := runs[rid := runs[rid].(snapshot := Some(plan.snapshot))];
      return true;
    }

    /** The answer to the select by idempotency key. */
    method AnswerIsRight(ns: Namespace, call: Call, found: Option<SyncId>) returns (right: bool)
      requires call.Prepare?
      ensures right == FoundIsRight(Now(), ns, call, found)
    {
      match found {
        case None => right := forall sid :: sid in sessions ==> !KeyIs(sessions[sid], ns, call);
        case Some(sid) => right := sid in sessions && KeyIs(sessions[sid], ns, call);
      }
    }

    /** The statements of one step of an operation: what they leave in the tables is what
        the step program of `ArtifactServer` leaves in its store. */
    method Write(op: Op, o: Oracle)
      modifies `loops, `sessions, `manifests, `blobs, `runs
      ensures Now() == Advance(old(Now()), op, o).store
    {
      hide AdvancePrepare, AdvancePut, AdvanceCommit, AdvanceOther;
      if op.call.Prepare? { WritePrepare(op, o); }
      else if op.call.Put? { WritePut(op, o); }
      else if op.call.CommitSync? { WriteCommit(op, o); }
      else { WriteOther(op, o); }
    }

    method WritePrepare(op: Op, o: Oracle)
      requires op.call.Prepare?
      modifies `sessions
      ensures Now() == AdvancePrepare(old(Now()), op, o).store
    {
      hide FoundIsRight;
      match op.pc {
        case PreInsert(ns, loop, now) =>
          var right := AnswerIsRight(ns, op.call, o.found);
          if right && o.found.None? && o.minted !in sessions {
            var ok := InsertSessionGuarded(loop, o.minted, NewSession(ns, op.call, now));
          }
        case PreRenew(sid, session, now) => var ok := RenewSession(sid, session, now);
        case _ =>
      }
    }

    method WritePut(op: Op, o: Oracle)
      requires op.call.Put?
      modifies `blobs
      ensures Now() == AdvancePut(old(Now()), op, o).store
    {
      if op.pc.PutRow? && o.fault != RolledBack { RegisterBlobRow(op.pc.session.ns, op.call.hash, op.pc.size); }
    }

    method WriteCommit(op: Op, o: Oracle)
      requires op.call.CommitSync?
      modifies `loops, `sessions, `manifests
      ensures Now() == AdvanceCommit(old(Now()), op, o).store
    {
      CommitStore(Now(), op, o);
      hide AdvanceCommit, Commit, StampFailure;
      match op.pc {
        case ComWrite(seen, live) =>
          if o.fault != RolledBack && o.minted !in manifests {
            var ok := CommitTransaction(op.call.sid, live, o.minted, seen.now, false);
          }
        case ComStamp(seen, failure) =>
          if o.fault != RolledBack {
            var payload := seen.session.payload;
            StampCommitFailure(payload.loopId, seen.loop, payload.config, ErrorText(failure), seen.now);
          }
        case _ =>
      }
    }

    method WriteOther(op: Op, o: Oracle)
      requires !op.call.Prepare? && !op.call.Put? && !op.call.CommitSync?
      modifies `loops, `runs
      ensures Now() == AdvanceOther(old(Now()), op, o).store
    {
      OtherStore(Now(), op, o);
      hide AdvanceOther, UpdateConfig, RecordSyncError, ApplyBinding;
      match op.call {
        case Configure(id, _) =>
          if op.pc.CfgWrite? { var ok := UpdateArtifactConfig(id, op.pc.loop, op.pc.planned); }
        case ReportError(_, id, config, base, error) =>
          if op.pc.RepWrite? { var ok := RecordArtifactSyncError(id, op.pc.loop, config, base, error, o.now); }
        case BindSnapshot(rid, _, _, _, _) =>
          if op.pc.BindWrite? { var ok := ApplyArtifactBindingPlan(rid, op.pc.run, op.pc.plan); }
        case _ =>
      }
    }
  }

  function Or(t: Option<Store>, s: Store): Store { if t.Some? then t.value else s }

  /** The steps of a commit that write. */
  lemma CommitStore(s: Store, op: Op, o: Oracle)
    requires op.call.CommitSync?
    ensures AdvanceCommit(s, op, o).store == match op.pc
      case ComWrite(seen, live) =>
        if o.fault == RolledBack || o.minted in s.manifests then s
        else Or(Commit(s, op.call.sid, live, o.minted, seen.now), s)
      case ComStamp(seen, failure) =>
        var payload := seen.session.payload;
        if o.fault == RolledBack then s
        else StampFailure(s, payload.loopId, seen.loop, payload.config, ErrorText(failure), seen.now)
      case _ => s
  {
    hide Commit, StampFailure, RowMatches, PlanCommit, ErrorText;
  }

  /** The steps of the other writers that write. */
  lemma OtherStore(s: Store, op: Op, o: Oracle)
    requires !op.call.Prepare? && !op.call.Put? && !op.call.CommitSync?
    ensures AdvanceOther(s, op, o).store ==
      if op.call.Configure? && op.pc.CfgWrite? then Or(UpdateConfig(s, op.call.id, op.pc.loop, op.pc.planned), s)
      else if op.call.ReportError? && op.pc.RepWrite?
      then Or(RecordSyncError(s, op.call.id, op.pc.loop, op.call.config, op.call.base, op.call.error, o.now), s)
      else if op.call.BindSnapshot? && op.pc.BindWrite? then Or(ApplyBinding(s, op.call.rid, op.pc.run, op.pc.plan), s)
      else s
  {
    hide UpdateConfig, RecordSyncError, ApplyBinding, PlanBinding, PlanConfig;
  }

  method SumSizes(entries: seq<Entry>) returns (total: nat)
    ensures total == TotalBytes(entries)
  {
    total := 0;
    var i := 0;
    while i < |entries|
      invariant 0 <= i <= |entries| && total + TotalBytes(entries[i..]) == TotalBytes(entries)
    {
      assert entries[i..][1..] == entries[i + 1..];
      total := total + entries[i].size;
      i := i + 1;
    }
  }
}
