/**
 Every single step of every operation keeps the store well formed, undoes
 nothing, and hands the operation what its next step relies on.
 */
module ArtifactSteps {
  import opened Wrappers
  import opened ArtifactStore
  import opened ArtifactServer

  ghost predicate Stepped(s: Store, op: Op, m: Move) {
    Keeps(s, m.store) && OpOk(m.store, m.op) && m.op.call == op.call
  }

  lemma StillKeeps(s: Store)
    requires StoreOk(s)
    ensures Keeps(s, s)
  {
  }

  /** The rows of all negotiated hashes back every entry. */
  lemma NegotiatedRowsBack(s: Store, session: Session)
    requires OneSizePerHash(session.payload.entries) && session.negotiated == Distinct(session.payload.entries)
    requires RowsUpTo(s, session, |session.negotiated|)
    ensures RowsBack(s.blobs, session.ns, session.payload.entries)
  {
    var entries := session.payload.entries;
    forall i | 0 <= i < |entries|
      ensures (session.ns, entries[i].hash) in s.blobs && s.blobs[(session.ns, entries[i].hash)] == entries[i].size
    {
      assert entries[i].hash in session.negotiated;
      var j :| 0 <= j < |session.negotiated| && session.negotiated[j] == entries[i].hash;
      assert RowMatches(s, session, session.negotiated[j]);
      SizeForEntry(entries, i);
    }
  }

  lemma BackedRowsMatch(s: Store, session: Session)
    requires OneSizePerHash(session.payload.entries) && session.negotiated == Distinct(session.payload.entries)
    requires RowsBack(s.blobs, session.ns, session.payload.entries)
    ensures RowsUpTo(s, session, |session.negotiated|)
  {
    var entries := session.payload.entries;
    forall j | 0 <= j < |session.negotiated| ensures RowMatches(s, session, session.negotiated[j]) {
      assert session.negotiated[j] in Distinct(entries);
      var i :| 0 <= i < |entries| && entries[i].hash == session.negotiated[j];
      SizeForEntry(entries, i);
    }
  }

  lemma CommittedRowsMatch(s: Store, sid: SyncId)
    requires StoreOk(s) && sid in s.sessions && s.sessions[sid].receipt.Some?
    ensures Covers(s, s.sessions[sid], [], |s.sessions[sid].negotiated|)
  {
    hide LoopOk, RunOk, KeysUnique, ReceiptsUnique, NumbersUnique;
    var session := s.sessions[sid];
    assert SessionOk(s, sid);
    assert ManifestOk(s, session.receipt.value.snapshot);
    BackedRowsMatch(s, session);
  }

  // ---- prepare ----

  lemma AfterPlanStep(s: Store, op: Op, sid: SyncId, now: Time)
    requires StoreOk(s) && op.call.Prepare? && Admissible(op.call)
    requires sid in s.sessions && exists ns :: KeyIs(s.sessions[sid], ns, op.call)
    ensures Stepped(s, op, AfterPlan(s, op, sid, s.sessions[sid], now))
  {
    hide StoreOk, Evolves;
    StillKeeps(s);
    var session := s.sessions[sid];
    if session.payload == op.call.payload && session.receipt.Some? { CommittedRowsMatch(s, sid); }
  }

  lemma PreInsertStep(s: Store, op: Op, o: Oracle)
    requires StoreOk(s) && op.call.Prepare? && op.pc.PreInsert? && OpOk(s, op)
    ensures Stepped(s, op, AdvancePrepare(s, op, o))
  {
    hide StoreOk, Evolves, Covers, AfterPlan;
    StillKeeps(s);
    var loop := op.pc.loop;
    var session := NewSession(op.pc.ns, op.call, op.pc.now);
    if FoundIsRight(s, op.pc.ns, op.call, o.found) && o.minted !in s.sessions
      && AtRevision(s, op.call.payload.loopId, loop) {
      if o.found.Some? {
        AfterPlanStep(s, op, o.found.value, op.pc.now);
      } else {
        assert !KeyTaken(s, session) by {
          assert forall sid :: sid in s.sessions ==>
            SameKey(s.sessions[sid], session) == KeyIs(s.sessions[sid], op.pc.ns, op.call);
        }
        InsertKeeps(s, loop, o.minted, session);
        var t := InsertSession(s, loop, o.minted, session).value;
        NothingToCover(t, session);
      }
    }
  }

  lemma NothingToCover(t: Store, session: Session)
    ensures Covers(t, session, [], 0)
  {
  }

  lemma PreRenewStep(s: Store, op: Op, o: Oracle)
    requires StoreOk(s) && op.call.Prepare? && (op.pc.PreRenew? || op.pc.PreReread?) && OpOk(s, op)
    ensures Stepped(s, op, AdvancePrepare(s, op, o))
  {
    hide StoreOk, Evolves;
    StillKeeps(s);
    var sid := op.pc.sid;
    if op.pc.PreRenew? {
      var renewed := Renew(s, sid, op.pc.session, op.pc.now);
      if renewed.Some? { RenewKeeps(s, sid, op.pc.session, op.pc.now); }
    } else if s.sessions[sid].receipt.Some? {
      CommittedRowsMatch(s, sid);
    }
  }

  lemma PreNeedStep(s: Store, op: Op, o: Oracle)
    requires StoreOk(s) && op.call.Prepare? && (op.pc.PreNeed? || op.pc.PreHas?) && OpOk(s, op)
    ensures Stepped(s, op, AdvancePrepare(s, op, o))
  {
    hide StoreOk, Evolves;
    StillKeeps(s);
    var sid, session := op.pc.sid, op.pc.session;
    assert forall h :: RowMatches(s, session, h) == RowMatches(s, s.sessions[sid], h);
  }

  lemma PrepareStep(s: Store, op: Op, o: Oracle)
    requires StoreOk(s) && op.call.Prepare? && OpOk(s, op)
    ensures Stepped(s, op, AdvancePrepare(s, op, o))
  {
    hide StoreOk, Evolves, Covers, AfterPlan;
    StillKeeps(s);
    match op.pc
    case PreKey(ns, loop) =>
      if FoundIsRight(s, ns, op.call, o.found) && o.found.Some? {
        var sid := o.found.value;
        AfterPlanStep(s, op, sid, o.now);
        if s.sessions[sid].receipt.Some? { CommittedRowsMatch(s, sid); }
      }
    case PreInsert(_, _, _) => PreInsertStep(s, op, o);
    case PreRenew(_, _, _) => PreRenewStep(s, op, o);
    case PreReread(_) => PreRenewStep(s, op, o);
    case PreNeed(_, _, _, _) => PreNeedStep(s, op, o);
    case PreHas(_, _, _, _) => PreNeedStep(s, op, o);
    case _ =>
  }

  // ---- put ----

  lemma PutStep(s: Store, op: Op, o: Oracle)
    requires StoreOk(s) && op.call.Put? && OpOk(s, op)
    ensures Stepped(s, op, AdvancePut(s, op, o))
  {
    hide StoreOk, Evolves, RegisterBlob, SizeFor, RowMatches;
    StillKeeps(s);
    if op.pc.PutRow? {
      RegisterKeeps(s, op.pc.session.ns, op.call.hash, op.pc.size);
      RegisteredMatches(s, op.call.sid, op.pc.session, op.call.hash, op.pc.size);
    }
  }

  /** Whether the row is new or was there, it is the one the session needs. */
  lemma RegisteredMatches(s: Store, sid: SyncId, session: Session, hash: Hash, size: nat)
    requires StoreOk(s) && Checked(s, sid, hash, size) && SessionSnap(s, sid, session)
    ensures var t := RegisterBlob(s, session.ns, hash, size);
      t.sessions == s.sessions && RowMatches(t, t.sessions[sid], hash)
  {
    hide LoopsOk, SessionsOk, ManifestsOk, RunsOk, KeysUnique, ReceiptsUnique, NumbersUnique, SizeFor;
    assert (session.ns, hash).1 == hash;
  }

  // ---- commit ----

  lemma StampKeeps(s: Store, id: LoopId, seen: Loop, config: nat, error: string, now: Time)
    requires StoreOk(s)
    ensures Keeps(s, StampFailure(s, id, seen, config, error, now))
  {
    hide StoreOk, Evolves, WriteLoop;
    StillKeeps(s);
    if AtRevision(s, id, seen) && s.loops[id].config == config {
      WriteLoopKeeps(s, id,
                     s.loops[id].(attempt := Attempt(Some(now), s.loops[id].attempt.succeededAt, Some(error), config)));
    }
  }

  /** Loop first, session second: a base that has moved while the session still
      has no receipt was moved by another session, for good. */
  lemma MovedBaseIsFinal(s: Store, sid: SyncId, id: LoopId, loop: Loop)
    requires sid in s.sessions && s.sessions[sid].payload.loopId == id && LoopSnap(s, id, loop)
    requires s.sessions[sid].payload.base <= loop.manifestRevision
      && s.sessions[sid].payload.base != loop.manifestRevision
    requires s.sessions[sid].receipt.None?
    ensures Dead(s, sid)
  {
  }

  lemma BaseBelow(s: Store, sid: SyncId)
    requires StoreOk(s) && sid in s.sessions && s.sessions[sid].payload.loopId in s.loops
    ensures s.sessions[sid].payload.base <= s.loops[s.sessions[sid].payload.loopId].manifestRevision
  {
    assert SessionOk(s, sid);
  }

  lemma ComWriteStep(s: Store, op: Op, o: Oracle)
    requires StoreOk(s) && op.call.CommitSync? && op.pc.ComWrite? && OpOk(s, op)
    ensures Stepped(s, op, AdvanceCommit(s, op, o))
  {
    hide StoreOk, Evolves, RowsUpTo, LoopLater, RowsBack;
    StillKeeps(s);
    var sid, seen, live := op.call.sid, op.pc.seen, op.pc.live;
    var landed := Commit(s, sid, live, o.minted, seen.now);
    assert RowsUpTo(s, seen.session, 0) by {
      assert RowsUpTo(s, seen.session, |seen.session.negotiated|);
      NoRows(s, seen.session);
    }
    if landed.Some? {
      CommitLands(s, op);
      CommitKeeps(s, sid, live, o.minted, seen.now);
      assert Evolves(s, landed.value);
      if o.fault == AckLost {
        var at := op.(pc := ComStamp(seen, StorageError));
        assert CommitOk(s, at);
        CommitStable(s, landed.value, at);
      }
    }
  }

  lemma NoRows(s: Store, session: Session)
    ensures RowsUpTo(s, session, 0)
  {
  }

  lemma CommitLands(s: Store, op: Op)
    requires StoreOk(s) && op.call.CommitSync? && op.pc.ComWrite? && OpOk(s, op)
    requires AtRevision(s, op.pc.seen.session.payload.loopId, op.pc.live)
    ensures op.call.sid in s.sessions && s.sessions[op.call.sid].payload.loopId in s.loops
    ensures Committable(s, op.call.sid, op.pc.live)
  {
    hide ManifestOk, LoopOk, RunOk, KeysUnique, ReceiptsUnique, NumbersUnique;
    var sid, seen := op.call.sid, op.pc.seen;
    assert SessionOk(s, sid);
    NegotiatedRowsBack(s, seen.session);
  }

  /** The two adjudications, before and inside the transaction. */
  lemma ComSessionStep(s: Store, op: Op, o: Oracle)
    requires StoreOk(s) && op.call.CommitSync? && (op.pc.ComSession? || op.pc.ComLiveSession?) && OpOk(s, op)
    ensures Stepped(s, op, AdvanceCommit(s, op, o))
  {
    hide StoreOk, Evolves, LoopLater, RowMatches;
    StillKeeps(s);
    var sid := op.call.sid;
    if op.pc.ComSession? {
      var found := op.pc.found;
      if found.Some? && s.sessions[sid].receipt.None? && s.sessions[sid].payload.base != found.value.manifestRevision {
        MovedBaseIsFinal(s, sid, op.pc.id, found.value);
      }
    } else {
      var id := op.pc.seen.session.payload.loopId;
      NoRows(s, op.pc.seen.session);
      if s.sessions[sid].receipt.None? && s.sessions[sid].payload.base != op.pc.live.manifestRevision {
        MovedBaseIsFinal(s, sid, id, op.pc.live);
      }
    }
  }

  /** The points that read the store, and the loop row, without adjudicating. */
  lemma ComReadStep(s: Store, op: Op, o: Oracle)
    requires StoreOk(s) && op.call.CommitSync? && OpOk(s, op)
    requires op.pc.Begin? || op.pc.ComProbe? || op.pc.ComBlob? || op.pc.ComHas?
    ensures Stepped(s, op, AdvanceCommit(s, op, o))
  {
    hide StoreOk, Evolves, LoopSnap, SessionSnap, RowMatches;
    StillKeeps(s);
  }

  lemma ComLoopStep(s: Store, op: Op, o: Oracle)
    requires StoreOk(s) && op.call.CommitSync? && (op.pc.ComLoop? || op.pc.ComLive?) && OpOk(s, op)
    ensures Stepped(s, op, AdvanceCommit(s, op, o))
  {
    hide StoreOk, Evolves, LoopLater, RowMatches, RowsUpTo;
    StillKeeps(s);
    var id := if op.pc.ComLoop? then op.pc.id else op.pc.seen.session.payload.loopId;
    if id in s.loops { BaseBelow(s, op.call.sid); LoopSelf(s, id); }
    NoRows(s, s.sessions[op.call.sid]);
    if op.pc.ComLive? { NoRows(s, op.pc.seen.session); }
  }

  lemma ComStampStep(s: Store, op: Op, o: Oracle)
    requires StoreOk(s) && op.call.CommitSync? && op.pc.ComStamp? && OpOk(s, op)
    ensures Stepped(s, op, AdvanceCommit(s, op, o))
  {
    hide StoreOk, Evolves, StampFailure, LoopLater, RowMatches;
    StillKeeps(s);
    var seen, failure := op.pc.seen, op.pc.failure;
    var session := seen.session;
    StampKeeps(s, session.payload.loopId, seen.loop, session.payload.config, ErrorText(failure), seen.now);
    var t := StampFailure(s, session.payload.loopId, seen.loop, session.payload.config, ErrorText(failure), seen.now);
    SnapsStable(s, t, op.call.sid, session, session.payload.loopId, seen.loop);
  }

  lemma CommitStep(s: Store, op: Op, o: Oracle)
    requires StoreOk(s) && op.call.CommitSync? && OpOk(s, op)
    ensures Stepped(s, op, AdvanceCommit(s, op, o))
  {
    hide StoreOk, OpOk, Stepped, AdvanceCommit;
    match op.pc
    case Begin => ComReadStep(s, op, o);
    case ComProbe(_) => ComReadStep(s, op, o);
    case ComBlob(_, _) => ComReadStep(s, op, o);
    case ComHas(_, _) => ComReadStep(s, op, o);
    case ComLoop(_, _) => ComLoopStep(s, op, o);
    case ComLive(_) => ComLoopStep(s, op, o);
    case ComSession(_, _, _) => ComSessionStep(s, op, o);
    case ComLiveSession(_, _) => ComSessionStep(s, op, o);
    case ComWrite(_, _) => ComWriteStep(s, op, o);
    case ComStamp(_, _) => ComStampStep(s, op, o);
    case _ => IdleStep(s, op, o);
  }

  /** A point of another operation, or a finished one: nothing moves. */
  lemma IdleStep(s: Store, op: Op, o: Oracle)
    requires StoreOk(s) && op.call.CommitSync? && OpOk(s, op)
    requires !(op.pc.Begin? || op.pc.ComProbe? || op.pc.ComLoop? || op.pc.ComSession? || op.pc.ComBlob?
               || op.pc.ComHas? || op.pc.ComLive? || op.pc.ComLiveSession? || op.pc.ComWrite? || op.pc.ComStamp?)
    ensures Stepped(s, op, AdvanceCommit(s, op, o))
  {
    hide StoreOk, Evolves;
    StillKeeps(s);
  }

  lemma LoopSelf(s: Store, id: LoopId)
    requires id in s.loops
    ensures LoopSnap(s, id, s.loops[id])
  {
  }

  // ---- the competing writers ----

  lemma OtherStep(s: Store, op: Op, o: Oracle)
    requires StoreOk(s) && !op.call.Prepare? && !op.call.Put? && !op.call.CommitSync? && OpOk(s, op)
    ensures Stepped(s, op, AdvanceOther(s, op, o))
  {
    if op.call.BindSnapshot? { BindCallStep(s, op, o); } else { LoopCallStep(s, op, o); }
    hide *;
  }

  lemma LoopCallStep(s: Store, op: Op, o: Oracle)
    requires StoreOk(s) && (op.call.Configure? || op.call.ReportError? || op.call.ReadLoop?) && OpOk(s, op)
    ensures Stepped(s, op, AdvanceOther(s, op, o))
  {
    hide StoreOk, Evolves, UpdateConfig, RecordSyncError, ApplyBinding, PlanBinding;
    StillKeeps(s);
    match op.pc
    case CfgWrite(loop, planned) =>
      if UpdateConfig(s, op.call.id, loop, planned).Some? { ConfigKeeps(s, op.call.id, loop, planned); }
    case RepWrite(loop) =>
      if op.call.ReportError?
        && RecordSyncError(s, op.call.id, loop, op.call.config, op.call.base, op.call.error, o.now).Some? {
        ReportKeeps(s, op.call.id, loop, op.call.config, op.call.base, op.call.error, o.now);
      }
    case _ =>
  }

  lemma BindCallStep(s: Store, op: Op, o: Oracle)
    requires StoreOk(s) && op.call.BindSnapshot? && OpOk(s, op)
    ensures Stepped(s, op, AdvanceOther(s, op, o))
  {
    hide StoreOk, Evolves, UpdateConfig, RecordSyncError, ApplyBinding, PlanConfig;
    StillKeeps(s);
    match op.pc
    case BindWrite(run, plan) =>
      if ApplyBinding(s, op.call.rid, run, plan).Some? { BindKeeps(s, op.call.rid, run, plan); }
    case _ =>
  }

  lemma ConfigKeeps(s: Store, id: LoopId, seen: Loop, planned: Loop)
    requires StoreOk(s) && UpdateConfig(s, id, seen, planned).Some? && LoopSnap(s, id, seen)
    requires planned.config == seen.config + 1 && planned.attempt == CLEAR
    ensures Keeps(s, UpdateConfig(s, id, seen, planned).value)
  {
    hide StoreOk, Evolves, WriteLoop;
    WriteLoopKeeps(s, id, s.loops[id].(dir := planned.dir, config := planned.config, attempt := planned.attempt));
  }

  lemma ReportKeeps(s: Store, id: LoopId, seen: Loop, config: nat, base: nat, error: string, now: Time)
    requires StoreOk(s) && RecordSyncError(s, id, seen, config, base, error, now).Some?
    ensures Keeps(s, RecordSyncError(s, id, seen, config, base, error, now).value)
  {
    hide StoreOk, Evolves, WriteLoop;
    WriteLoopKeeps(s, id,
                   s.loops[id].(attempt := Attempt(Some(now), s.loops[id].attempt.succeededAt, Some(error), config)));
  }

  lemma AdvanceStep(s: Store, op: Op, o: Oracle)
    requires StoreOk(s) && OpOk(s, op)
    ensures Stepped(s, op, Advance(s, op, o))
  {
    hide StoreOk, OpOk, Stepped, AdvancePrepare, AdvancePut, AdvanceCommit, AdvanceOther;
    if op.call.Prepare? { PrepareStep(s, op, o); }
    else if op.call.Put? { PutStep(s, op, o); }
    else if op.call.CommitSync? { CommitStep(s, op, o); }
    else { OtherStep(s, op, o); }
  }
}
