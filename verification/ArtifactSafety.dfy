/**
 Safety over whole runs: any interleaving of prepare, PUT, commit, config
 updates, sync-error reports, snapshot binding and out-of-band row changes,
 starting from an empty server.
 */
module ArtifactSafety {
  import opened Wrappers
  import opened ArtifactStore
  import opened ArtifactServer
  import opened ArtifactSteps

  ghost predicate Inv(v: Server) {
    StoreOk(v.store) && forall k :: k in v.ops ==> OpOk(v.store, v.ops[k])
  }

  /** Operations are never forgotten, and an answer never changes. */
  ghost predicate Later(v: Server, w: Server) {
    && Evolves(v.store, w.store)
    && forall k :: k in v.ops ==>
         && k in w.ops && w.ops[k].call == v.ops[k].call
         && (v.ops[k].pc.Done? ==> w.ops[k] == v.ops[k])
  }

  lemma OpsKeep(v: Server, w: Server)
    requires Inv(v) && Keeps(v.store, w.store)
    requires forall k :: k in w.ops ==> OpOk(w.store, w.ops[k]) || (k in v.ops && w.ops[k] == v.ops[k])
    ensures Inv(w)
  {
    hide OpOk, StoreOk, Evolves;
    forall k | k in w.ops ensures OpOk(w.store, w.ops[k]) {
      if k in v.ops && w.ops[k] == v.ops[k] { OpOkStable(v.store, w.store, v.ops[k]); }
    }
  }

  lemma ActKeeps(v: Server, a: Action)
    requires Inv(v)
    ensures Inv(Act(v, a)) && Later(v, Act(v, a))
  {
    hide StoreOk, Evolves, Advance, OpOk, WriteLoop;
    var s, w := v.store, Act(v, a);
    StillKeeps(s);
    match a {
      case Start(opId, call) =>
        if opId !in v.ops && Admissible(call) { FreshOpOk(s, call); }
      case Step(opId, o) =>
        if opId in v.ops {
          AdvanceStep(s, v.ops[opId], o);
          DoneStays(s, v.ops[opId], o);
        }
      case Touch(id) => if id in s.loops { TouchKeeps(s, id); }
      case CreateLoop(id, loop) => if w != v { CreateKeeps(s, id, loop); }
      case DeleteLoop(id) => if id in s.loops { DeleteKeeps(s, id); }
      case CreateRun(rid, run) => if w != v { RunAdded(s, rid, run); }
      case MovePhase(rid, phase) => if rid in s.runs { RunAdded(s, rid, s.runs[rid].(phase := phase)); }
    }
    OpsKeep(v, w);
  }

  lemma FreshOpOk(s: Store, call: Call)
    requires Admissible(call)
    ensures OpOk(s, Op(call, false, Begin))
  {
  }

  lemma DoneStays(s: Store, op: Op, o: Oracle)
    ensures op.pc.Done? ==> Advance(s, op, o) == Move(s, op)
  {
  }

  lemma TouchKeeps(s: Store, id: LoopId)
    requires StoreOk(s) && id in s.loops
    ensures Keeps(s, WriteLoop(s, id, s.loops[id]))
  {
    hide StoreOk, Evolves, WriteLoop;
    LoopFacts(s) by { StoreHasLoops(s); }
    WriteLoopKeeps(s, id, s.loops[id]);
  }

  lemma StoreHasLoops(s: Store)
    requires StoreOk(s)
    ensures LoopsOk(s) && RunsOk(s)
  {
  }

  lemma RunAdded(s: Store, rid: RunId, run: Run)
    requires StoreOk(s)
    requires if rid in s.runs then SameRun(s.runs[rid], run) && run.snapshot == s.runs[rid].snapshot
      else run.snapshot.None?
    ensures Keeps(s, s.(runs := s.runs[rid := run]))
  {
    hide StoreOk, Evolves;
    StoreHasLoops(s);
    assert forall r :: r in s.runs ==> RunOk(s, r);
    RunsKeep(s, s.runs[rid := run]);
  }

  lemma LaterTransitive(u: Server, v: Server, w: Server)
    requires Later(u, v) && Later(v, w)
    ensures Later(u, w)
  {
    hide Evolves;
    EvolvesTransitive(u.store, v.store, w.store);
  }

  /** Every reachable server satisfies the invariant, and what holds for good at
      some point of a run still holds at its end. */
  lemma {:induction false} RunKeeps(v: Server, run: seq<Action>)
    requires Inv(v)
    ensures Inv(Acts(v, run)) && Later(v, Acts(v, run))
  {
    hide Inv, Later, Act;
    if run == [] {
      LaterSelf(v);
    } else {
      var before := Acts(v, run[..|run| - 1]);
      RunKeeps(v, run[..|run| - 1]);
      ActKeeps(before, run[|run| - 1]);
      LaterTransitive(v, before, Acts(v, run));
    }
  }

  lemma LaterSelf(v: Server)
    requires Inv(v)
    ensures Later(v, v)
  {
  }

  lemma EmptyOk()
    ensures Inv(EMPTY)
  {
  }

  lemma Reachable(run: seq<Action>)
    ensures Inv(Acts(EMPTY, run))
  {
    EmptyOk();
    RunKeeps(EMPTY, run);
  }

  // ---- The theorems ----

  ghost predicate IsRevision(s: Store, mid: ManifestId, id: LoopId, revision: nat) {
    mid in s.manifests && s.manifests[mid].loopId == id && s.manifests[mid].revision == revision
  }

  /** Manifests of a loop carry revisions 1..n, each exactly once, and the loop
      points at the last one. */
  lemma RevisionsWithoutGap(run: seq<Action>, id: LoopId)
    requires id in Acts(EMPTY, run).store.loops
    ensures
      var s := Acts(EMPTY, run).store; var loop := s.loops[id];
      && (forall r: nat :: Numbered(s, id, r) <==> 1 <= r <= loop.manifestRevision)
      && (forall a, b, r :: IsRevision(s, a, id, r) && IsRevision(s, b, id, r) ==> a == b)
      && (if loop.manifestRevision == 0 then loop.manifestId.None?
          else loop.manifestId.Some? && IsRevision(s, loop.manifestId.value, id, loop.manifestRevision))
  {
    Reachable(run);
    var s := Acts(EMPTY, run).store;
    hide Acts, SessionOk;
    assert LoopOk(s, id);
    forall r: nat | Numbered(s, id, r) ensures 1 <= r <= s.loops[id].manifestRevision {
      var mid :| mid in s.manifests && s.manifests[mid].loopId == id && s.manifests[mid].revision == r;
      assert ManifestOk(s, mid);
    }
    forall a, b, r | IsRevision(s, a, id, r) && IsRevision(s, b, id, r) ensures a == b {
      assert SameNumber(s.manifests[a], s.manifests[b]);
    }
  }

  /** Receipts and manifests match one to one, and a manifest is its session's
      negotiated payload, one revision past the session's base. */
  lemma ReceiptsMatchManifests(run: seq<Action>)
    ensures
      var s := Acts(EMPTY, run).store;
      && (forall mid :: mid in s.manifests ==> Receipted(s, mid))
      && (forall a, b :: a in s.sessions && b in s.sessions && SameReceipt(s.sessions[a], s.sessions[b]) ==> a == b)
      && (forall sid :: sid in s.sessions && s.sessions[sid].receipt.Some? ==>
            && s.sessions[sid].receipt.value.snapshot in s.manifests
            && s.sessions[sid].receipt.value.revision == s.sessions[sid].payload.base + 1
            && s.manifests[s.sessions[sid].receipt.value.snapshot]
            == ManifestOf(s.sessions[sid], s.sessions[sid].payload.base + 1))
  {
    hide *;
    Reachable(run);
    ReceiptsMatch(Acts(EMPTY, run));
  }

  lemma ReceiptsMatch(v: Server)
    requires Inv(v)
    ensures
      var s := v.store;
      && (forall mid :: mid in s.manifests ==> Receipted(s, mid))
      && (forall a, b :: a in s.sessions && b in s.sessions && SameReceipt(s.sessions[a], s.sessions[b]) ==> a == b)
      && (forall sid :: sid in s.sessions && s.sessions[sid].receipt.Some? ==>
            && s.sessions[sid].receipt.value.snapshot in s.manifests
            && s.sessions[sid].receipt.value.revision == s.sessions[sid].payload.base + 1
            && s.manifests[s.sessions[sid].receipt.value.snapshot]
            == ManifestOf(s.sessions[sid], s.sessions[sid].payload.base + 1))
  {
    hide LoopOk, OpOk, RunOk, BlobsOk, TotalBytes;
    var s := v.store;
    assert forall mid :: mid in s.manifests ==> ManifestOk(s, mid);
    assert forall sid :: sid in s.sessions ==> SessionOk(s, sid);
  }

  /** A receipt, once written, is never changed by any continuation, and every
      commit of that session answered with a receipt answers with this one. */
  lemma ReceiptIsWriteOnce(run: seq<Action>, more: seq<Action>, sid: SyncId)
    requires sid in Acts(EMPTY, run).store.sessions && Acts(EMPTY, run).store.sessions[sid].receipt.Some?
    ensures
      var receipt := Acts(EMPTY, run).store.sessions[sid].receipt; var w := Acts(Acts(EMPTY, run), more);
      && sid in w.store.sessions && w.store.sessions[sid].receipt == receipt
      && forall k, machine, r ::
           k in w.ops && w.ops[k].call == CommitSync(machine, sid) && w.ops[k].pc == Done(Committed(r)) ==>
             receipt == Some(r)
  {
    hide *;
    Reachable(run);
    var v := Acts(EMPTY, run);
    RunKeeps(v, more);
    ReceiptStays(v, Acts(v, more), sid);
  }

  lemma ReceiptStays(v: Server, w: Server, sid: SyncId)
    requires Inv(w) && Later(v, w) && sid in v.store.sessions && v.store.sessions[sid].receipt.Some?
    ensures sid in w.store.sessions && w.store.sessions[sid].receipt == v.store.sessions[sid].receipt
    ensures
      forall k, machine, r ::
        k in w.ops && w.ops[k].call == CommitSync(machine, sid) && w.ops[k].pc == Done(Committed(r)) ==>
          w.store.sessions[sid].receipt == Some(r)
  {
    hide StoreOk, Dead, LoopLater, SameRun, PrepareOk, PutOk, CommitOk, OtherOk;
    assert forall k :: k in w.ops ==> OpOk(w.store, w.ops[k]);
    hide Evolves;
  }

  /** A `manifest_conflict` answer to a commit is true, and final: the session has
      no receipt, and no continuation gives it one or commits it. */
  lemma ConflictIsFinal(run: seq<Action>, more: seq<Action>, k: nat, machine: MachineId, sid: SyncId)
    requires k in Acts(EMPTY, run).ops && Acts(EMPTY, run).ops[k].call == CommitSync(machine, sid)
    requires Acts(EMPTY, run).ops[k].pc == Done(Failed(ManifestConflict))
    ensures
      var w := Acts(Acts(EMPTY, run), more);
      && sid in w.store.sessions && w.store.sessions[sid].receipt.None?
      && forall j, m, r :: j in w.ops && w.ops[j].call == CommitSync(m, sid) ==> w.ops[j].pc != Done(Committed(r))
  {
    hide *;
    Reachable(run);
    var v := Acts(EMPTY, run);
    RunKeeps(v, more);
    DeadStays(v, Acts(v, more), k, machine, sid);
  }

  lemma DeadForGood(s: Store, t: Store, sid: SyncId)
    requires Evolves(s, t) && Dead(s, sid)
    ensures Dead(t, sid)
  {
  }

  lemma DeadStays(v: Server, w: Server, k: nat, machine: MachineId, sid: SyncId)
    requires Inv(v) && Inv(w) && Later(v, w)
    requires k in v.ops && v.ops[k].call == CommitSync(machine, sid) && v.ops[k].pc == Done(Failed(ManifestConflict))
    ensures sid in w.store.sessions && w.store.sessions[sid].receipt.None?
    ensures forall j, m, r :: j in w.ops && w.ops[j].call == CommitSync(m, sid) ==> w.ops[j].pc != Done(Committed(r))
  {
    hide StoreOk, Evolves, PrepareOk, PutOk, CommitOk, OtherOk;
    assert OpOk(v.store, v.ops[k]);
    DeadForGood(v.store, w.store, sid);
    assert forall j :: j in w.ops ==> OpOk(w.store, w.ops[j]);
  }

  /** Both adjudications of a commit read the loop first and the session second. When one
      decides for `manifest_conflict`, another session has passed the base, for good. */
  lemma DecidedConflictIsTrue(run: seq<Action>, more: seq<Action>, k: nat, seen: Seen)
    requires k in Acts(EMPTY, run).ops && Acts(EMPTY, run).ops[k].call.CommitSync?
    requires Acts(EMPTY, run).ops[k].pc == ComStamp(seen, ManifestConflict)
    ensures Dead(Acts(Acts(EMPTY, run), more).store, Acts(EMPTY, run).ops[k].call.sid)
  {
    hide *;
    Reachable(run);
    var v := Acts(EMPTY, run);
    RunKeeps(v, more);
    DecidedIsDead(v, k, seen);
    DeadForGood(v.store, Acts(v, more).store, v.ops[k].call.sid) by { LaterEvolves(v, Acts(v, more)); }
  }

  lemma LaterEvolves(v: Server, w: Server)
    requires Later(v, w)
    ensures Evolves(v.store, w.store)
  {
  }

  lemma DecidedIsDead(v: Server, k: nat, seen: Seen)
    requires Inv(v) && k in v.ops && v.ops[k].call.CommitSync? && v.ops[k].pc == ComStamp(seen, ManifestConflict)
    ensures Dead(v.store, v.ops[k].call.sid)
  {
    hide StoreOk, Dead;
    assert OpOk(v.store, v.ops[k]);
  }

  /** Every entry of every manifest has a metadata row of exactly its size, which
      is the length of the content behind the hash; `totalBytes` is their sum; and
      rows never change. */
  lemma SizesAreVerified(run: seq<Action>, more: seq<Action>, mid: ManifestId, i: nat)
    requires mid in Acts(EMPTY, run).store.manifests && i < |Acts(EMPTY, run).store.manifests[mid].entries|
    ensures
      var m := Acts(EMPTY, run).store.manifests[mid]; var e := m.entries[i];
      var w := Acts(Acts(EMPTY, run), more).store;
      && (m.ns, e.hash) in w.blobs && w.blobs[(m.ns, e.hash)] == e.size == |e.hash.content|
      && mid in w.manifests && w.manifests[mid] == m && m.totalBytes == TotalBytes(m.entries)
  {
    Reachable(run);
    var v := Acts(EMPTY, run);
    RunKeeps(v, more);
    hide Acts, LoopOk, SessionOk;
    assert ManifestOk(v.store, mid);
    var k := (v.store.manifests[mid].ns, v.store.manifests[mid].entries[i].hash);
    assert v.store.blobs[k] == |k.1.content|;
  }

  /** What a successful prepare leaves out of its upload list is already stored
      with its verified size, and stays so. */
  lemma UndemandedIsStored(run: seq<Action>, more: seq<Action>, k: nat, h: Hash)
    requires k in Acts(EMPTY, run).ops && Acts(EMPTY, run).ops[k].call.Prepare?
    requires Acts(EMPTY, run).ops[k].pc.Done? && Acts(EMPTY, run).ops[k].pc.result.Prepared?
    ensures
      var op := Acts(EMPTY, run).ops[k]; var w := Acts(Acts(EMPTY, run), more).store; var sid := op.pc.result.sid;
      && SessionAnswers(w, sid, op.call)
      && (h in w.sessions[sid].negotiated && h !in op.pc.result.need ==> RowMatches(w, w.sessions[sid], h))
  {
    Reachable(run);
    var v := Acts(EMPTY, run);
    RunKeeps(v, more);
    hide Acts, StoreOk, Evolves, SessionAnswers, RowMatches;
    var w := Acts(v, more);
    assert OpOk(w.store, w.ops[k]);
  }

  /** The only way for a prepare to pass over a hash without asking for it: its row has
      the negotiated size, and the store has just answered that the file is there. */
  lemma PassedOverIsPresent(run: seq<Action>, k: nat, o: Oracle)
    requires k in Acts(EMPTY, run).ops && Acts(EMPTY, run).ops[k].call.Prepare?
    requires Acts(EMPTY, run).ops[k].pc.PreNeed? || Acts(EMPTY, run).ops[k].pc.PreHas?
    ensures
      var v := Acts(EMPTY, run); var s, pc, next := v.store, v.ops[k].pc, Act(v, Step(k, o)).ops[k].pc;
      next.PreNeed? && next.i == pc.i + 1 ==>
        && pc.sid in s.sessions && pc.i < |s.sessions[pc.sid].negotiated|
        && var h := s.sessions[pc.sid].negotiated[pc.i];
        && next.sid == pc.sid && (next.need == pc.need || next.need == pc.need + [h])
        && (next.need == pc.need <==> pc.PreHas? && o.present == Some(true))
        && (next.need == pc.need ==> RowMatches(s, s.sessions[pc.sid], h))
  {
    hide *;
    Reachable(run);
    PassedOver(Acts(EMPTY, run), k, o);
  }

  lemma PassedOver(v: Server, k: nat, o: Oracle)
    requires Inv(v) && k in v.ops && v.ops[k].call.Prepare? && (v.ops[k].pc.PreNeed? || v.ops[k].pc.PreHas?)
    ensures
      var s, pc, next := v.store, v.ops[k].pc, Act(v, Step(k, o)).ops[k].pc;
      next.PreNeed? && next.i == pc.i + 1 ==>
        && pc.sid in s.sessions && pc.i < |s.sessions[pc.sid].negotiated|
        && var h := s.sessions[pc.sid].negotiated[pc.i];
        && next.sid == pc.sid && (next.need == pc.need || next.need == pc.need + [h])
        && (next.need == pc.need <==> pc.PreHas? && o.present == Some(true))
        && (next.need == pc.need ==> RowMatches(s, s.sessions[pc.sid], h))
  {
    hide StoreOk, Covers, SizeFor;
    assert OpOk(v.store, v.ops[k]);
    var need := v.ops[k].pc.need;
    assert forall h: Hash :: need + [h] != need;
  }

  /** An accepted PUT leaves its hash with a row of the negotiated size, for good. */
  lemma UploadedIsStored(run: seq<Action>, more: seq<Action>, k: nat)
    requires k in Acts(EMPTY, run).ops && Acts(EMPTY, run).ops[k].call.Put?
      && Acts(EMPTY, run).ops[k].pc == Done(Uploaded)
    ensures
      var call := Acts(EMPTY, run).ops[k].call; var w := Acts(Acts(EMPTY, run), more).store;
      call.sid in w.sessions && RowMatches(w, w.sessions[call.sid], call.hash)
  {
    Reachable(run);
    var v := Acts(EMPTY, run);
    RunKeeps(v, more);
    hide Acts, StoreOk, Evolves, RowMatches;
    var w := Acts(v, more);
    assert OpOk(w.store, w.ops[k]);
  }

  // ---- Generation isolation ----

  /** The config generation an operation speaks for. */
  function GenerationOf(s: Store, op: Op): Option<nat> {
    match op.call
    case CommitSync(_, sid) => if sid in s.sessions then Some(s.sessions[sid].payload.config) else None
    case ReportError(_, _, config, _, _) => Some(config)
    case _ => None
  }

  /** Whoever changes a loop's attempt triple is bound to the loop's generation at
      that moment, or moves the generation and clears the triple. */
  lemma AttemptWriterIsCurrent(run: seq<Action>, k: nat, o: Oracle, id: LoopId)
    requires k in Acts(EMPTY, run).ops && id in Acts(EMPTY, run).store.loops
    ensures
      var v := Acts(EMPTY, run); var t := Act(v, Step(k, o)).store;
      id in t.loops && t.loops[id].attempt != v.store.loops[id].attempt ==>
        if t.loops[id].config == v.store.loops[id].config
        then GenerationOf(v.store, v.ops[k]) == Some(t.loops[id].config)
          && t.loops[id].attempt.bound == t.loops[id].config
        else t.loops[id].config == v.store.loops[id].config + 1 && t.loops[id].attempt == CLEAR
  {
    Reachable(run);
    var v := Acts(EMPTY, run);
    hide Acts, StoreOk, Evolves;
    AttemptStep(v.store, v.ops[k], o, id);
  }

  lemma AttemptStep(s: Store, op: Op, o: Oracle, id: LoopId)
    requires OpOk(s, op) && id in s.loops
    ensures
      var t := Advance(s, op, o).store;
      id in t.loops && t.loops[id].attempt != s.loops[id].attempt ==>
        if t.loops[id].config == s.loops[id].config
        then GenerationOf(s, op) == Some(t.loops[id].config) && t.loops[id].attempt.bound == t.loops[id].config
        else t.loops[id].config == s.loops[id].config + 1 && t.loops[id].attempt == CLEAR
  {
    if op.call.Prepare? || op.call.Put? { ViewUntouched(s, op, o); }
    else if op.call.CommitSync? { CommitAttempt(s, op, o, id); }
    else { OtherAttempt(s, op, o, id); }
    hide Advance, OpOk;
  }

  lemma OtherAttempt(s: Store, op: Op, o: Oracle, id: LoopId)
    requires !op.call.Prepare? && !op.call.Put? && !op.call.CommitSync? && OtherOk(s, op) && id in s.loops
    ensures
      var t := Advance(s, op, o).store;
      id in t.loops && t.loops[id].attempt != s.loops[id].attempt ==>
        if t.loops[id].config == s.loops[id].config
        then GenerationOf(s, op) == Some(t.loops[id].config) && t.loops[id].attempt.bound == t.loops[id].config
        else t.loops[id].config == s.loops[id].config + 1 && t.loops[id].attempt == CLEAR
  {
    hide AdvancePrepare, AdvancePut, AdvanceCommit, PlanBinding, PlanConfig;
    if op.call.BindSnapshot? || op.call.ReadLoop? {
      LoopsUntouched(s, op, o);
      hide Advance, OtherOk;
    }
  }

  lemma LoopsUntouched(s: Store, op: Op, o: Oracle)
    requires op.call.BindSnapshot? || op.call.ReadLoop?
    ensures Advance(s, op, o).store.loops == s.loops
  {
    hide PlanBinding;
  }

  lemma CommitAttempt(s: Store, op: Op, o: Oracle, id: LoopId)
    requires op.call.CommitSync? && OpOk(s, op) && id in s.loops
    ensures
      var t := Advance(s, op, o).store;
      id in t.loops && t.loops[id].attempt != s.loops[id].attempt ==>
        && t.loops[id].config == s.loops[id].config
        && GenerationOf(s, op) == Some(t.loops[id].config) && t.loops[id].attempt.bound == t.loops[id].config
  {
    CommitWrites(s, op, o);
    hide AdvancePrepare, AdvancePut, AdvanceCommit, AdvanceOther, RowsUpTo, Dead;
  }

  /** A commit operation writes at two points only. */
  lemma CommitWrites(s: Store, op: Op, o: Oracle)
    requires op.call.CommitSync?
    ensures
      var t := Advance(s, op, o).store;
      t == s
      || (op.pc.ComWrite? && Commit(s, op.call.sid, op.pc.live, o.minted, op.pc.seen.now) == Some(t))
      || (op.pc.ComStamp? && t == StampFailure(s, op.pc.seen.session.payload.loopId, op.pc.seen.loop,
                                               op.pc.seen.session.payload.config, ErrorText(op.pc.failure),
                                               op.pc.seen.now))
  {
    hide Commit, StampFailure, RowMatches;
  }

  /** Prepare and PUT never write the current view. */
  lemma ViewUntouched(s: Store, op: Op, o: Oracle)
    requires op.call.Prepare? || op.call.Put?
    ensures var t := Advance(s, op, o).store; t.loops == s.loops && t.manifests == s.manifests && t.runs == s.runs
  {
    hide FoundIsRight, RowMatches, KeyIs, AdvanceCommit, AdvanceOther;
    if op.call.Prepare? { hide AdvancePut; } else { hide AdvancePrepare; }
  }

  /** A report bound to base m never lands once a commit has passed m. */
  lemma LateReportNeverLands(run: seq<Action>, more: seq<Action>, k: nat, o: Oracle)
    requires var w := Acts(Acts(EMPTY, run), more); k in w.ops && w.ops[k].call.ReportError?
    requires
      var call := Acts(Acts(EMPTY, run), more).ops[k].call; var s := Acts(EMPTY, run).store;
      call.id in s.loops && call.base < s.loops[call.id].manifestRevision
    ensures var w := Acts(Acts(EMPTY, run), more); Act(w, Step(k, o)).store == w.store
  {
    hide *;
    Reachable(run);
    var v := Acts(EMPTY, run);
    RunKeeps(v, more);
    LateReport(v, Acts(v, more), k, o);
  }

  lemma LateReport(v: Server, w: Server, k: nat, o: Oracle)
    requires Later(v, w) && k in w.ops && w.ops[k].call.ReportError?
    requires w.ops[k].call.id in v.store.loops && w.ops[k].call.base < v.store.loops[w.ops[k].call.id].manifestRevision
    ensures Act(w, Step(k, o)).store == w.store
  {
    hide Dead, SessionLater, SameRun;
  }

  /** A run's snapshot is set only to a manifest of its own loop and machine, the
      machine the report is attributed to, and only while that manifest's generation is
      the loop's. */
  lemma BoundOnlyWhileCurrent(run: seq<Action>, k: nat, o: Oracle, rid: RunId)
    requires k in Acts(EMPTY, run).ops && rid in Acts(EMPTY, run).store.runs
    ensures
      var v := Acts(EMPTY, run); var s := v.store; var t := Act(v, Step(k, o)).store;
      rid in t.runs && t.runs[rid].snapshot != s.runs[rid].snapshot && t.runs[rid].snapshot.Some? ==>
        var mid := t.runs[rid].snapshot.value; var id := s.runs[rid].loopId;
        && mid in s.manifests && s.manifests[mid].loopId == id && s.manifests[mid].machine == s.runs[rid].machine
        && id in s.loops && s.loops[id].config == s.manifests[mid].config
        && v.ops[k].call.BindSnapshot? && v.ops[k].call.attributed == s.runs[rid].machine
  {
    Reachable(run);
    var v := Acts(EMPTY, run);
    hide Acts, StoreOk, Evolves;
    BindStep(v.store, v.ops[k], o, rid);
  }

  lemma BindStep(s: Store, op: Op, o: Oracle, rid: RunId)
    requires OpOk(s, op) && rid in s.runs
    ensures
      var t := Advance(s, op, o).store;
      rid in t.runs && t.runs[rid].snapshot != s.runs[rid].snapshot && t.runs[rid].snapshot.Some? ==>
        var mid := t.runs[rid].snapshot.value; var id := s.runs[rid].loopId;
        && mid in s.manifests && s.manifests[mid].loopId == id && s.manifests[mid].machine == s.runs[rid].machine
        && id in s.loops && s.loops[id].config == s.manifests[mid].config
        && op.call.BindSnapshot? && op.call.attributed == s.runs[rid].machine
  {
    if op.call.BindSnapshot? {
      BindCallBinds(s, op, o, rid);
    } else {
      if op.call.Prepare? || op.call.Put? { ViewUntouched(s, op, o); }
      else if op.call.CommitSync? { RunsUntouched(s, op, o); }
      else { OtherRunsUntouched(s, op, o); }
      hide *;
    }
  }

  lemma BindCallBinds(s: Store, op: Op, o: Oracle, rid: RunId)
    requires OpOk(s, op) && rid in s.runs && op.call.BindSnapshot?
    ensures
      var t := Advance(s, op, o).store;
      rid in t.runs && t.runs[rid].snapshot != s.runs[rid].snapshot && t.runs[rid].snapshot.Some? ==>
        var mid := t.runs[rid].snapshot.value; var id := s.runs[rid].loopId;
        && mid in s.manifests && s.manifests[mid].loopId == id && s.manifests[mid].machine == s.runs[rid].machine
        && id in s.loops && s.loops[id].config == s.manifests[mid].config && op.call.attributed == s.runs[rid].machine
  {
    hide StoreOk, Evolves, PlanBinding;
  }

  lemma OtherRunsUntouched(s: Store, op: Op, o: Oracle)
    requires op.call.Configure? || op.call.ReportError? || op.call.ReadLoop?
    ensures Advance(s, op, o).store.runs == s.runs
  {
    hide PlanConfig;
  }

  lemma RunsUntouched(s: Store, op: Op, o: Oracle)
    requires op.call.CommitSync?
    ensures Advance(s, op, o).store.runs == s.runs
  {
  }

  // ---- A commit that is left alone lands ----

  function AdvanceMany(s: Store, op: Op, o: Oracle, n: nat): Move
    decreases n
  {
    if n == 0 then Move(s, op) else var m := Advance(s, op, o); AdvanceMany(m.store, m.op, o, n - 1)
  }

  /** The session is pending, its generation and base are the loop's, and every
      row it needs is there. */
  ghost predicate Complete(s: Store, sid: SyncId, o: Oracle) {
    && sid in s.sessions
    && var session := s.sessions[sid]; var id := session.payload.loopId;
    && id in s.loops && s.loops[id].machine == session.machine
    && session.receipt.None? && o.now < session.expiresAt && o.ns == Some(session.ns)
    && session.payload.config == s.loops[id].config
    && session.payload.base == s.loops[id].manifestRevision < REVISION_MAX
    && RowsUpTo(s, session, |session.negotiated|)
    && o.present == Some(true) && o.fault == NoFault && o.minted !in s.manifests
  }

  /** An operation stepped once with each answer. */
  function AdvanceEach(s: Store, op: Op, oracles: seq<Oracle>): Move
    decreases |oracles|
  {
    if oracles == [] then Move(s, op)
    else var m := Advance(s, op, oracles[0]); AdvanceEach(m.store, m.op, oracles[1..])
  }

  /** A commit of a complete session that no one disturbs answers with the next
      revision and makes its manifest the loop's current one. Each step has its own
      answers from outside. */
  lemma AloneCommitLands(s: Store, sid: SyncId, oracles: seq<Oracle>)
    requires sid in s.sessions && |oracles| == 8 + 2 * |s.sessions[sid].negotiated|
    requires forall i :: 0 <= i < |oracles| ==> Complete(s, sid, oracles[i])
    ensures
      var session := s.sessions[sid]; var revision := session.payload.base + 1;
      var now, mid := oracles[3].now, oracles[|oracles| - 1].minted;
      var m := AdvanceEach(s, Op(CommitSync(session.machine, sid), false, Begin), oracles);
      && m.op.pc == Done(Committed(Receipt(mid, revision)))
      && mid in m.store.manifests && m.store.manifests[mid] == ManifestOf(session, revision)
      && session.payload.loopId in m.store.loops
      && m.store.loops[session.payload.loopId].manifestId == Some(mid)
      && m.store.loops[session.payload.loopId].manifestRevision == revision
      && m.store.loops[session.payload.loopId].attempt == Attempt(Some(now), Some(now), None, session.payload.config)
  {
    hide Complete, AdvanceEach, TotalBytes, Commit;
    AloneRuns(s, sid, oracles);
    CommitEffect(s, sid, oracles[|oracles| - 1].minted, oracles[3].now);
  }

  lemma CommitEffect(s: Store, sid: SyncId, mid: ManifestId, now: Time)
    requires sid in s.sessions && s.sessions[sid].payload.loopId in s.loops
    requires s.sessions[sid].payload.base == s.loops[s.sessions[sid].payload.loopId].manifestRevision
    requires Commit(s, sid, s.loops[s.sessions[sid].payload.loopId], mid, now).Some?
    ensures
      var session := s.sessions[sid]; var t := Commit(s, sid, s.loops[session.payload.loopId], mid, now).value;
      var id, revision := session.payload.loopId, session.payload.base + 1;
      && mid in t.manifests && t.manifests[mid] == ManifestOf(session, revision)
      && id in t.loops && t.loops[id].manifestId == Some(mid) && t.loops[id].manifestRevision == revision
      && t.loops[id].attempt == Attempt(Some(now), Some(now), None, session.payload.config)
  {
    hide TotalBytes;
  }

  /** The whole run of the operation, up to its last write. */
  lemma AloneRuns(s: Store, sid: SyncId, oracles: seq<Oracle>)
    requires sid in s.sessions && |oracles| == 8 + 2 * |s.sessions[sid].negotiated|
    requires forall i :: 0 <= i < |oracles| ==> Complete(s, sid, oracles[i])
    ensures
      var session := s.sessions[sid]; var id, call := session.payload.loopId, CommitSync(session.machine, sid);
      && id in s.loops && session.payload.base == s.loops[id].manifestRevision
      && var mid := oracles[|oracles| - 1].minted; var landed := Commit(s, sid, s.loops[id], mid, oracles[3].now);
      && landed.Some?
      && AdvanceEach(s, Op(call, false, Begin), oracles)
         == Move(landed.value, Op(call, false, Done(Committed(Receipt(mid, session.payload.base + 1)))))
  {
    var session := s.sessions[sid];
    var n := |session.negotiated|;
    assert Complete(s, sid, oracles[3]);
    hide AdvanceEach, RowsUpTo, Complete, TotalBytes, Commit, Advance;
    var seen := Seen(session.ns, s.loops[session.payload.loopId], session, oracles[3].now);
    AloneHead(s, sid, oracles, seen);
    AloneBlobs(s, sid, oracles[4..], seen, 0);
    LastFour(oracles, n);
    AloneTail(s, sid, oracles[4..][2 * n..], seen);
  }

  lemma LastFour(oracles: seq<Oracle>, n: nat)
    requires |oracles| == 8 + 2 * n
    ensures
      var rest := oracles[4..][2 * n..];
      && |rest| == 4 && rest[3] == oracles[|oracles| - 1]
      && forall i :: 0 <= i < 4 ==> rest[i] == oracles[4 + 2 * n + i]
  {
  }

  lemma EachFour(s: Store, op: Op, oracles: seq<Oracle>, a: Op, b: Op, c: Op, last: Move)
    requires |oracles| >= 4
    requires Advance(s, op, oracles[0]) == Move(s, a) && Advance(s, a, oracles[1]) == Move(s, b)
    requires Advance(s, b, oracles[2]) == Move(s, c) && Advance(s, c, oracles[3]) == last
    ensures AdvanceEach(s, op, oracles) == AdvanceEach(last.store, last.op, oracles[4..])
  {
    hide Advance;
    var one, two, three := oracles[1..], oracles[1..][1..], oracles[1..][1..][1..];
    assert AdvanceEach(s, op, oracles) == AdvanceEach(s, a, one);
    assert AdvanceEach(s, a, one) == AdvanceEach(s, b, two);
    assert AdvanceEach(s, b, two) == AdvanceEach(s, c, three);
    assert AdvanceEach(s, c, three) == AdvanceEach(last.store, last.op, three[1..]);
    assert three[1..] == oracles[4..];
  }

  lemma AloneHead(s: Store, sid: SyncId, oracles: seq<Oracle>, seen: Seen)
    requires sid in s.sessions && |oracles| >= 4 && forall i :: 0 <= i < |oracles| ==> Complete(s, sid, oracles[i])
    requires s.sessions[sid].payload.loopId in s.loops
    requires seen == Seen(s.sessions[sid].ns, s.loops[s.sessions[sid].payload.loopId], s.sessions[sid], oracles[3].now)
    ensures
      var call := CommitSync(s.sessions[sid].machine, sid);
      AdvanceEach(s, Op(call, false, Begin), oracles) == AdvanceEach(s, Op(call, false, ComBlob(seen, 0)), oracles[4..])
  {
    hide RowsUpTo, AdvanceEach;
    var session := s.sessions[sid];
    var id, op := session.payload.loopId, Op(CommitSync(session.machine, sid), false, Begin);
    assert forall i :: 0 <= i < 4 ==> Complete(s, sid, oracles[i]);
    EachFour(s, op, oracles, op.(pc := ComProbe(session.ns)), op.(pc := ComLoop(session.ns, id)),
             op.(pc := ComSession(session.ns, id, Some(s.loops[id]))), Move(s, op.(pc := ComBlob(seen, 0))));
  }

  lemma {:induction false} AloneBlobs(s: Store, sid: SyncId, oracles: seq<Oracle>, seen: Seen, i: nat)
    requires sid in s.sessions && seen.session == s.sessions[sid] && i <= |seen.session.negotiated|
    requires |oracles| >= 2 * (|seen.session.negotiated| - i) && forall j :: 0 <= j < |oracles| ==>
      Complete(s, sid, oracles[j])
    ensures
      var call := CommitSync(s.sessions[sid].machine, sid); var n := |seen.session.negotiated|;
      AdvanceEach(s, Op(call, false, ComBlob(seen, i)), oracles)
      == AdvanceEach(s, Op(call, false, ComBlob(seen, n)), oracles[2 * (n - i)..])
    decreases |seen.session.negotiated| - i
  {
    hide AdvanceEach, Complete;
    var n := |seen.session.negotiated|;
    if i == n {
      assert oracles[0..] == oracles;
    } else {
      BlobSteps(s, sid, oracles, seen, i);
      AloneBlobs(s, sid, oracles[2..], seen, i + 1);
      assert oracles[2..][2 * (n - i - 1)..] == oracles[2 * (n - i)..];
    }
  }

  lemma BlobSteps(s: Store, sid: SyncId, oracles: seq<Oracle>, seen: Seen, i: nat)
    requires sid in s.sessions && seen.session == s.sessions[sid] && i < |seen.session.negotiated|
    requires |oracles| >= 2 && Complete(s, sid, oracles[0]) && Complete(s, sid, oracles[1])
    ensures
      var call := CommitSync(s.sessions[sid].machine, sid);
      AdvanceEach(s, Op(call, false, ComBlob(seen, i)), oracles)
      == AdvanceEach(s, Op(call, false, ComBlob(seen, i + 1)), oracles[2..])
  {
    var at := Op(CommitSync(s.sessions[sid].machine, sid), false, ComBlob(seen, i));
    assert RowMatches(s, seen.session, seen.session.negotiated[i]);
    assert Advance(s, at, oracles[0]) == Move(s, at.(pc := ComHas(seen, i)));
    assert Advance(s, at.(pc := ComHas(seen, i)), oracles[1]) == Move(s, at.(pc := ComBlob(seen, i + 1)));
    hide Advance;
    assert AdvanceEach(s, at, oracles) == AdvanceEach(s, at.(pc := ComHas(seen, i)), oracles[1..]);
    assert oracles[1..][1..] == oracles[2..];
  }

  lemma AloneTail(s: Store, sid: SyncId, oracles: seq<Oracle>, seen: Seen)
    requires sid in s.sessions && |oracles| == 4 && forall i :: 0 <= i < 4 ==> Complete(s, sid, oracles[i])
    requires seen.session == s.sessions[sid] && seen.ns == seen.session.ns
    ensures
      var session := s.sessions[sid]; var revision, mid := session.payload.base + 1, oracles[3].minted;
      session.payload.loopId in s.loops
      && var live := s.loops[session.payload.loopId]; var landed := Commit(s, sid, live, mid, seen.now);
      && landed.Some?
      && AdvanceEach(s, Op(CommitSync(session.machine, sid), false, ComBlob(seen, |session.negotiated|)), oracles)
         == Move(landed.value, Op(CommitSync(session.machine, sid), false, Done(Committed(Receipt(mid, revision)))))
  {
    hide RowsUpTo, Commit, AdvanceEach;
    var session := s.sessions[sid];
    assert Complete(s, sid, oracles[0]) && Complete(s, sid, oracles[1]) && Complete(s, sid, oracles[2])
      && Complete(s, sid, oracles[3]);
    var live := s.loops[session.payload.loopId];
    var at := Op(CommitSync(session.machine, sid), false, ComBlob(seen, |session.negotiated|));
    LandsLast(s, sid, oracles[3], seen);
    var landed := Commit(s, sid, live, oracles[3].minted, seen.now).value;
    var last := Move(landed, at.(pc := Done(Committed(Receipt(oracles[3].minted, session.payload.base + 1)))));
    EachFour(s, at, oracles, at.(pc := ComLive(seen)), at.(pc := ComLiveSession(seen, live)),
             at.(pc := ComWrite(seen, live)), last);
    NothingMore(last, oracles[4..]);
  }

  lemma NothingMore(m: Move, oracles: seq<Oracle>)
    requires oracles == []
    ensures AdvanceEach(m.store, m.op, oracles) == m
  {
  }

  lemma LandsLast(s: Store, sid: SyncId, o: Oracle, seen: Seen)
    requires Complete(s, sid, o) && seen.session == s.sessions[sid]
    ensures
      var session := s.sessions[sid]; var live := s.loops[session.payload.loopId];
      var op := Op(CommitSync(session.machine, sid), false, ComWrite(seen, live));
      var landed := Commit(s, sid, live, o.minted, seen.now);
      landed.Some? && Advance(s, op, o)
        == Move(landed.value, op.(pc := Done(Committed(Receipt(o.minted, session.payload.base + 1)))))
  {
    hide RowsUpTo, Commit;
    CommitDefined(s, sid, o, seen.now);
  }

  lemma CommitDefined(s: Store, sid: SyncId, o: Oracle, now: Time)
    requires Complete(s, sid, o)
    ensures Commit(s, sid, s.loops[s.sessions[sid].payload.loopId], o.minted, now).Some?
  {
  }

  // ---- The same answer at every step ----

  lemma FourSteps(s: Store, op: Op, o: Oracle, a: Op, b: Op, c: Op, last: Move)
    requires Advance(s, op, o) == Move(s, a) && Advance(s, a, o) == Move(s, b) && Advance(s, b, o) == Move(s, c)
    requires Advance(s, c, o) == last
    ensures AdvanceMany(s, op, o, 4) == last
  {
    assert AdvanceMany(s, op, o, 4) == AdvanceMany(s, a, o, 3);
    assert AdvanceMany(s, a, o, 3) == AdvanceMany(s, b, o, 2);
    assert AdvanceMany(s, b, o, 2) == AdvanceMany(s, c, o, 1);
    hide Advance;
    assert AdvanceMany(s, c, o, 1) == AdvanceMany(last.store, last.op, o, 0) == last;
  }

  function Steady(o: Oracle, n: nat): seq<Oracle> { seq(n, _ => o) }

  lemma {:induction false} SteadyIsMany(s: Store, op: Op, o: Oracle, n: nat)
    ensures AdvanceEach(s, op, Steady(o, n)) == AdvanceMany(s, op, o, n)
    decreases n
  {
    hide Advance;
    if n > 0 {
      assert Steady(o, n)[1..] == Steady(o, n - 1);
      var m := Advance(s, op, o);
      SteadyIsMany(m.store, m.op, o, n - 1);
    }
  }

  lemma SteadyCommitLands(s: Store, sid: SyncId, o: Oracle)
    requires Complete(s, sid, o)
    ensures
      var session := s.sessions[sid]; var revision := session.payload.base + 1;
      var m := AdvanceMany(s, Op(CommitSync(session.machine, sid), false, Begin), o, 8 + 2 * |session.negotiated|);
      && m.op.pc == Done(Committed(Receipt(o.minted, revision)))
      && o.minted in m.store.manifests && m.store.manifests[o.minted] == ManifestOf(session, revision)
      && session.payload.loopId in m.store.loops
      && m.store.loops[session.payload.loopId].manifestId == Some(o.minted)
      && m.store.loops[session.payload.loopId].manifestRevision == revision
  {
    var n := 8 + 2 * |s.sessions[sid].negotiated|;
    hide AdvanceEach, AdvanceMany, RowsUpTo, TotalBytes, Complete;
    AloneCommitLands(s, sid, Steady(o, n));
    SteadyIsMany(s, Op(CommitSync(s.sessions[sid].machine, sid), false, Begin), o, n);
  }
}
