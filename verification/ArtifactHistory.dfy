/**
 What an operation was answered on its way: a landed commit saw every file, and an
 accepted PUT was adjudicated twice, whatever ran in between.
 */
module ArtifactHistory {
  import opened Wrappers
  import opened ArtifactStore
  import opened ArtifactServer
  import opened ArtifactSteps
  import opened ArtifactSafety

  /** Operation k stood at `pc` and took action j of the run, answered with `o`. */
  ghost predicate Took(run: seq<Action>, j: nat, k: nat, pc: Pc, o: Oracle) {
    && j < |run| && run[j] == Step(k, o)
    && k in Acts(EMPTY, run[..j]).ops && Acts(EMPTY, run[..j]).ops[k].pc == pc
  }

  /** The server as action j found it. */
  ghost function StoreAt(run: seq<Action>, j: nat): Store {
    if j <= |run| then Acts(EMPTY, run[..j]).store else EMPTY.store
  }

  lemma TookStays(run: seq<Action>, a: Action, j: nat, k: nat, pc: Pc, o: Oracle)
    requires Took(run, j, k, pc, o)
    ensures Took(run + [a], j, k, pc, o) && (run + [a])[..j] == run[..j]
  {
    assert (run + [a])[..j] == run[..j];
  }

  lemma TookNow(run: seq<Action>, k: nat, o: Oracle)
    requires k in Acts(EMPTY, run).ops
    ensures Took(run + [Step(k, o)], |run|, k, Acts(EMPTY, run).ops[k].pc, o) && (run + [Step(k, o)])[..|run|] == run
  {
    assert (run + [Step(k, o)])[..|run|] == run;
  }

  lemma ActsStep(run: seq<Action>, a: Action)
    ensures Acts(EMPTY, run + [a]) == Act(Acts(EMPTY, run), a)
  {
    assert (run + [a])[..|run|] == run;
  }

  /** One more action, seen from operation k. */
  lemma OpMoves(run: seq<Action>, a: Action, k: nat)
    requires k in Acts(EMPTY, run + [a]).ops
    ensures
      var v, w := Acts(EMPTY, run), Acts(EMPTY, run + [a]);
      || (k in v.ops && w.ops[k] == v.ops[k])
      || (k !in v.ops && w.ops[k].pc == Begin)
      || (k in v.ops && a.Step? && a.opId == k && w.ops[k] == Advance(v.store, v.ops[k], a.o).op
          && w.ops[k].call == v.ops[k].call)
  {
    ActsStep(run, a);
    ActMovesOp(Acts(EMPTY, run), a, k);
    hide *;
  }

  lemma ActMovesOp(v: Server, a: Action, k: nat)
    requires k in Act(v, a).ops
    ensures
      var w := Act(v, a);
      || (k in v.ops && w.ops[k] == v.ops[k])
      || (k !in v.ops && w.ops[k].pc == Begin)
      || (k in v.ops && a.Step? && a.opId == k && w.ops[k] == Advance(v.store, v.ops[k], a.o).op
          && w.ops[k].call == v.ops[k].call)
  {
    if a.Step? && a.opId in v.ops { CallStays(v.store, v.ops[a.opId], a.o); }
    hide Advance, WriteLoop, LoopKnown, Untouched;
  }

  lemma CallStays(s: Store, op: Op, o: Oracle)
    ensures Advance(s, op, o).op.call == op.call
  {
    hide InsertSession, Renew, Commit, StampFailure, UpdateConfig, RecordSyncError, ApplyBinding, PlanBinding,
         RowMatches;
  }

  // ---- Commit ----

  /** The store answered that the i-th negotiated file is there, when its row matched. */
  ghost predicate SawFile(run: seq<Action>, k: nat, seen: Seen, i: nat) {
    i < |seen.session.negotiated|
    && exists j: nat, o ::
         && Took(run, j, k, ComHas(seen, i), o) && o.present == Some(true)
         && RowMatches(StoreAt(run, j), seen.session, seen.session.negotiated[i])
  }

  ghost predicate SawFiles(run: seq<Action>, k: nat, seen: Seen, n: nat) {
    forall i :: 0 <= i < n ==> SawFile(run, k, seen, i)
  }

  predicate Pending(session: Session, now: Time) { session.receipt.None? && now < session.expiresAt }

  predicate OpenTo(session: Session, ns: Namespace, machine: MachineId, now: Time) {
    session.ns == ns && session.machine == machine && Pending(session, now)
  }

  /** The precheck found the session open, and the transaction found it open again on the
      loop row that it then writes. */
  ghost predicate SawOpenTwice(run: seq<Action>, k: nat, machine: MachineId, sid: SyncId, seen: Seen, live: Loop) {
    && Pending(seen.session, seen.now)
    && exists j: nat, o ::
         && Took(run, j, k, ComLiveSession(seen, live), o) && sid in StoreAt(run, j).sessions
         && OpenTo(StoreAt(run, j).sessions[sid], seen.ns, machine, o.now)
  }

  /** What a commit at this point has been told. */
  ghost predicate CommitTold(run: seq<Action>, k: nat, op: Op)
    requires op.call.CommitSync?
  {
    match op.pc
    case ComBlob(seen, i) => SawFiles(run, k, seen, i) && Pending(seen.session, seen.now)
    case ComHas(seen, i) => SawFiles(run, k, seen, i) && Pending(seen.session, seen.now)
    case ComLive(seen) =>
      && SawFiles(run, k, seen, |seen.session.negotiated|)
      && Pending(seen.session, seen.now)
    case ComLiveSession(seen, _) =>
      && SawFiles(run, k, seen, |seen.session.negotiated|)
      && Pending(seen.session, seen.now)
    case ComWrite(seen, live) =>
      && SawFiles(run, k, seen, |seen.session.negotiated|)
      && SawOpenTwice(run, k, op.call.machine, op.call.sid, seen, live)
    case _ => true
  }

  lemma SawFilesStays(run: seq<Action>, a: Action, k: nat, seen: Seen, n: nat)
    requires SawFiles(run, k, seen, n)
    ensures SawFiles(run + [a], k, seen, n)
  {
    hide Took, RowMatches;
    forall i | 0 <= i < n ensures SawFile(run + [a], k, seen, i) {
      assert SawFile(run, k, seen, i);
      var j: nat, o :| Took(run, j, k, ComHas(seen, i), o) && o.present == Some(true)
        && RowMatches(StoreAt(run, j), seen.session, seen.session.negotiated[i]);
      TookStays(run, a, j, k, ComHas(seen, i), o);
      assert StoreAt(run + [a], j) == StoreAt(run, j);
    }
  }

  lemma SawOpenStays(run: seq<Action>, a: Action, k: nat, machine: MachineId, sid: SyncId, seen: Seen, live: Loop)
    requires SawOpenTwice(run, k, machine, sid, seen, live)
    ensures SawOpenTwice(run + [a], k, machine, sid, seen, live)
  {
    hide Took, OpenTo;
    var j: nat, o :| Took(run, j, k, ComLiveSession(seen, live), o) && sid in StoreAt(run, j).sessions
      && OpenTo(StoreAt(run, j).sessions[sid], seen.ns, machine, o.now);
    TookStays(run, a, j, k, ComLiveSession(seen, live), o);
    assert StoreAt(run + [a], j) == StoreAt(run, j);
  }

  lemma ToldStays(run: seq<Action>, a: Action, k: nat, op: Op)
    requires op.call.CommitSync? && CommitTold(run, k, op)
    ensures CommitTold(run + [a], k, op)
  {
    hide SawFiles, SawOpenTwice;
    match op.pc
    case ComBlob(seen, i) => SawFilesStays(run, a, k, seen, i);
    case ComHas(seen, i) => SawFilesStays(run, a, k, seen, i);
    case ComLive(seen) => SawFilesStays(run, a, k, seen, |seen.session.negotiated|);
    case ComLiveSession(seen, _) => SawFilesStays(run, a, k, seen, |seen.session.negotiated|);
    case ComWrite(seen, live) =>
      SawFilesStays(run, a, k, seen, |seen.session.negotiated|);
      SawOpenStays(run, a, k, op.call.machine, op.call.sid, seen, live);
    case _ =>
  }

  lemma OneMoreFile(run: seq<Action>, k: nat, seen: Seen, i: nat, o: Oracle)
    requires SawFiles(run, k, seen, i) && i < |seen.session.negotiated| && o.present == Some(true)
    requires k in Acts(EMPTY, run).ops && Acts(EMPTY, run).ops[k].pc == ComHas(seen, i)
    requires RowMatches(Acts(EMPTY, run).store, seen.session, seen.session.negotiated[i])
    ensures SawFiles(run + [Step(k, o)], k, seen, i + 1)
  {
    SawFilesStays(run, Step(k, o), k, seen, i);
    TookNow(run, k, o);
    hide Took, RowMatches;
    assert StoreAt(run + [Step(k, o)], |run|) == Acts(EMPTY, run).store;
    assert SawFile(run + [Step(k, o)], k, seen, i);
  }

  /** Where a commit may have come from, and what it was told there. */
  ghost predicate CameFrom(s: Store, op: Op, o: Oracle, next: Op)
    requires op.call.CommitSync?
  {
    match next.pc
    case ComBlob(seen, i) =>
      if i == 0 then next == op || Pending(seen.session, seen.now)
      else next == op || (op.pc == ComHas(seen, i - 1) && o.present == Some(true))
    case ComHas(seen, i) => next == op || op.pc == ComBlob(seen, i)
    case ComLive(seen) => next == op || (op.pc.ComBlob? && op.pc.seen == seen && op.pc.i >= |seen.session.negotiated|)
    case ComLiveSession(seen, _) => next == op || op.pc == ComLive(seen)
    case ComWrite(seen, live) =>
      || next == op
      || (op.pc == ComLiveSession(seen, live) && op.call.sid in s.sessions
          && OpenTo(s.sessions[op.call.sid], seen.ns, op.call.machine, o.now))
    case _ => true
  }

  lemma CommitCameFrom(s: Store, op: Op, o: Oracle)
    requires op.call.CommitSync?
    ensures CameFrom(s, op, o, Advance(s, op, o).op)
  {
    hide Commit, StampFailure, RowMatches, ErrorText;
  }

  lemma BlobTold(run: seq<Action>, k: nat, o: Oracle, next: Op)
    requires k in Acts(EMPTY, run).ops && Acts(EMPTY, run).ops[k].call.CommitSync?
    requires CommitTold(run + [Step(k, o)], k, Acts(EMPTY, run).ops[k]) && CommitTold(run, k, Acts(EMPTY, run).ops[k])
    requires CommitOk(Acts(EMPTY, run).store, Acts(EMPTY, run).ops[k])
    requires CameFrom(Acts(EMPTY, run).store, Acts(EMPTY, run).ops[k], o, next) && next.call.CommitSync?
      && next.pc.ComBlob?
    ensures CommitTold(run + [Step(k, o)], k, next)
  {
    var s, op, all := Acts(EMPTY, run).store, Acts(EMPTY, run).ops[k], run + [Step(k, o)];
    var seen, i := next.pc.seen, next.pc.i;
    hide Acts, Took, SessionSnap, LoopSnap;
    if next != op && i > 0 { OneMoreFile(run, k, seen, i - 1, o); }
  }

  lemma WriteTold(run: seq<Action>, k: nat, o: Oracle, next: Op)
    requires k in Acts(EMPTY, run).ops && Acts(EMPTY, run).ops[k].call.CommitSync?
    requires CommitTold(run + [Step(k, o)], k, Acts(EMPTY, run).ops[k])
    requires CameFrom(Acts(EMPTY, run).store, Acts(EMPTY, run).ops[k], o, next)
    requires next.pc.ComWrite? && next.call == Acts(EMPTY, run).ops[k].call
    ensures CommitTold(run + [Step(k, o)], k, next)
  {
    var s, op, all := Acts(EMPTY, run).store, Acts(EMPTY, run).ops[k], run + [Step(k, o)];
    TookNow(run, k, o);
    hide Acts, Took, SawFiles;
    assert StoreAt(all, |run|) == s;
  }

  // ---- The theorems ----

  lemma {:induction false} CommitIsTold(run: seq<Action>, k: nat)
    requires k in Acts(EMPTY, run).ops && Acts(EMPTY, run).ops[k].call.CommitSync?
    ensures CommitTold(run, k, Acts(EMPTY, run).ops[k])
  {
    if run != [] {
      var less, a := run[..|run| - 1], run[|run| - 1];
      assert run == less + [a];
      OpMoves(less, a, k);
      if k in Acts(EMPTY, less).ops {
        hide CommitTold, Acts, Advance;
        CommitIsTold(less, k);
        ToldStays(less, a, k, Acts(EMPTY, less).ops[k]);
        if Acts(EMPTY, run).ops[k] != Acts(EMPTY, less).ops[k] { ToldMore(less, k, a.o); }
      }
    }
  }

  lemma ToldMore(run: seq<Action>, k: nat, o: Oracle)
    requires k in Acts(EMPTY, run).ops && Acts(EMPTY, run).ops[k].call.CommitSync?
    requires CommitTold(run, k, Acts(EMPTY, run).ops[k]) && CommitTold(run + [Step(k, o)], k, Acts(EMPTY, run).ops[k])
    ensures
      var next := Advance(Acts(EMPTY, run).store, Acts(EMPTY, run).ops[k], o).op;
      next.call.CommitSync? && CommitTold(run + [Step(k, o)], k, next)
  {
    var s, op := Acts(EMPTY, run).store, Acts(EMPTY, run).ops[k];
    CommitFits(run, k);
    CommitCameFrom(s, op, o);
    CallStays(s, op, o);
    var next := Advance(s, op, o).op;
    if next.pc.ComBlob? { BlobTold(run, k, o, next); }
    else if next.pc.ComWrite? { WriteTold(run, k, o, next); }
    hide Acts, Advance, CommitOk, SawFiles, SawOpenTwice;
  }

  lemma CommitFits(run: seq<Action>, k: nat)
    requires k in Acts(EMPTY, run).ops && Acts(EMPTY, run).ops[k].call.CommitSync?
    ensures CommitOk(Acts(EMPTY, run).store, Acts(EMPTY, run).ops[k])
  {
    Reachable(run);
    var v := Acts(EMPTY, run);
    hide Acts, StoreOk, CommitOk;
    assert OpOk(v.store, v.ops[k]);
  }

  /** Only the last step of its own commit gives a session a receipt. */
  lemma ReceiptFromCommit(v: Server, a: Action, sid: SyncId)
    requires sid in v.store.sessions && v.store.sessions[sid].receipt.None?
    requires sid in Act(v, a).store.sessions && Act(v, a).store.sessions[sid].receipt.Some?
    ensures a.Step? && a.opId in v.ops && v.ops[a.opId].call.CommitSync?
    ensures v.ops[a.opId].call.sid == sid && v.ops[a.opId].pc.ComWrite?
  {
    if a.Step? && a.opId in v.ops {
      if v.ops[a.opId].call.CommitSync? { CommitWritesOwn(v.store, v.ops[a.opId], a.o, sid); }
      else { ReceiptsUntouched(v.store, v.ops[a.opId], a.o, sid); }
      hide Advance;
    }
  }

  lemma CommitWritesOwn(s: Store, op: Op, o: Oracle, sid: SyncId)
    requires op.call.CommitSync? && sid in s.sessions && s.sessions[sid].receipt.None?
    ensures
      var t := Advance(s, op, o).store;
      sid in t.sessions && (t.sessions[sid].receipt.Some? ==> op.call.sid == sid && op.pc.ComWrite?)
  {
    if op.pc.ComWrite? {
      hide StampFailure, TotalBytes;
    } else {
      EarlierCommitSteps(s, op, o);
      hide Advance;
    }
  }

  lemma EarlierCommitSteps(s: Store, op: Op, o: Oracle)
    requires op.call.CommitSync? && !op.pc.ComWrite?
    ensures Advance(s, op, o).store.sessions == s.sessions
  {
    hide RowMatches, PlanCommit, ErrorText, Commit;
  }

  lemma ReceiptsUntouched(s: Store, op: Op, o: Oracle, sid: SyncId)
    requires !op.call.CommitSync? && sid in s.sessions && s.sessions[sid].receipt.None?
    ensures var t := Advance(s, op, o).store; sid in t.sessions && t.sessions[sid].receipt.None?
  {
    if op.call.Prepare? { PrepareLeavesReceipts(s, op, o, sid); } else { SessionsUntouched(s, op, o); }
    hide AdvancePrepare, AdvancePut, AdvanceCommit, AdvanceOther;
  }

  lemma PrepareLeavesReceipts(s: Store, op: Op, o: Oracle, sid: SyncId)
    requires op.call.Prepare? && sid in s.sessions && s.sessions[sid].receipt.None?
    ensures var t := AdvancePrepare(s, op, o).store; sid in t.sessions && t.sessions[sid].receipt.None?
  {
    hide RowMatches, FoundIsRight, NewSession, PlanPrepare;
  }

  lemma SessionsUntouched(s: Store, op: Op, o: Oracle)
    requires !op.call.CommitSync? && !op.call.Prepare?
    ensures Advance(s, op, o).store.sessions == s.sessions
  {
    hide SizeFor, PlanBinding, PlanConfig;
    if op.call.Put? { hide AdvanceOther; } else { hide AdvancePut; }
  }

  /** A receipt is written only by a commit that the store answered, for each negotiated
      hash of the session, that the file is there, when the hash had its verified row, and
      that found the session open at both adjudications. */
  lemma LandedCommitSawFiles(run: seq<Action>, a: Action, sid: SyncId)
    requires
      var v, w := Acts(EMPTY, run), Act(Acts(EMPTY, run), a);
      && sid in v.store.sessions && v.store.sessions[sid].receipt.None?
      && sid in w.store.sessions && w.store.sessions[sid].receipt.Some?
    ensures
      var v := Acts(EMPTY, run); var session := v.store.sessions[sid];
      && a.Step? && a.opId in v.ops && v.ops[a.opId].call.CommitSync? && v.ops[a.opId].call.sid == sid
      && v.ops[a.opId].pc.ComWrite?
      && var seen, live, machine := v.ops[a.opId].pc.seen, v.ops[a.opId].pc.live, v.ops[a.opId].call.machine;
      && seen.session.negotiated == session.negotiated && seen.session.payload == session.payload
      && seen.session.ns == session.ns
      && SawFiles(run, a.opId, seen, |session.negotiated|) && SawOpenTwice(run, a.opId, machine, sid, seen, live)
  {
    ReceiptFromCommit(Acts(EMPTY, run), a, sid);
    CommitIsTold(run, a.opId);
    CommitFits(run, a.opId);
    hide Acts, Act, SawFiles, SawOpenTwice, LoopSnap, RowsUpTo;
  }

  // ---- PUT ----

  /** A step that an operation took: where it stood, what it was answered, what it read. */
  datatype Mark = Mark(pc: Pc, o: Oracle, store: Store)

  /** The steps that operation k has taken in the run. */
  ghost function Trail(run: seq<Action>, k: nat): seq<Mark> {
    if run == [] then []
    else
      var less, a := run[..|run| - 1], run[|run| - 1];
      var v := Acts(EMPTY, less);
      if a.Step? && a.opId == k && k in v.ops then Trail(less, k) + [Mark(v.ops[k].pc, a.o, v.store)]
        else Trail(less, k)
  }

  /** The session was adjudicated and found open, before its expiry. */
  predicate SawOpen(m: Mark, call: Call)
    requires call.Put?
  {
    && call.sid in m.store.sessions
    && match m.pc
       case PutSession(ns) => OpenTo(m.store.sessions[call.sid], ns, call.machine, m.o.now)
       case PutSessionAgain(ns, _) => OpenTo(m.store.sessions[call.sid], ns, call.machine, m.o.now)
       case _ => false
  }

  /** The loop of the session was found on its machine and at its generation. */
  predicate SawLoop(m: Mark, session: Session) {
    && (m.pc.PutLoop? || m.pc.PutLoopAgain?) && m.pc.session == session && session.payload.loopId in m.store.loops
    && var loop := m.store.loops[session.payload.loopId];
    loop.machine == session.machine && loop.config == session.payload.config
  }

  /** The bytes that came are those of the hash, as many as negotiated, and were stored. */
  predicate SawBytes(m: Mark, call: Call, session: Session)
    requires call.Put?
  {
    && m.pc == PutWrite(session) && m.o.present.Some? && Sha256(m.o.bytes) == call.hash
    && SizeFor(session.payload.entries, call.hash) == Some(|m.o.bytes|)
  }

  /** The session that an adjudication read. */
  function Read(m: Mark, call: Call): Session
    requires call.Put? && call.sid in m.store.sessions
  {
    m.store.sessions[call.sid]
  }

  predicate FirstOpen(t: seq<Mark>, call: Call)
    requires call.Put?
  {
    |t| >= 2 && t[1].pc.PutSession? && SawOpen(t[1], call)
  }

  predicate FirstLoop(t: seq<Mark>, call: Call)
    requires call.Put?
  {
    FirstOpen(t, call) && |t| >= 3 && SawLoop(t[2], Read(t[1], call)) && call.hash in Read(t[1], call).negotiated
  }

  predicate BytesCame(t: seq<Mark>, call: Call)
    requires call.Put?
  {
    FirstLoop(t, call) && |t| >= 4 && SawBytes(t[3], call, Read(t[1], call))
  }

  predicate SecondOpen(t: seq<Mark>, call: Call)
    requires call.Put?
  {
    BytesCame(t, call) && |t| >= 6 && t[5].pc.PutSessionAgain? && SawOpen(t[5], call)
  }

  predicate SecondLoop(t: seq<Mark>, call: Call)
    requires call.Put?
  {
    SecondOpen(t, call) && |t| >= 7 && SawLoop(t[6], Read(t[5], call))
  }

  /** What a PUT at this point has been told. */
  predicate PutTold(t: seq<Mark>, op: Op)
    requires op.call.Put?
  {
    match op.pc
    case Begin => |t| == 0
    case PutSession(_) => |t| == 1
    case PutLoop(session) => |t| == 2 && FirstOpen(t, op.call) && session == Read(t[1], op.call)
    case PutWrite(session) => |t| == 3 && FirstLoop(t, op.call) && session == Read(t[1], op.call)
    case PutAgain(_) => |t| == 4 && BytesCame(t, op.call)
    case PutSessionAgain(_, _) => |t| == 5 && BytesCame(t, op.call)
    case PutLoopAgain(session, _) => |t| == 6 && SecondOpen(t, op.call) && session == Read(t[5], op.call)
    case PutRow(session, _) => |t| == 7 && SecondLoop(t, op.call)
    case Done(r) => r.Uploaded? ==> SecondLoop(t, op.call)
    case _ => false
  }

  lemma Longer(t: seq<Mark>, m: Mark, call: Call)
    requires call.Put?
    ensures FirstOpen(t, call) ==> FirstOpen(t + [m], call)
    ensures FirstLoop(t, call) ==> FirstLoop(t + [m], call)
    ensures BytesCame(t, call) ==> BytesCame(t + [m], call)
    ensures SecondOpen(t, call) ==> SecondOpen(t + [m], call)
    ensures SecondLoop(t, call) ==> SecondLoop(t + [m], call)
  {
    hide SawOpen, SawLoop, SawBytes;
  }

  lemma PutStepTold(t: seq<Mark>, s: Store, op: Op, o: Oracle)
    requires op.call.Put? && PutTold(t, op)
    ensures
      var next := AdvancePut(s, op, o).op;
      next.call.Put? && PutTold(t + [Mark(op.pc, o, s)], next)
  {
    match op.pc
    case PutSession(_) => FirstHalfTold(t, s, op, o);
    case PutLoop(_) => FirstHalfTold(t, s, op, o);
    case PutWrite(_) => FirstHalfTold(t, s, op, o);
    case PutSessionAgain(_, _) => OpenAgainTold(t, s, op, o);
    case PutLoopAgain(_, _) => LoopAgainTold(t, s, op, o);
    case _ => OtherTold(t, s, op, o);
  }

  lemma OtherTold(t: seq<Mark>, s: Store, op: Op, o: Oracle)
    requires op.call.Put? && PutTold(t, op) && !op.pc.PutSessionAgain? && !op.pc.PutLoopAgain?
    requires !op.pc.PutSession? && !op.pc.PutLoop? && !op.pc.PutWrite?
    ensures
      var next := AdvancePut(s, op, o).op;
      next.call.Put? && PutTold(t + [Mark(op.pc, o, s)], next)
  {
    Longer(t, Mark(op.pc, o, s), op.call);
    hide RegisterBlob, FirstOpen, FirstLoop, BytesCame, SecondOpen, SecondLoop;
  }

  lemma FirstHalfTold(t: seq<Mark>, s: Store, op: Op, o: Oracle)
    requires op.call.Put? && PutTold(t, op) && (op.pc.PutSession? || op.pc.PutLoop? || op.pc.PutWrite?)
    ensures
      var next := AdvancePut(s, op, o).op;
      next.call.Put? && PutTold(t + [Mark(op.pc, o, s)], next)
  {
    hide SizeFor, SecondOpen, SecondLoop;
  }

  lemma OpenAgainTold(t: seq<Mark>, s: Store, op: Op, o: Oracle)
    requires op.call.Put? && PutTold(t, op) && op.pc.PutSessionAgain?
    ensures
      var next := AdvancePut(s, op, o).op;
      next.call.Put? && PutTold(t + [Mark(op.pc, o, s)], next)
  {
    Longer(t, Mark(op.pc, o, s), op.call);
    hide FirstOpen, FirstLoop, BytesCame, SizeFor;
  }

  lemma LoopAgainTold(t: seq<Mark>, s: Store, op: Op, o: Oracle)
    requires op.call.Put? && PutTold(t, op) && op.pc.PutLoopAgain?
    ensures
      var next := AdvancePut(s, op, o).op;
      next.call.Put? && PutTold(t + [Mark(op.pc, o, s)], next)
  {
    Longer(t, Mark(op.pc, o, s), op.call);
    assert SecondOpen(t + [Mark(op.pc, o, s)], op.call);
    hide FirstOpen, FirstLoop, BytesCame, SizeFor, SawOpen;
  }

  lemma {:induction false} PutIsTold(run: seq<Action>, k: nat)
    requires k in Acts(EMPTY, run).ops && Acts(EMPTY, run).ops[k].call.Put?
    ensures PutTold(Trail(run, k), Acts(EMPTY, run).ops[k])
  {
    if run != [] {
      var less, a := run[..|run| - 1], run[|run| - 1];
      assert run == less + [a];
      OpMoves(less, a, k);
      var v := Acts(EMPTY, less);
      if k in v.ops {
        PutIsTold(less, k);
        if a.Step? && a.opId == k { PutStepTold(Trail(less, k), v.store, v.ops[k], a.o); }
        hide PutTold, Advance, WriteLoop;
      } else {
        NoTrail(less, k);
      }
    }
  }

  lemma {:induction false} NoTrail(run: seq<Action>, k: nat)
    requires k !in Acts(EMPTY, run).ops
    ensures Trail(run, k) == []
  {
    if run != [] {
      var less, a := run[..|run| - 1], run[|run| - 1];
      assert run == less + [a];
      if k in Acts(EMPTY, less).ops { OpStays(less, a, k); }
      NoTrail(less, k);
      hide Acts;
    }
  }

  lemma OpStays(run: seq<Action>, a: Action, k: nat)
    requires k in Acts(EMPTY, run).ops
    ensures k in Acts(EMPTY, run + [a]).ops
  {
    ActsStep(run, a);
    hide Acts, Advance, WriteLoop, LoopKnown, Untouched;
  }

  /** A PUT is accepted only after its session was found open, before its expiry, and its
      loop at its generation, both before and again after the bytes came, and the bytes
      were those of the hash and as many as negotiated. */
  lemma AcceptedPutWasAdjudicatedTwice(run: seq<Action>, k: nat)
    requires k in Acts(EMPTY, run).ops && Acts(EMPTY, run).ops[k].call.Put?
      && Acts(EMPTY, run).ops[k].pc == Done(Uploaded)
    ensures SecondLoop(Trail(run, k), Acts(EMPTY, run).ops[k].call)
  {
    PutIsTold(run, k);
    hide Acts, Trail, SecondLoop;
  }
}
