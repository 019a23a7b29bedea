/**
 What every operation of the server answers when nobody disturbs it, whatever it is
 told from outside: the refusal that its order of checks comes to first, or success, and
 what it leaves in the store.
 */
module ArtifactVerdicts {
  import opened Wrappers
  import opened ArtifactStore
  import opened ArtifactServer
  import opened ArtifactAlone

  /** What an operation is told on its way: two clock readings, two attributions, the blob
      store's answers, and which of its statements fail. */
  datatype Outside = Outside(ns: Option<Namespace>, again: Option<Namespace>, now: Time, later: Time,
                             has: Hash -> Option<bool>, bytes: seq<bv8>, stored: bool,
                             found: Option<SyncId>, minted: nat, live: Fault, reread: Fault, write: Fault, stamp: Fault)

  /** The answer at one point of the operation. */
  function Reply(x: Outside, pc: Pc): Oracle {
    var present := match pc
      case PreHas(_, session, _, i) => if i < |session.negotiated| then x.has(session.negotiated[i]) else None
      case ComHas(seen, i) => if i < |seen.session.negotiated| then x.has(seen.session.negotiated[i]) else None
      case PutWrite(_) => if x.stored then Some(true) else None
      case _ => None;
    var fault := match pc
      case ComLive(_) => x.live
      case ComLiveSession(_, _) => x.reread
      case ComWrite(_, _) => x.write
      case PutRow(_, _) => x.write
      case ComStamp(_, _) => x.stamp
      case _ => NoFault;
    var now := if pc.PutSessionAgain? || pc.ComLiveSession? then x.later else x.now;
    Oracle(now, if pc.PutAgain? then x.again else x.ns, x.minted, x.found, x.bytes, present, fault)
  }

  /** The operation after n steps. */
  function Alone(s: Store, op: Op, x: Outside, n: nat): Move
    decreases n
  {
    if n == 0 then Move(s, op) else var m := Advance(s, op, Reply(x, op.pc)); Alone(m.store, m.op, x, n - 1)
  }

  /** Left alone, the operation ends with answer r and leaves store t. */
  ghost predicate Ends(s: Store, op: Op, x: Outside, t: Store, r: Result) {
    exists n :: EndsIn(s, op, x, t, r, n)
  }

  ghost predicate EndsIn(s: Store, op: Op, x: Outside, t: Store, r: Result, n: nat) {
    Alone(s, op, x, n).store == t && Alone(s, op, x, n).op.pc == Done(r)
  }

  lemma Finishes(s: Store, op: Op, x: Outside, t: Store, r: Result)
    requires var m := Advance(s, op, Reply(x, op.pc)); m.store == t && m.op.pc == Done(r)
    ensures Ends(s, op, x, t, r)
  {
    hide Advance;
    var m := Advance(s, op, Reply(x, op.pc));
    assert Alone(m.store, m.op, x, 0) == m;
    assert EndsIn(s, op, x, t, r, 1);
  }

  lemma Leads(s: Store, op: Op, x: Outside, next: Move, t: Store, r: Result)
    requires Advance(s, op, Reply(x, op.pc)) == next && Ends(next.store, next.op, x, t, r)
    ensures Ends(s, op, x, t, r)
  {
    hide Advance;
    var n: nat :| EndsIn(next.store, next.op, x, t, r, n);
    assert EndsIn(s, op, x, t, r, n + 1);
  }

  // ---- PUT ----

  /** One adjudication of the session. */
  function SessionRefusal(s: Store, machine: MachineId, sid: SyncId, ns: Namespace, now: Time): (r: Option<Failure>)
    ensures r.None? ==> sid in s.sessions
  {
    if sid !in s.sessions || s.sessions[sid].ns != ns || s.sessions[sid].machine != machine then Some(SessionNotFound)
    else if s.sessions[sid].receipt.Some? then Some(SessionCommitted)
    else if now >= s.sessions[sid].expiresAt then Some(SessionExpired)
    else None
  }

  function LoopRefusal(s: Store, session: Session): Option<Failure> {
    var id := session.payload.loopId;
    if id !in s.loops then Some(LoopNotFound)
    else if s.loops[id].machine != session.machine then Some(SessionNotFound)
    else if s.loops[id].config != session.payload.config then Some(ConfigConflict)
    else None
  }

  /** The first refusal before the bytes are stored. */
  function PutRefusal(s: Store, machine: MachineId, sid: SyncId, hash: Hash, x: Outside): (r: Option<Failure>)
    ensures r.None? ==> sid in s.sessions
  {
    if x.ns.None? then Some(AttributionMissing)
    else if SessionRefusal(s, machine, sid, x.ns.value, x.now).Some? then
      SessionRefusal(s, machine, sid, x.ns.value, x.now)
    else
      var session := s.sessions[sid];
      if LoopRefusal(s, session).Some? then LoopRefusal(s, session)
      else if hash !in session.negotiated then Some(HashNotNegotiated)
      else if !x.stored then Some(StorageError)
      else if Sha256(x.bytes) != hash || SizeFor(session.payload.entries, hash) != Some(|x.bytes|) then
        Some(ContentMismatch)
      else None
  }

  /** The first refusal at the second adjudication, before the row is written. */
  function RowRefusal(s: Store, machine: MachineId, sid: SyncId, x: Outside): (r: Option<Failure>)
    requires sid in s.sessions
  {
    if x.again.None? then Some(AttributionMissing)
    else if SessionRefusal(s, machine, sid, x.again.value, x.later).Some?
    then SessionRefusal(s, machine, sid, x.again.value, x.later)
    else if LoopRefusal(s, s.sessions[sid]).Some? then LoopRefusal(s, s.sessions[sid])
    else if x.write == RolledBack then Some(StorageError)
    else None
  }

  /** A PUT left alone: refused by the first check that fails, before the bytes are stored
      or after, and then without a trace in the tables; accepted with the row of its hash
      otherwise. Only when the write was acknowledged is it reported as uploaded. */
  lemma PutAnswers(s: Store, machine: MachineId, sid: SyncId, hash: Hash, x: Outside)
    ensures
      var op, refusal := Op(Put(machine, sid, hash), false, Begin), PutRefusal(s, machine, sid, hash, x);
      if refusal.Some? then Ends(s, op, x, s, Failed(refusal.value))
      else
        var late, t := RowRefusal(s, machine, sid, x), RegisterBlob(s, s.sessions[sid].ns, hash, |x.bytes|);
        if late.Some? then Ends(s, op, x, s, Failed(late.value))
        else Ends(s, op, x, t, if x.write == NoFault then Uploaded else Failed(StorageError))
  {
    var op, refusal := Op(Put(machine, sid, hash), false, Begin), PutRefusal(s, machine, sid, hash, x);
    if refusal.Some? {
      PutRefused(s, machine, sid, hash, x);
    } else {
      var late, t := RowRefusal(s, machine, sid, x), RegisterBlob(s, s.sessions[sid].ns, hash, |x.bytes|);
      PutFromStored(s, machine, sid, hash, x);
      hide Ends, RegisterBlob;
      if late.Some? { PutReachesStored(s, machine, sid, hash, x, s, Failed(late.value)); }
      else {
        PutReachesStored(s, machine, sid, hash, x, t, if x.write == NoFault then Uploaded else Failed(StorageError));
      }
    }
  }

  lemma PutRefused(s: Store, machine: MachineId, sid: SyncId, hash: Hash, x: Outside)
    requires PutRefusal(s, machine, sid, hash, x).Some?
    ensures Ends(s, Op(Put(machine, sid, hash), false, Begin), x, s, Failed(PutRefusal(s, machine, sid, hash, x).value))
  {
    var r := Failed(PutRefusal(s, machine, sid, hash, x).value);
    var op := Op(Put(machine, sid, hash), false, Begin);
    hide Ends, SizeFor;
    if x.ns.None? {
      Finishes(s, op, x, s, r);
    } else {
      var a := op.(pc := PutSession(x.ns.value));
      if SessionRefusal(s, machine, sid, x.ns.value, x.now).Some? {
        Finishes(s, a, x, s, r);
      } else {
        var session := s.sessions[sid];
        var b, c := op.(pc := PutLoop(session)), op.(pc := PutWrite(session));
        if LoopRefusal(s, session).Some? || hash !in session.negotiated {
          Finishes(s, b, x, s, r);
        } else {
          Finishes(s, c, x, s, r);
          Leads(s, b, x, Move(s, c), s, r);
        }
        Leads(s, a, x, Move(s, b), s, r);
      }
      Leads(s, op, x, Move(s, a), s, r);
    }
  }

  lemma PutReachesStored(s: Store, machine: MachineId, sid: SyncId, hash: Hash, x: Outside, t: Store, r: Result)
    requires PutRefusal(s, machine, sid, hash, x).None?
    requires Ends(s, Op(Put(machine, sid, hash), false, PutAgain(|x.bytes|)), x, t, r)
    ensures Ends(s, Op(Put(machine, sid, hash), false, Begin), x, t, r)
  {
    hide Ends, SizeFor;
    var op, session := Op(Put(machine, sid, hash), false, Begin), s.sessions[sid];
    var a, b, c := op.(pc := PutSession(x.ns.value)), op.(pc := PutLoop(session)), op.(pc := PutWrite(session));
    Leads(s, c, x, Move(s, op.(pc := PutAgain(|x.bytes|))), t, r);
    Leads(s, b, x, Move(s, c), t, r);
    Leads(s, a, x, Move(s, b), t, r);
    Leads(s, op, x, Move(s, a), t, r);
  }

  lemma PutFromStored(s: Store, machine: MachineId, sid: SyncId, hash: Hash, x: Outside)
    requires sid in s.sessions
    ensures
      var op, late := Op(Put(machine, sid, hash), false, PutAgain(|x.bytes|)), RowRefusal(s, machine, sid, x);
      var t := RegisterBlob(s, s.sessions[sid].ns, hash, |x.bytes|);
      if late.Some? then Ends(s, op, x, s, Failed(late.value))
      else Ends(s, op, x, t, if x.write == NoFault then Uploaded else Failed(StorageError))
  {
    var op, late := Op(Put(machine, sid, hash), false, PutAgain(|x.bytes|)), RowRefusal(s, machine, sid, x);
    var t := if late.Some? then s else RegisterBlob(s, s.sessions[sid].ns, hash, |x.bytes|);
    var r := if late.Some? then Failed(late.value) else if x.write == NoFault then Uploaded else Failed(StorageError);
    hide Ends, RegisterBlob, AdvancePrepare, AdvanceCommit, AdvanceOther;
    if x.again.None? {
      Finishes(s, op, x, t, r);
    } else {
      var a := op.(pc := PutSessionAgain(x.again.value, |x.bytes|));
      if SessionRefusal(s, machine, sid, x.again.value, x.later).Some? {
        Finishes(s, a, x, t, r);
      } else {
        PutFromAgain(s, machine, sid, hash, x, t, r);
        Leads(s, a, x, Move(s, op.(pc := PutLoopAgain(s.sessions[sid], |x.bytes|))), t, r);
      }
      Leads(s, op, x, Move(s, a), t, r);
    }
  }

  lemma PutFromAgain(s: Store, machine: MachineId, sid: SyncId, hash: Hash, x: Outside, t: Store, r: Result)
    requires sid in s.sessions
    requires
      var refusal := LoopRefusal(s, s.sessions[sid]);
      if refusal.Some? then t == s && r == Failed(refusal.value)
      else if x.write == RolledBack then t == s && r == Failed(StorageError)
      else
        && t == RegisterBlob(s, s.sessions[sid].ns, hash, |x.bytes|)
        && r == if x.write == NoFault then Uploaded else Failed(StorageError)
    ensures Ends(s, Op(Put(machine, sid, hash), false, PutLoopAgain(s.sessions[sid], |x.bytes|)), x, t, r)
  {
    hide Ends, RegisterBlob, AdvancePrepare, AdvanceCommit, AdvanceOther;
    var b := Op(Put(machine, sid, hash), false, PutLoopAgain(s.sessions[sid], |x.bytes|));
    if LoopRefusal(s, s.sessions[sid]).Some? {
      Finishes(s, b, x, t, r);
    } else {
      var c := b.(pc := PutRow(s.sessions[sid], |x.bytes|));
      Finishes(s, c, x, t, r);
      Leads(s, b, x, Move(s, c), t, r);
    }
  }

  // ---- Prepare ----

  /** What an open session asks for, from hash i on; nothing if the blob store fails. */
  function Demand(s: Store, session: Session, has: Hash -> Option<bool>, i: nat): Option<seq<Hash>>
    decreases |session.negotiated| - i
  {
    if i >= |session.negotiated| then Some([])
    else
      var h, rest := session.negotiated[i], Demand(s, session, has, i + 1);
      if RowMatches(s, session, h) && has(h).None? then None
      else if rest.None? then None
      else if RowMatches(s, session, h) && has(h) == Some(true) then rest
      else Some([h] + rest.value)
  }

  /** It fails exactly when a presence check it needs fails, and otherwise asks for exactly
      the hashes without a matching row or without a file. */
  lemma {:induction false} DemandIsExact(s: Store, session: Session, has: Hash -> Option<bool>, i: nat)
    requires i <= |session.negotiated|
    ensures
      var d, hashes := Demand(s, session, has, i), session.negotiated[i..];
      && (d.None? <==> exists h :: h in hashes && RowMatches(s, session, h) && has(h).None?)
      && (d.Some? ==> forall h :: h in d.value <==> h in hashes && !(RowMatches(s, session, h) && has(h) == Some(true)))
    decreases |session.negotiated| - i
  {
    hide RowMatches;
    if i < |session.negotiated| {
      DemandIsExact(s, session, has, i + 1);
      assert session.negotiated[i..] == [session.negotiated[i]] + session.negotiated[i + 1..];
    }
  }

  lemma {:induction false} NeedEnds(s: Store, call: Call, sid: SyncId, session: Session, need: seq<Hash>, i: nat,
                                    x: Outside)
    requires call.Prepare?
    ensures
      var d := Demand(s, session, x.has, i);
      Ends(s, Op(call, false, PreNeed(sid, session, need, i)), x, s,
           if d.None? then Failed(StorageError) else Prepared(sid, need + d.value))
    decreases |session.negotiated| - i
  {
    hide Ends, RowMatches;
    var op, d := Op(call, false, PreNeed(sid, session, need, i)), Demand(s, session, x.has, i);
    var r := if d.None? then Failed(StorageError) else Prepared(sid, need + d.value);
    if i >= |session.negotiated| {
      assert need + [] == need;
      Finishes(s, op, x, s, r);
    } else {
      var h := session.negotiated[i];
      var skip, ask := op.(pc := PreNeed(sid, session, need, i + 1)),
        op.(pc := PreNeed(sid, session, need + [h], i + 1));
      NeedEnds(s, call, sid, session, need, i + 1, x);
      NeedEnds(s, call, sid, session, need + [h], i + 1, x);
      NeedGoesOn(s, call, sid, session, need, i, x, r, skip, ask);
    }
  }

  lemma NeedGoesOn(s: Store, call: Call, sid: SyncId, session: Session, need: seq<Hash>, i: nat, x: Outside, r: Result,
                   skip: Op, ask: Op)
    requires call.Prepare? && i < |session.negotiated|
    requires skip == Op(call, false, PreNeed(sid, session, need, i + 1))
    requires ask == Op(call, false, PreNeed(sid, session, need + [session.negotiated[i]], i + 1))
    requires
      var d, rest := Demand(s, session, x.has, i), Demand(s, session, x.has, i + 1);
      && r == (if d.None? then Failed(StorageError) else Prepared(sid, need + d.value))
      && Ends(s, skip, x, s, if rest.None? then Failed(StorageError) else Prepared(sid, need + rest.value))
      && Ends(s, ask, x, s,
              if rest.None? then Failed(StorageError) else Prepared(sid, need + [session.negotiated[i]] + rest.value))
    ensures Ends(s, Op(call, false, PreNeed(sid, session, need, i)), x, s, r)
  {
    hide Ends, RowMatches;
    var op, h, rest := Op(call, false, PreNeed(sid, session, need, i)), session.negotiated[i],
      Demand(s, session, x.has, i + 1);
    if rest.Some? { assert need + ([h] + rest.value) == need + [h] + rest.value; }
    if RowMatches(s, session, h) {
      var look := op.(pc := PreHas(sid, session, need, i));
      if x.has(h).None? { Finishes(s, look, x, s, r); }
      else if x.has(h).value { Leads(s, look, x, Move(s, skip), s, r); }
      else { Leads(s, look, x, Move(s, ask), s, r); }
      Leads(s, op, x, Move(s, look), s, r);
    } else {
      Leads(s, op, x, Move(s, ask), s, r);
    }
  }

  /** The answer to the select by key is right, and the minted session id is new. */
  ghost predicate Keyed(s: Store, call: Call, x: Outside)
    requires call.Prepare?
  {
    x.minted !in s.sessions && (x.ns.Some? ==> FoundIsRight(s, x.ns.value, call, x.found))
  }

  /** The session of this key that is committed with this very payload. */
  predicate Replays(s: Store, call: Call, x: Outside)
    requires call.Prepare?
  {
    && x.found.Some? && x.found.value in s.sessions
    && s.sessions[x.found.value].payload == call.payload && s.sessions[x.found.value].receipt.Some?
  }

  /** The loop is there for this machine; the same refusal when it is another's. */
  predicate LoopHeld(s: Store, machine: MachineId, id: LoopId) { id in s.loops && s.loops[id].machine == machine }

  /** The first refusal before a session is opened. */
  function PrepareRefusal(s: Store, call: Call, x: Outside): Option<Failure>
    requires call.Prepare? && LoopHeld(s, call.machine, call.payload.loopId)
  {
    var loop := s.loops[call.payload.loopId];
    if loop.dir.None? then Some(Unconfigured)
    else if call.payload.config != loop.config then Some(ConfigConflict)
    else if call.payload.base != loop.manifestRevision then Some(ManifestConflict)
    else if x.found.Some? && x.found.value in s.sessions && s.sessions[x.found.value].payload != call.payload
    then Some(ManifestConflict)
    else None
  }

  /** A prepare left alone: a committed request is answered by its session before the loop is
      looked at any further; otherwise the first check that fails refuses it, and leaves no
      trace; otherwise its session is open, and what it asks for is `Demand`. */
  lemma PrepareAnswers(s: Store, call: Call, x: Outside)
    requires call.Prepare? && Keyed(s, call, x)
    ensures
      var op := Op(call, false, Begin);
      if x.ns.None? then Ends(s, op, x, s, Failed(AttributionMissing))
      else if !LoopHeld(s, call.machine, call.payload.loopId) then Ends(s, op, x, s, Failed(LoopNotFound))
      else if Replays(s, call, x) then Ends(s, op, x, s, Prepared(x.found.value, []))
      else if PrepareRefusal(s, call, x).Some? then Ends(s, op, x, s, Failed(PrepareRefusal(s, call, x).value))
      else
        var o := Reply(x, Begin);
        var sid, session := SidOf(o), OpenedSession(s, call, o);
        var t := WithSession(s, sid, session); var d := Demand(t, session, x.has, 0);
        Ends(s, op, x, t, if d.None? then Failed(StorageError) else Prepared(sid, d.value))
  {
    hide Ends, FoundIsRight, RowMatches;
    var op := Op(call, false, Begin);
    if x.ns.None? {
      Finishes(s, op, x, s, Failed(AttributionMissing));
    } else {
      var a := op.(pc := PreLoop(x.ns.value));
      if !LoopHeld(s, call.machine, call.payload.loopId) {
        Finishes(s, a, x, s, Failed(LoopNotFound));
        Leads(s, op, x, Move(s, a), s, Failed(LoopNotFound));
      } else if Replays(s, call, x) || PrepareRefusal(s, call, x).Some? {
        PrepareRefused(s, call, x);
      } else {
        PrepareOpens(s, call, x);
      }
    }
  }

  lemma PrepareRefused(s: Store, call: Call, x: Outside)
    requires call.Prepare? && Keyed(s, call, x) && x.ns.Some? && LoopHeld(s, call.machine, call.payload.loopId)
    requires Replays(s, call, x) || PrepareRefusal(s, call, x).Some?
    ensures
      var op := Op(call, false, Begin);
      if Replays(s, call, x) then Ends(s, op, x, s, Prepared(x.found.value, []))
      else Ends(s, op, x, s, Failed(PrepareRefusal(s, call, x).value))
  {
    hide Ends;
    var op, loop := Op(call, false, Begin), s.loops[call.payload.loopId];
    var a, b := op.(pc := PreLoop(x.ns.value)), op.(pc := PreKey(x.ns.value, loop));
    var r := if Replays(s, call, x) then Prepared(x.found.value, []) else Failed(PrepareRefusal(s, call, x).value);
    Finishes(s, b, x, s, r);
    Leads(s, a, x, Move(s, b), s, r);
    Leads(s, op, x, Move(s, a), s, r);
  }

  lemma PrepareOpens(s: Store, call: Call, x: Outside)
    requires call.Prepare? && Keyed(s, call, x) && x.ns.Some? && LoopHeld(s, call.machine, call.payload.loopId)
    requires !Replays(s, call, x) && PrepareRefusal(s, call, x).None?
    ensures
      var o, op := Reply(x, Begin), Op(call, false, Begin);
      var sid, session := SidOf(o), OpenedSession(s, call, o);
      var t := WithSession(s, sid, session); var d := Demand(t, session, x.has, 0);
      Ends(s, op, x, t, if d.None? then Failed(StorageError) else Prepared(sid, d.value))
  {
    hide Ends, RowMatches, Demand;
    var o, op, loop := Reply(x, Begin), Op(call, false, Begin), s.loops[call.payload.loopId];
    var sid, session := SidOf(o), OpenedSession(s, call, o);
    var t := WithSession(s, sid, session);
    var d := Demand(t, session, x.has, 0);
    var r := if d.None? then Failed(StorageError) else Prepared(sid, d.value);
    var a, b := op.(pc := PreLoop(x.ns.value)), op.(pc := PreKey(x.ns.value, loop));
    var c := Move(t, op.(pc := PreNeed(sid, session, [], 0)));
    NeedEnds(t, call, sid, session, [], 0, x);
    if d.Some? { assert [] + d.value == d.value; }
    if x.found.None? {
      var e := op.(pc := PreInsert(x.ns.value, loop, x.now));
      Leads(s, e, x, c, t, r);
      Leads(s, b, x, Move(s, e), t, r);
    } else if x.now >= s.sessions[sid].expiresAt {
      var e := op.(pc := PreRenew(sid, s.sessions[sid], x.now));
      Leads(s, e, x, c, t, r);
      Leads(s, b, x, Move(s, e), t, r);
    } else {
      assert s.sessions[sid := session] == s.sessions;
      Leads(s, b, x, c, t, r);
    }
    Leads(s, a, x, Move(s, b), t, r);
    Leads(s, op, x, Move(s, a), t, r);
  }

  // ---- Commit ----

  /** The first negotiated hash, from i on, that is not backed decides. */
  function FileRefusal(s: Store, session: Session, has: Hash -> Option<bool>, i: nat): Option<Failure>
    decreases |session.negotiated| - i
  {
    if i >= |session.negotiated| then None
    else
      var h := session.negotiated[i];
      if !RowMatches(s, session, h) then Some(BlobMissing)
      else if has(h).None? then Some(StorageError)
      else if !has(h).value then Some(BlobMissing)
      else FileRefusal(s, session, has, i + 1)
  }

  /** No refusal means that every row matches and every file is there. */
  lemma {:induction false} FileRefusalIs(s: Store, session: Session, has: Hash -> Option<bool>, i: nat)
    requires i <= |session.negotiated|
    ensures FileRefusal(s, session, has, i).None? <==>
      forall h :: h in session.negotiated[i..] ==> RowMatches(s, session, h) && has(h) == Some(true)
    decreases |session.negotiated| - i
  {
    hide RowMatches;
    if i < |session.negotiated| {
      FileRefusalIs(s, session, has, i + 1);
      assert session.negotiated[i..] == [session.negotiated[i]] + session.negotiated[i + 1..];
    }
  }

  datatype Ending =
    | Refused(failure: Failure)
    /** Refused, and the failure is stamped on the loop. */
    | Stamped(stamped: Failure)
    | Replayed(receipt: Receipt)
    | Lands

  function CommitEnding(s: Store, machine: MachineId, sid: SyncId, x: Outside): (e: Ending)
    ensures e.Stamped? || e.Lands? ==> sid in s.sessions && s.sessions[sid].payload.loopId in s.loops
  {
    if x.ns.None? then Refused(AttributionMissing)
    else if sid !in s.sessions || s.sessions[sid].ns != x.ns.value || s.sessions[sid].machine != machine
    then Refused(SessionNotFound)
    else
      var session := s.sessions[sid];
      var id := session.payload.loopId;
      if id !in s.loops then (if session.receipt.Some? then Replayed(session.receipt.value) else Refused(LoopNotFound))
      else if s.loops[id].machine != machine then Refused(SessionNotFound)
      else if session.receipt.Some? then Replayed(session.receipt.value)
      else if x.now >= session.expiresAt then Refused(SessionExpired)
      else if session.payload.config != s.loops[id].config then Refused(ConfigConflict)
      else if session.payload.base != s.loops[id].manifestRevision then Stamped(ManifestConflict)
      else if s.loops[id].manifestRevision >= REVISION_MAX then Refused(RevisionExhausted)
      else if FileRefusal(s, session, x.has, 0).Some? then Stamped(FileRefusal(s, session, x.has, 0).value)
      else if x.live != NoFault || x.reread != NoFault then Stamped(StorageError)
      else if x.later >= session.expiresAt then Refused(SessionExpired)
      else if x.write == RolledBack then Stamped(StorageError)
      else Lands
  }

  /** The loop row with a failure stamp: the current manifest and the last success stay. */
  function WithStamp(s: Store, session: Session, failure: Failure, x: Outside): Store
    requires session.payload.loopId in s.loops
  {
    var id := session.payload.loopId;
    var loop := s.loops[id];
    if x.stamp == RolledBack then s
    else
      s.(loops := s.loops[id := loop.(
           attempt := Attempt(Some(x.now), loop.attempt.succeededAt, Some(ErrorText(failure)), session.payload.config),
           revision := loop.revision + 1)])
  }

  /** A commit left alone ends as the order of its checks says. Only when the transaction
      was acknowledged does it answer with the receipt that it wrote. */
  lemma CommitAnswers(s: Store, machine: MachineId, sid: SyncId, x: Outside)
    requires x.minted !in s.manifests
    ensures
      var op := Op(CommitSync(machine, sid), false, Begin);
      match CommitEnding(s, machine, sid, x)
      case Refused(f) => Ends(s, op, x, s, Failed(f))
      case Stamped(f) => Ends(s, op, x, WithStamp(s, s.sessions[sid], f, x), Failed(f))
      case Replayed(receipt) => Ends(s, op, x, s, Committed(receipt))
      case Lands =>
        var session := s.sessions[sid]; var landed := Commit(s, sid, s.loops[session.payload.loopId], x.minted, x.now);
        && landed.Some?
        && Ends(s, op, x, landed.value,
                if x.write == AckLost then Failed(StorageError)
                else Committed(Receipt(x.minted, session.payload.base + 1)))
  {
    hide Ends, FileRefusal, Commit;
    var op := Op(CommitSync(machine, sid), false, Begin);
    if x.ns.None? {
      Finishes(s, op, x, s, Failed(AttributionMissing));
    } else {
      var a := op.(pc := ComProbe(x.ns.value));
      if sid !in s.sessions || s.sessions[sid].ns != x.ns.value || s.sessions[sid].machine != machine {
        Finishes(s, a, x, s, Failed(SessionNotFound));
        Leads(s, op, x, Move(s, a), s, Failed(SessionNotFound));
      } else if Prechecked(s, machine, sid, x) {
        CommitFromFiles(s, machine, sid, x);
      } else {
        CommitPrecheck(s, machine, sid, x);
      }
    }
  }

  /** The precheck goes on to the files. */
  predicate Prechecked(s: Store, machine: MachineId, sid: SyncId, x: Outside) {
    && x.ns.Some? && sid in s.sessions && s.sessions[sid].ns == x.ns.value && s.sessions[sid].machine == machine
    && var session := s.sessions[sid];
    && LoopHeld(s, machine, session.payload.loopId)
    && var loop := s.loops[session.payload.loopId];
    && session.receipt.None? && x.now < session.expiresAt && session.payload.config == loop.config
    && session.payload.base == loop.manifestRevision < REVISION_MAX
  }

  function SeenNow(s: Store, sid: SyncId, x: Outside): Seen
    requires x.ns.Some? && sid in s.sessions && s.sessions[sid].payload.loopId in s.loops
  {
    Seen(x.ns.value, s.loops[s.sessions[sid].payload.loopId], s.sessions[sid], x.now)
  }

  lemma ReachesPrecheck(s: Store, machine: MachineId, sid: SyncId, x: Outside, t: Store, r: Result)
    requires x.ns.Some? && sid in s.sessions && s.sessions[sid].ns == x.ns.value && s.sessions[sid].machine == machine
    requires
      var id := s.sessions[sid].payload.loopId;
      Ends(s, Op(CommitSync(machine, sid), false, ComSession(x.ns.value, id, Find(s.loops, id))), x, t, r)
    ensures Ends(s, Op(CommitSync(machine, sid), false, Begin), x, t, r)
  {
    hide Ends;
    var op, id := Op(CommitSync(machine, sid), false, Begin), s.sessions[sid].payload.loopId;
    var a, b := op.(pc := ComProbe(x.ns.value)), op.(pc := ComLoop(x.ns.value, id));
    Leads(s, b, x, Move(s, op.(pc := ComSession(x.ns.value, id, Find(s.loops, id)))), t, r);
    Leads(s, a, x, Move(s, b), t, r);
    Leads(s, op, x, Move(s, a), t, r);
  }

  lemma StampEnds(s: Store, machine: MachineId, sid: SyncId, x: Outside, failure: Failure)
    requires x.ns.Some? && sid in s.sessions && s.sessions[sid].payload.loopId in s.loops
    requires s.sessions[sid].payload.config == s.loops[s.sessions[sid].payload.loopId].config
    ensures
      var op := Op(CommitSync(machine, sid), false, ComStamp(SeenNow(s, sid, x), failure));
      Ends(s, op, x, WithStamp(s, s.sessions[sid], failure, x), Failed(failure))
  {
    hide Ends;
    var op := Op(CommitSync(machine, sid), false, ComStamp(SeenNow(s, sid, x), failure));
    Finishes(s, op, x, WithStamp(s, s.sessions[sid], failure, x), Failed(failure));
  }

  lemma CommitPrecheck(s: Store, machine: MachineId, sid: SyncId, x: Outside)
    requires x.ns.Some? && sid in s.sessions && s.sessions[sid].ns == x.ns.value && s.sessions[sid].machine == machine
    requires !Prechecked(s, machine, sid, x)
    ensures
      var op := Op(CommitSync(machine, sid), false, Begin);
      match CommitEnding(s, machine, sid, x)
      case Refused(f) => Ends(s, op, x, s, Failed(f))
      case Stamped(f) => Ends(s, op, x, WithStamp(s, s.sessions[sid], f, x), Failed(f))
      case Replayed(receipt) => Ends(s, op, x, s, Committed(receipt))
      case Lands => false
  {
    hide Ends, FileRefusal, WithStamp;
    var session, id := s.sessions[sid], s.sessions[sid].payload.loopId;
    var c := Op(CommitSync(machine, sid), false, ComSession(x.ns.value, id, Find(s.loops, id)));
    match CommitEnding(s, machine, sid, x)
    case Refused(f) =>
      Finishes(s, c, x, s, Failed(f));
      ReachesPrecheck(s, machine, sid, x, s, Failed(f));
    case Replayed(receipt) =>
      Finishes(s, c, x, s, Committed(receipt));
      ReachesPrecheck(s, machine, sid, x, s, Committed(receipt));
    case Stamped(f) =>
      var t := WithStamp(s, session, f, x);
      StampEnds(s, machine, sid, x, f);
      Leads(s, c, x, Move(s, c.(pc := ComStamp(SeenNow(s, sid, x), f))), t, Failed(f));
      ReachesPrecheck(s, machine, sid, x, t, Failed(f));
  }

  /** From the i-th hash on, the files decide, or the transaction begins. */
  lemma {:induction false} FilesEnd(s: Store, machine: MachineId, sid: SyncId, x: Outside, i: nat, t: Store, r: Result)
    requires Prechecked(s, machine, sid, x)
    requires
      var f := FileRefusal(s, s.sessions[sid], x.has, i);
      if f.Some? then t == WithStamp(s, s.sessions[sid], f.value, x) && r == Failed(f.value)
      else Ends(s, Op(CommitSync(machine, sid), false, ComLive(SeenNow(s, sid, x))), x, t, r)
    ensures Ends(s, Op(CommitSync(machine, sid), false, ComBlob(SeenNow(s, sid, x), i)), x, t, r)
    decreases |s.sessions[sid].negotiated| - i
  {
    hide Ends, RowMatches, WithStamp;
    var seen, session := SeenNow(s, sid, x), s.sessions[sid];
    var op := Op(CommitSync(machine, sid), false, ComBlob(seen, i));
    if i >= |session.negotiated| {
      Leads(s, op, x, Move(s, op.(pc := ComLive(seen))), t, r);
    } else {
      var h, look := session.negotiated[i], op.(pc := ComHas(seen, i));
      if !RowMatches(s, session, h) {
        StampEnds(s, machine, sid, x, BlobMissing);
        Leads(s, op, x, Move(s, op.(pc := ComStamp(seen, BlobMissing))), t, r);
      } else {
        if x.has(h) == Some(true) {
          FilesEnd(s, machine, sid, x, i + 1, t, r);
          Leads(s, look, x, Move(s, op.(pc := ComBlob(seen, i + 1))), t, r);
        } else {
          var f := if x.has(h).None? then StorageError else BlobMissing;
          StampEnds(s, machine, sid, x, f);
          Leads(s, look, x, Move(s, op.(pc := ComStamp(seen, f))), t, r);
        }
        Leads(s, op, x, Move(s, look), t, r);
      }
    }
  }

  lemma CommitFromFiles(s: Store, machine: MachineId, sid: SyncId, x: Outside)
    requires x.minted !in s.manifests && Prechecked(s, machine, sid, x)
    ensures
      var op := Op(CommitSync(machine, sid), false, Begin);
      match CommitEnding(s, machine, sid, x)
      case Refused(f) => Ends(s, op, x, s, Failed(f))
      case Stamped(f) => Ends(s, op, x, WithStamp(s, s.sessions[sid], f, x), Failed(f))
      case Replayed(receipt) => false
      case Lands =>
        var session := s.sessions[sid]; var landed := Commit(s, sid, s.loops[session.payload.loopId], x.minted, x.now);
        && landed.Some?
        && Ends(s, op, x, landed.value,
                if x.write == AckLost then Failed(StorageError)
                else Committed(Receipt(x.minted, session.payload.base + 1)))
  {
    var session, id := s.sessions[sid], s.sessions[sid].payload.loopId;
    var landed := Commit(s, sid, s.loops[id], x.minted, x.now);
    assert landed.Some?;
    var e := CommitEnding(s, machine, sid, x);
    var t := if e.Refused? then s else if e.Stamped? then WithStamp(s, session, e.stamped, x) else landed.value;
    var r := if e.Refused? then Failed(e.failure) else if e.Stamped? then Failed(e.stamped)
             else if x.write == AckLost then Failed(StorageError)
               else Committed(Receipt(x.minted, session.payload.base + 1));
    hide Ends, FileRefusal, WithStamp, Commit, CommitEnding, AdvancePrepare, AdvancePut, AdvanceOther;
    if FileRefusal(s, session, x.has, 0).None? { TransactionEnds(s, machine, sid, x, t, r); }
    CommitAfterFiles(s, machine, sid, x);
    FilesEnd(s, machine, sid, x, 0, t, r);
    ReachesFiles(s, machine, sid, x, t, r);
  }

  lemma ReachesFiles(s: Store, machine: MachineId, sid: SyncId, x: Outside, t: Store, r: Result)
    requires Prechecked(s, machine, sid, x)
    requires Ends(s, Op(CommitSync(machine, sid), false, ComBlob(SeenNow(s, sid, x), 0)), x, t, r)
    ensures Ends(s, Op(CommitSync(machine, sid), false, Begin), x, t, r)
  {
    hide Ends, AdvancePrepare, AdvancePut, AdvanceOther;
    var id := s.sessions[sid].payload.loopId;
    var c := Op(CommitSync(machine, sid), false, ComSession(x.ns.value, id, Find(s.loops, id)));
    Leads(s, c, x, Move(s, c.(pc := ComBlob(SeenNow(s, sid, x), 0))), t, r);
    ReachesPrecheck(s, machine, sid, x, t, r);
  }

  lemma CommitAfterFiles(s: Store, machine: MachineId, sid: SyncId, x: Outside)
    requires Prechecked(s, machine, sid, x)
    ensures
      var f, e := FileRefusal(s, s.sessions[sid], x.has, 0), CommitEnding(s, machine, sid, x);
      (f.Some? ==> e == Stamped(f.value)) && !e.Replayed?
  {
    hide FileRefusal;
  }

  lemma TransactionEnds(s: Store, machine: MachineId, sid: SyncId, x: Outside, t: Store, r: Result)
    requires x.minted !in s.manifests && Prechecked(s, machine, sid, x)
    requires FileRefusal(s, s.sessions[sid], x.has, 0).None?
    requires
      var session := s.sessions[sid]; var landed := Commit(s, sid, s.loops[session.payload.loopId], x.minted, x.now);
      && landed.Some?
      && match CommitEnding(s, machine, sid, x)
         case Refused(f) => t == s && r == Failed(f)
         case Stamped(f) => t == WithStamp(s, session, f, x) && r == Failed(f)
         case Replayed(_) => false
         case Lands =>
           && t == landed.value
           && r == if x.write == AckLost then Failed(StorageError)
                 else Committed(Receipt(x.minted, session.payload.base + 1))
    ensures Ends(s, Op(CommitSync(machine, sid), false, ComLive(SeenNow(s, sid, x))), x, t, r)
  {
    hide Ends, FileRefusal, WithStamp, Commit, AdvancePrepare, AdvancePut, AdvanceOther;
    var seen, live := SeenNow(s, sid, x), s.loops[s.sessions[sid].payload.loopId];
    var op := Op(CommitSync(machine, sid), false, ComLive(seen));
    var stamp, a := op.(pc := ComStamp(seen, StorageError)), op.(pc := ComLiveSession(seen, live));
    StampEnds(s, machine, sid, x, StorageError);
    if x.live != NoFault {
      Leads(s, op, x, Move(s, stamp), t, r);
    } else {
      RereadEnds(s, machine, sid, x, t, r);
      Leads(s, op, x, Move(s, a), t, r);
    }
  }

  lemma RereadEnds(s: Store, machine: MachineId, sid: SyncId, x: Outside, t: Store, r: Result)
    requires x.minted !in s.manifests && Prechecked(s, machine, sid, x)
    requires
      var session := s.sessions[sid]; var landed := Commit(s, sid, s.loops[session.payload.loopId], x.minted, x.now);
      && landed.Some?
      && if x.reread != NoFault then t == WithStamp(s, session, StorageError, x) && r == Failed(StorageError)
         else if x.later >= session.expiresAt then t == s && r == Failed(SessionExpired)
         else if x.write == RolledBack then t == WithStamp(s, session, StorageError, x) && r == Failed(StorageError)
         else
           && t == landed.value
           && r == if x.write == AckLost then Failed(StorageError)
                 else Committed(Receipt(x.minted, session.payload.base + 1))
    ensures
      var live := s.loops[s.sessions[sid].payload.loopId];
      Ends(s, Op(CommitSync(machine, sid), false, ComLiveSession(SeenNow(s, sid, x), live)), x, t, r)
  {
    hide Ends, WithStamp, Commit, AdvancePrepare, AdvancePut, AdvanceOther;
    var seen, live := SeenNow(s, sid, x), s.loops[s.sessions[sid].payload.loopId];
    var a := Op(CommitSync(machine, sid), false, ComLiveSession(seen, live));
    if x.reread != NoFault {
      StampEnds(s, machine, sid, x, StorageError);
      Leads(s, a, x, Move(s, a.(pc := ComStamp(seen, StorageError))), t, r);
    } else if x.later >= s.sessions[sid].expiresAt {
      Finishes(s, a, x, t, r);
    } else {
      WriteEnds(s, machine, sid, x, t, r);
      Leads(s, a, x, Move(s, a.(pc := ComWrite(seen, live))), t, r);
    }
  }

  lemma WriteEnds(s: Store, machine: MachineId, sid: SyncId, x: Outside, t: Store, r: Result)
    requires x.minted !in s.manifests && Prechecked(s, machine, sid, x)
    requires
      var session := s.sessions[sid]; var landed := Commit(s, sid, s.loops[session.payload.loopId], x.minted, x.now);
      && landed.Some?
      && if x.write == RolledBack then t == WithStamp(s, session, StorageError, x) && r == Failed(StorageError)
         else
           && t == landed.value
           && r == if x.write == AckLost then Failed(StorageError)
                 else Committed(Receipt(x.minted, session.payload.base + 1))
    ensures
      var live := s.loops[s.sessions[sid].payload.loopId];
      Ends(s, Op(CommitSync(machine, sid), false, ComWrite(SeenNow(s, sid, x), live)), x, t, r)
  {
    hide Ends, WithStamp, AdvancePrepare, AdvancePut, AdvanceOther;
    var session, seen, live := s.sessions[sid], SeenNow(s, sid, x), s.loops[s.sessions[sid].payload.loopId];
    var op := Op(CommitSync(machine, sid), false, ComWrite(seen, live));
    var stamp := op.(pc := ComStamp(seen, StorageError));
    if x.write == RolledBack { StampEnds(s, machine, sid, x, StorageError); }
    else { LateStamp(s, machine, sid, x); }
    hide Commit;
    if x.write == RolledBack { Leads(s, op, x, Move(s, stamp), t, r); }
    else if x.write == AckLost { Leads(s, op, x, Move(t, stamp), t, r); }
    else { Finishes(s, op, x, t, r); }
  }

  /** The stamp after a landed commit is void: the row it saw is no longer there. */
  lemma LateStamp(s: Store, machine: MachineId, sid: SyncId, x: Outside)
    requires Prechecked(s, machine, sid, x)
      && Commit(s, sid, s.loops[s.sessions[sid].payload.loopId], x.minted, x.now).Some?
    ensures
      var landed := Commit(s, sid, s.loops[s.sessions[sid].payload.loopId], x.minted, x.now).value;
      var op := Op(CommitSync(machine, sid), false, ComStamp(SeenNow(s, sid, x), StorageError));
      Ends(landed, op, x, landed, Failed(StorageError))
  {
    hide Ends, AdvancePrepare, AdvancePut, AdvanceOther, TotalBytes;
    var id := s.sessions[sid].payload.loopId;
    var landed := Commit(s, sid, s.loops[id], x.minted, x.now).value;
    var op := Op(CommitSync(machine, sid), false, ComStamp(SeenNow(s, sid, x), StorageError));
    assert landed.loops[id].revision == s.loops[id].revision + 1;
    hide Commit;
    Finishes(landed, op, x, landed, Failed(StorageError));
  }

  /** A commit of a session at the loop's base, one of whose files is gone while its row is
      there and everything before it is backed: refused as `blob_missing`, without a receipt
      or a manifest, the current manifest and the last success as they were, the failure stamped. */
  lemma AbsentFileIsRefused(s: Store, machine: MachineId, sid: SyncId, x: Outside, i: nat)
    requires x.minted !in s.manifests && Prechecked(s, machine, sid, x) && x.stamp != RolledBack
    requires i < |s.sessions[sid].negotiated| && x.has(s.sessions[sid].negotiated[i]) == Some(false)
    requires forall j :: 0 <= j < i ==> x.has(s.sessions[sid].negotiated[j]) == Some(true)
    requires forall j :: 0 <= j <= i ==> RowMatches(s, s.sessions[sid], s.sessions[sid].negotiated[j])
    ensures
      var session := s.sessions[sid];
      var loop, t := s.loops[session.payload.loopId], WithStamp(s, session, BlobMissing, x);
      && Ends(s, Op(CommitSync(machine, sid), false, Begin), x, t, Failed(BlobMissing))
      && t.sessions == s.sessions && t.manifests == s.manifests && session.receipt.None?
      && t.loops[session.payload.loopId].manifestId == loop.manifestId
      && t.loops[session.payload.loopId].manifestRevision == loop.manifestRevision
      && t.loops[session.payload.loopId].attempt
         == Attempt(Some(x.now), loop.attempt.succeededAt, Some("artifact_blob_missing"), session.payload.config)
  {
    AbsentDecides(s, s.sessions[sid], x.has, 0, i);
    CommitAfterFiles(s, machine, sid, x);
    CommitAnswers(s, machine, sid, x);
    hide Ends, CommitEnding, FileRefusal, RowMatches;
  }

  lemma {:induction false} AbsentDecides(s: Store, session: Session, has: Hash -> Option<bool>, from: nat, i: nat)
    requires from <= i < |session.negotiated| && has(session.negotiated[i]) == Some(false)
    requires forall j :: from <= j < i ==> has(session.negotiated[j]) == Some(true)
    requires forall j :: from <= j <= i ==> RowMatches(s, session, session.negotiated[j])
    ensures FileRefusal(s, session, has, from) == Some(BlobMissing)
    decreases i - from
  {
    hide RowMatches;
    if from < i { AbsentDecides(s, session, has, from + 1, i); }
  }

  // ---- The other writers ----

  /** The two refusals of a directory that no row can have. */
  predicate DirRefused(loop: Loop, dir: Option<string>) {
    && dir.Some?
    && (dir.value == "" || '\0' in dir.value
        || (dir.value[0] != '/' && (loop.workdir.None? || loop.workdir.value == "")))
  }

  /** A configuration left alone: the directory it asks for is the loop's afterwards, one
      generation further and with a clean attempt, unless it is the same one, it is not
      allowed, or the generations are used up. */
  lemma ConfigureAnswers(s: Store, id: LoopId, dir: Option<string>, x: Outside)
    ensures
      var op := Op(Configure(id, dir), false, Begin);
      if id !in s.loops then Ends(s, op, x, s, Failed(LoopNotFound))
      else
        var loop := s.loops[id];
        if DirRefused(loop, dir) then Ends(s, op, x, s, Failed(ConfigRejected))
        else if dir == loop.dir then Ends(s, op, x, s, Accepted)
        else if loop.config >= REVISION_MAX then Ends(s, op, x, s, Failed(ConfigRejected))
        else
          var row := loop.(dir := dir, config := loop.config + 1, attempt := CLEAR, revision := loop.revision + 1);
          Ends(s, op, x, s.(loops := s.loops[id := row]), Accepted)
  {
    hide Ends, AdvancePrepare, AdvancePut, AdvanceCommit;
    var op := Op(Configure(id, dir), false, Begin);
    if id !in s.loops {
      Finishes(s, op, x, s, Failed(LoopNotFound));
    } else {
      var loop := s.loops[id];
      if DirRefused(loop, dir) { Finishes(s, op, x, s, Failed(ConfigRejected)); }
      else if dir == loop.dir { Finishes(s, op, x, s, Accepted); }
      else if loop.config >= REVISION_MAX { Finishes(s, op, x, s, Failed(ConfigRejected)); }
      else {
        var planned := loop.(dir := dir, config := loop.config + 1, attempt := CLEAR);
        var t := s.(loops := s.loops[id := planned.(revision := loop.revision + 1)]);
        Finishes(s, op.(pc := CfgWrite(loop, planned)), x, t, Accepted);
        Leads(s, op, x, Move(s, op.(pc := CfgWrite(loop, planned))), t, Accepted);
      }
    }
  }

  /** A report left alone: it is recorded with its error exactly when the loop is this
      machine's, configured, at the generation and the base it speaks of. */
  lemma ReportAnswers(s: Store, machine: MachineId, id: LoopId, config: nat, base: nat, error: string, x: Outside)
    ensures
      var op := Op(ReportError(machine, id, config, base, error), false, Begin);
      if x.ns.None? then Ends(s, op, x, s, Failed(AttributionMissing))
      else if !LoopHeld(s, machine, id) then Ends(s, op, x, s, Failed(LoopNotFound))
      else
        var loop := s.loops[id];
        if loop.dir.None? || loop.config != config || loop.manifestRevision != base
        then Ends(s, op, x, s, Failed(NotRecorded))
        else
          var row := loop.(attempt := Attempt(Some(x.now), loop.attempt.succeededAt, Some(error), config),
                           revision := loop.revision + 1);
          Ends(s, op, x, s.(loops := s.loops[id := row]), Accepted)
  {
    hide Ends, AdvancePrepare, AdvancePut, AdvanceCommit;
    var op := Op(ReportError(machine, id, config, base, error), false, Begin);
    if x.ns.None? {
      Finishes(s, op, x, s, Failed(AttributionMissing));
    } else {
      var a := op.(pc := RepLoop(x.ns.value));
      if !LoopHeld(s, machine, id) {
        Finishes(s, a, x, s, Failed(LoopNotFound));
        Leads(s, op, x, Move(s, a), s, Failed(LoopNotFound));
      } else {
        var loop := s.loops[id];
        if loop.dir.None? || loop.config != config || loop.manifestRevision != base {
          Finishes(s, a, x, s, Failed(NotRecorded));
          Leads(s, op, x, Move(s, a), s, Failed(NotRecorded));
        } else {
          var row := loop.(attempt := Attempt(Some(x.now), loop.attempt.succeededAt, Some(error), config),
                           revision := loop.revision + 1);
          var t := s.(loops := s.loops[id := row]);
          Finishes(s, op.(pc := RepWrite(loop)), x, t, Accepted);
          Leads(s, a, x, Move(s, op.(pc := RepWrite(loop))), t, Accepted);
          Leads(s, op, x, Move(s, a), t, Accepted);
        }
      }
    }
  }

  /** The first objection to binding a run to this manifest. */
  function BindObjection(run: Run, loop: Loop, m: Manifest, ns: Namespace, attributed: MachineId): Option<string> {
    if m.ns != ns then Some("cross_namespace")
    else if !(m.machine == run.machine == loop.machine && m.machine == attributed) then Some("cross_machine")
    else if m.loopId != run.loopId then Some("cross_loop")
    else if m.config != loop.config then Some("stale_config_generation")
    else None
  }

  /** What a report binds to its run: a committed snapshot that nothing objects to, or an
      error and no snapshot; nothing at all when it carries neither. */
  function Bound(s: Store, rid: RunId, call: Call, ns: Option<Namespace>): Run
    requires call.BindSnapshot? && rid in s.runs && s.runs[rid].loopId in s.loops
  {
    var run := s.runs[rid];
    var wrong := (reason: string) => run.(snapshot := None, syncError := Some(reason));
    if call.snapshot.None? && call.syncError.None? then run
    else if call.snapshot.Some? && call.syncError.Some? then wrong("ambiguous_artifact_report")
    else if call.syncError.Some? then (if call.syncErrorText.None? then run else wrong(call.syncErrorText.value))
    else if ns.None? then wrong("attribution_missing")
    else if call.snapshot.value !in s.manifests then wrong("snapshot_not_committed")
    else
      var objection :=
        BindObjection(run, s.loops[run.loopId], s.manifests[call.snapshot.value], ns.value, call.attributed);
      if objection.Some? then wrong(objection.value) else run.(snapshot := call.snapshot)
  }

  lemma BindAnswers(s: Store, call: Call, x: Outside)
    requires call.BindSnapshot?
    ensures
      var op, rid := Op(call, false, Begin), call.rid;
      if rid !in s.runs || s.runs[rid].loopId !in s.loops then Ends(s, op, x, s, Failed(LoopNotFound))
      else Ends(s, op, x, s.(runs := s.runs[rid := Bound(s, rid, call, x.ns)]), Accepted)
  {
    hide Ends, AdvancePrepare, AdvancePut, AdvanceCommit, Bound, PlanBinding, ApplyBinding;
    var op, rid := Op(call, false, Begin), call.rid;
    if rid !in s.runs {
      Finishes(s, op, x, s, Failed(LoopNotFound));
    } else {
      var run := s.runs[rid];
      var found := if call.snapshot.Some? && call.snapshot.value in s.manifests
                   then Some((call.snapshot.value, s.manifests[call.snapshot.value])) else None;
      var a, b := op.(pc := BindManifest(run)), op.(pc := BindLoop(run, found));
      if run.loopId !in s.loops {
        Finishes(s, b, x, s, Failed(LoopNotFound));
        Leads(s, a, x, Move(s, b), s, Failed(LoopNotFound));
        Leads(s, op, x, Move(s, a), s, Failed(LoopNotFound));
      } else {
        var t := s.(runs := s.runs[rid := Bound(s, rid, call, x.ns)]);
        BindFromLoop(s, call, x, found);
        Leads(s, a, x, Move(s, b), t, Accepted);
        Leads(s, op, x, Move(s, a), t, Accepted);
      }
    }
  }

  lemma BindFromLoop(s: Store, call: Call, x: Outside, found: Option<(ManifestId, Manifest)>)
    requires call.BindSnapshot? && call.rid in s.runs && s.runs[call.rid].loopId in s.loops
    requires found == (if call.snapshot.Some? && call.snapshot.value in s.manifests
                       then Some((call.snapshot.value, s.manifests[call.snapshot.value])) else None)
    ensures
      var t := s.(runs := s.runs[call.rid := Bound(s, call.rid, call, x.ns)]);
      Ends(s, Op(call, false, BindLoop(s.runs[call.rid], found)), x, t, Accepted)
  {
    hide Ends, AdvancePrepare, AdvancePut, AdvanceCommit;
    var run, t := s.runs[call.rid], s.(runs := s.runs[call.rid := Bound(s, call.rid, call, x.ns)]);
    var attribution := if x.ns.Some? then Some((x.ns.value, call.attributed)) else None;
    var plan := PlanBinding(run, run.loopId, s.loops[run.loopId], found, call.snapshot, call.syncError,
                            call.syncErrorText,
                            attribution);
    BoundIs(s, call, x.ns, found);
    hide PlanBinding, ApplyBinding, Bound;
    WritesBinding(s, call, x, run, plan, t);
    Leads(s, Op(call, false, BindLoop(run, found)), x, Move(s, Op(call, false, BindWrite(run, plan))), t, Accepted);
  }

  lemma WritesBinding(s: Store, call: Call, x: Outside, run: Run, plan: BindPlan, t: Store)
    requires call.BindSnapshot? && ApplyBinding(s, call.rid, run, plan) == Some(t)
    ensures Ends(s, Op(call, false, BindWrite(run, plan)), x, t, Accepted)
  {
    hide Ends, ApplyBinding, AdvancePrepare, AdvancePut, AdvanceCommit;
    Finishes(s, Op(call, false, BindWrite(run, plan)), x, t, Accepted);
  }

  lemma BoundIs(s: Store, call: Call, ns: Option<Namespace>, found: Option<(ManifestId, Manifest)>)
    requires call.BindSnapshot? && call.rid in s.runs && s.runs[call.rid].loopId in s.loops
    requires found == (if call.snapshot.Some? && call.snapshot.value in s.manifests
                       then Some((call.snapshot.value, s.manifests[call.snapshot.value])) else None)
    ensures
      var run := s.runs[call.rid];
      var attribution := if ns.Some? then Some((ns.value, call.attributed)) else None;
      var plan := PlanBinding(run, run.loopId, s.loops[run.loopId], found, call.snapshot, call.syncError,
                              call.syncErrorText, attribution);
      ApplyBinding(s, call.rid, run, plan) == Some(s.(runs := s.runs[call.rid := Bound(s, call.rid, call, ns)]))
  {
    assert s.runs[call.rid := s.runs[call.rid]] == s.runs;
  }

  /** A read of a loop's revision, left alone. */
  lemma ReadAnswers(s: Store, machine: MachineId, id: LoopId, x: Outside)
    ensures
      Ends(s, Op(ReadLoop(machine, id), false, Begin), x, s,
           if x.ns.None? then Failed(AttributionMissing)
           else if !LoopHeld(s, machine, id) then Failed(LoopNotFound)
           else if s.loops[id].dir.None? then Failed(Unconfigured)
           else Viewed(s.loops[id].config, s.loops[id].manifestRevision, s.loops[id].dir.value))
  {
    hide Ends, AdvancePrepare, AdvancePut, AdvanceCommit;
    Finishes(s, Op(ReadLoop(machine, id), false, Begin), x, s,
             if x.ns.None? then Failed(AttributionMissing)
             else if !LoopHeld(s, machine, id) then Failed(LoopNotFound)
             else if s.loops[id].dir.None? then Failed(Unconfigured)
             else Viewed(s.loops[id].config, s.loops[id].manifestRevision, s.loops[id].dir.value));
  }

  // ---- Lost races ----

  /** A write whose guard no longer holds: the row it saw has moved, or the session has been
      committed meanwhile. */
  predicate GuardFails(s: Store, op: Op, o: Oracle) {
    match op.pc
    case PreInsert(ns, loop, _) =>
      op.call.Prepare? && FoundIsRight(s, ns, op.call, o.found) && o.minted !in s.sessions
      && !AtRevision(s, op.call.payload.loopId, loop)
    case ComWrite(_, live) =>
      op.call.CommitSync? && o.fault != RolledBack && o.minted !in s.manifests
      && (op.call.sid !in s.sessions || s.sessions[op.call.sid].receipt.Some?
          || !AtRevision(s, s.sessions[op.call.sid].payload.loopId, live))
    case CfgWrite(loop, _) => op.call.Configure? && !AtRevision(s, op.call.id, loop)
    case BindWrite(run, plan) =>
      op.call.BindSnapshot? && !plan.BindSkip?
      && (op.call.rid !in s.runs || s.runs[op.call.rid].phase != run.phase
          || (plan.BindTo? && (run.loopId !in s.loops || s.loops[run.loopId].config != plan.generation)))
    case _ => false
  }

  /** A lost guard writes nothing; the operation starts over once, on fresh rows, and
      reports the race as lost the second time. */
  lemma LostGuardRerunsOnce(s: Store, op: Op, o: Oracle)
    requires GuardFails(s, op, o)
    ensures Advance(s, op, o) ==
      Move(s, if op.retried then op.(pc := Done(Failed(RaceLost))) else op.(retried := true, pc := Begin))
  {
    hide FoundIsRight;
  }

  /** A renewal that lost to a competitor reads the row again: what that competitor left is
      what counts. */
  lemma LostRenewalRereads(s: Store, op: Op, o: Oracle)
    requires op.call.Prepare? && op.pc.PreRenew? && op.pc.sid in s.sessions
    requires s.sessions[op.pc.sid].receipt.Some? || s.sessions[op.pc.sid].expiresAt != op.pc.session.expiresAt
    ensures
      var sid, m := op.pc.sid, Advance(s, op, o); var n := Advance(m.store, m.op, o);
      && m.store == s && n.store == s
      && n.op.pc == if s.sessions[sid].receipt.Some? then Done(Prepared(sid, []))
            else PreNeed(sid, s.sessions[sid], [], 0)
  {
    hide AdvancePut, AdvanceCommit, AdvanceOther;
  }

  // ---- One answer ----

  lemma {:induction false} DoneForGood(s: Store, op: Op, x: Outside, n: nat)
    requires op.pc.Done?
    ensures Alone(s, op, x, n) == Move(s, op)
  {
    if n > 0 { DoneForGood(s, op, x, n - 1); }
  }

  lemma {:induction false} Further(s: Store, op: Op, x: Outside, n: nat, k: nat)
    ensures var m := Alone(s, op, x, n); Alone(s, op, x, n + k) == Alone(m.store, m.op, x, k)
    decreases n
  {
    hide Advance;
    if n > 0 {
      var m := Advance(s, op, Reply(x, op.pc));
      Further(m.store, m.op, x, n - 1, k);
    }
  }

  /** An operation left alone ends in one way only. */
  lemma EndsOnce(s: Store, op: Op, x: Outside, t: Store, r: Result, u: Store, q: Result)
    requires Ends(s, op, x, t, r) && Ends(s, op, x, u, q)
    ensures t == u && r == q
  {
    hide Advance;
    var n: nat :| EndsIn(s, op, x, t, r, n);
    var k: nat :| EndsIn(s, op, x, u, q, k);
    Further(s, op, x, n, k);
    Further(s, op, x, k, n);
    DoneForGood(t, Alone(s, op, x, n).op, x, k);
    DoneForGood(u, Alone(s, op, x, k).op, x, n);
    assert n + k == k + n;
  }
}
