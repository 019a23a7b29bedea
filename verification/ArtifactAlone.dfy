/**
 The protocol is not safe by refusing everything: a sync that no one disturbs
 negotiates, uploads what is missing, and lands.
 */
module ArtifactAlone {
  import opened Wrappers
  import opened ArtifactStore
  import opened ArtifactServer
  import opened ArtifactSafety
  import opened ArtifactTables

  // ---- Prepare ----

  /** The loop is configured for this machine and at the generation and base of the
      request, and the key is new, or that of an open session for the same request. */
  ghost predicate Current(s: Store, call: Call, o: Oracle)
    requires call.Prepare?
  {
    && o.ns.Some? && FoundIsRight(s, o.ns.value, call, o.found)
    && (match o.found
        case None => o.minted !in s.sessions
        case Some(sid) =>
          && s.sessions[sid].payload == call.payload && s.sessions[sid].receipt.None?
          && s.sessions[sid].negotiated == Distinct(call.payload.entries))
    && call.payload.loopId in s.loops
    && var loop := s.loops[call.payload.loopId];
    && loop.machine == call.machine && loop.dir.Some?
    && call.payload.config == loop.config && call.payload.base == loop.manifestRevision
  }

  function WithSession(s: Store, sid: SyncId, session: Session): Store { s.(sessions := s.sessions[sid := session]) }

  /** The session that answers the key: found, or about to be inserted. */
  function SidOf(o: Oracle): SyncId { if o.found.Some? then o.found.value else o.minted }

  /** What that session is once the prepare has opened it: new, renewed, or as it was. */
  function OpenedSession(s: Store, call: Call, o: Oracle): Session
    requires call.Prepare? && o.ns.Some?
  {
    if o.found.Some? && o.found.value in s.sessions then
      var session := s.sessions[o.found.value];
      if o.now >= session.expiresAt then session.(expiresAt := o.now + SESSION_TTL) else session
    else NewSession(o.ns.value, call, o.now)
  }

  function OpenSteps(s: Store, o: Oracle): nat {
    if o.found.Some? && o.found.value in s.sessions && o.now < s.sessions[o.found.value].expiresAt then 3 else 4
  }

  lemma AloneOpens(s: Store, call: Call, o: Oracle)
    requires call.Prepare? && Current(s, call, o)
    ensures
      var session := OpenedSession(s, call, o);
      AdvanceMany(s, Op(call, false, Begin), o, OpenSteps(s, o))
      == Move(WithSession(s, SidOf(o), session), Op(call, false, PreNeed(SidOf(o), session, [], 0)))
  {
    if o.found.None? { AloneInserts(s, call, o); } else { AloneReuses(s, call, o); }
  }

  lemma AloneReuses(s: Store, call: Call, o: Oracle)
    requires call.Prepare? && Current(s, call, o) && o.found.Some?
    ensures
      var session := OpenedSession(s, call, o);
      AdvanceMany(s, Op(call, false, Begin), o, OpenSteps(s, o))
      == Move(WithSession(s, SidOf(o), session), Op(call, false, PreNeed(SidOf(o), session, [], 0)))
  {
    var loop, sid := s.loops[call.payload.loopId], o.found.value;
    var session, op := s.sessions[sid], Op(call, false, Begin);
    var a, b := op.(pc := PreLoop(o.ns.value)), op.(pc := PreKey(o.ns.value, loop));
    assert Advance(s, op, o) == Move(s, a);
    assert Advance(s, a, o) == Move(s, b);
    if o.now >= session.expiresAt {
      var c := op.(pc := PreRenew(sid, session, o.now));
      var renewed := OpenedSession(s, call, o);
      assert Advance(s, b, o) == Move(s, c);
      FourSteps(s, op, o, a, b, c, Move(WithSession(s, sid, renewed), op.(pc := PreNeed(sid, renewed, [], 0))));
    } else {
      var last := Move(s, op.(pc := PreNeed(sid, session, [], 0)));
      assert Advance(s, b, o) == last;
      hide Advance, Current, OpenedSession;
      assert AdvanceMany(s, op, o, 3) == AdvanceMany(s, a, o, 2);
      assert AdvanceMany(s, a, o, 2) == AdvanceMany(s, b, o, 1);
      assert AdvanceMany(s, b, o, 1) == AdvanceMany(last.store, last.op, o, 0);
      assert s.sessions[sid := session] == s.sessions;
    }
  }

  lemma AloneInserts(s: Store, call: Call, o: Oracle)
    requires call.Prepare? && Current(s, call, o) && o.found.None?
    ensures
      var session := NewSession(o.ns.value, call, o.now);
      AdvanceMany(s, Op(call, false, Begin), o, 4)
      == Move(WithSession(s, o.minted, session), Op(call, false, PreNeed(o.minted, session, [], 0)))
  {
    var loop := s.loops[call.payload.loopId];
    var m1 := Advance(s, Op(call, false, Begin), o);
    var m2 := Advance(s, m1.op, o);
    var m3 := Advance(s, m2.op, o);
    assert m3 == Move(s, Op(call, false, PreInsert(o.ns.value, loop, o.now)));
    hide FoundIsRight, NewSession;
    assert AdvanceMany(s, Op(call, false, Begin), o, 4) == AdvanceMany(s, m1.op, o, 3);
    assert AdvanceMany(s, m1.op, o, 3) == AdvanceMany(s, m2.op, o, 2);
    assert AdvanceMany(s, m2.op, o, 2) == AdvanceMany(s, m3.op, o, 1);
  }

  /** In a reachable store a session found for a request that is based on the current
      revision is open: had it been committed, the revision would be past its base. */
  lemma FoundIsOpen(s: Store, sid: SyncId)
    requires StoreOk(s) && sid in s.sessions && s.sessions[sid].payload.loopId in s.loops
    requires s.sessions[sid].payload.base == s.loops[s.sessions[sid].payload.loopId].manifestRevision
    ensures s.sessions[sid].receipt.None? && s.sessions[sid].negotiated == Distinct(s.sessions[sid].payload.entries)
  {
    hide LoopOk, RunOk, KeysUnique, ReceiptsUnique, NumbersUnique, BlobsOk, RowsBack, Distinct;
    assert SessionOk(s, sid);
    assert forall mid :: mid in s.manifests ==> ManifestOk(s, mid);
  }

  /** What the opened session is, whichever way it was opened. */
  lemma OpenedIs(s: Store, call: Call, o: Oracle)
    requires call.Prepare? && Current(s, call, o)
    ensures
      var session := OpenedSession(s, call, o);
      && session.ns == o.ns.value && session.machine == call.machine && session.payload == call.payload
      && session.negotiated == Distinct(call.payload.entries) && session.receipt.None?
  {
  }

  /** The need loop over the first n hashes. */
  function NeedSteps(s: Store, op: Op, has: Hash -> bool, hashes: seq<Hash>): Op
    requires op.call.Prepare?
  {
    if hashes == [] then op
    else
      var before := NeedSteps(s, op, has, hashes[..|hashes| - 1]);
      if before.call.Prepare? then NeedStep(s, before, has, hashes[|hashes| - 1]) else before
  }

  lemma {:induction false} NeedStepsAre(s: Store, op: Op, has: Hash -> bool, sid: SyncId, session: Session, n: nat)
    requires op.call.Prepare? && op.pc == PreNeed(sid, session, [], 0) && n <= |session.negotiated|
    ensures NeedSteps(s, op, has, session.negotiated[..n])
         == op.(pc := PreNeed(sid, session, NeedOf(s, session, has, session.negotiated[..n]), n))
  {
    hide NeedStep, RowMatches, Distinct;
    if n > 0 {
      NeedStepsAre(s, op, has, sid, session, n - 1);
      var hashes := session.negotiated[..n];
      assert hashes[..n - 1] == session.negotiated[..n - 1] && hashes[n - 1] == session.negotiated[n - 1];
      NeedStepAppends(s, NeedSteps(s, op, has, hashes[..n - 1]), has, sid, session, n - 1);
      NeedStepKeepsCall(s, NeedSteps(s, op, has, hashes[..n - 1]), has, hashes[n - 1]);
    }
  }

  lemma NeedStepKeepsCall(s: Store, op: Op, has: Hash -> bool, h: Hash)
    requires op.call.Prepare? && op.pc.PreNeed?
    ensures NeedStep(s, op, has, h).call == op.call && NeedStep(s, op, has, h).retried == op.retried
  {
  }

  /** A whole prepare, left alone; `has` is what the blob store holds. */
  function PrepareAlone(s: Store, call: Call, o: Oracle, has: Hash -> bool): Move
    requires call.Prepare?
  {
    var m := AdvanceMany(s, Op(call, false, Begin), o, OpenSteps(s, o));
    if !m.op.call.Prepare? then m
    else Advance(m.store, NeedSteps(m.store, m.op, has, Distinct(call.payload.entries)), o)
  }

  /** It opens the session and asks for exactly the hashes without a verified blob. */
  lemma AlonePrepareNegotiates(s: Store, call: Call, o: Oracle, has: Hash -> bool)
    requires call.Prepare? && Current(s, call, o)
    ensures
      var session := OpenedSession(s, call, o); var t := WithSession(s, SidOf(o), session);
      && PrepareAlone(s, call, o, has).store == t
      && PrepareAlone(s, call, o, has).op.pc
            == Done(Prepared(SidOf(o), NeedOf(t, session, has, Distinct(call.payload.entries))))
  {
    var session := OpenedSession(s, call, o);
    var t := WithSession(s, SidOf(o), session);
    AloneOpens(s, call, o);
    OpenedIs(s, call, o);
    NeedStepsAre(t, Op(call, false, PreNeed(SidOf(o), session, [], 0)), has, SidOf(o), session, |session.negotiated|);
    assert session.negotiated[..|session.negotiated|] == session.negotiated;
  }

  // ---- PUT ----

  ghost predicate Uploadable(s: Store, sid: SyncId, h: Hash, o: Oracle) {
    && sid in s.sessions
    && var session := s.sessions[sid]; var id := session.payload.loopId;
    && id in s.loops && s.loops[id].machine == session.machine && session.payload.config == s.loops[id].config
    && session.receipt.None? && o.now < session.expiresAt && o.ns == Some(session.ns)
    && h in session.negotiated && SizeFor(session.payload.entries, h) == Some(|h.content|)
    && o.present.Some? && o.fault == NoFault && o.bytes == h.content
  }

  function PutAlone(s: Store, sid: SyncId, h: Hash, o: Oracle): Move
    requires sid in s.sessions
  {
    AdvanceMany(s, Op(Put(s.sessions[sid].machine, sid, h), false, Begin), o, 8)
  }

  lemma AlonePutStores(s: Store, sid: SyncId, h: Hash, o: Oracle)
    requires Uploadable(s, sid, h, o)
    ensures
      var m := PutAlone(s, sid, h, o);
      m.op.pc == Done(Uploaded) && m.store == RegisterBlob(s, s.sessions[sid].ns, h, |h.content|)
  {
    hide AdvanceMany;
    PutHead(s, sid, h, o);
    PutTail(s, sid, h, o);
    ManySplits(s, Op(Put(s.sessions[sid].machine, sid, h), false, Begin), o, 4, 4);
  }

  lemma {:induction false} ManySplits(s: Store, op: Op, o: Oracle, n: nat, k: nat)
    ensures var m := AdvanceMany(s, op, o, n); AdvanceMany(s, op, o, n + k) == AdvanceMany(m.store, m.op, o, k)
    decreases n
  {
    hide Advance;
    if n > 0 {
      var m := Advance(s, op, o);
      ManySplits(m.store, m.op, o, n - 1, k);
    }
  }

  lemma PutHead(s: Store, sid: SyncId, h: Hash, o: Oracle)
    requires Uploadable(s, sid, h, o)
    ensures
      var call := Put(s.sessions[sid].machine, sid, h);
      AdvanceMany(s, Op(call, false, Begin), o, 4) == Move(s, Op(call, false, PutAgain(|h.content|)))
  {
    var session := s.sessions[sid];
    var op := Op(Put(session.machine, sid, h), false, Begin);
    FourSteps(s, op, o, op.(pc := PutSession(session.ns)), op.(pc := PutLoop(session)), op.(pc := PutWrite(session)),
              Move(s, op.(pc := PutAgain(|h.content|))));
  }

  lemma PutTail(s: Store, sid: SyncId, h: Hash, o: Oracle)
    requires Uploadable(s, sid, h, o)
    ensures
      var call, size := Put(s.sessions[sid].machine, sid, h), |h.content|;
      AdvanceMany(s, Op(call, false, PutAgain(size)), o, 4)
      == Move(RegisterBlob(s, s.sessions[sid].ns, h, size), Op(call, false, Done(Uploaded)))
  {
    var session, size := s.sessions[sid], |h.content|;
    var op := Op(Put(session.machine, sid, h), false, PutAgain(size));
    FourSteps(s, op, o, op.(pc := PutSessionAgain(session.ns, size)), op.(pc := PutLoopAgain(session, size)),
              op.(pc := PutRow(session, size)), Move(RegisterBlob(s, session.ns, h, size), op.(pc := Done(Uploaded))));
  }

  /** The store after uploading the hashes one by one. */
  function PutAll(s: Store, sid: SyncId, hashes: seq<Hash>, o: Oracle): Store {
    if hashes == [] then s
    else
      var t, h := PutAll(s, sid, hashes[..|hashes| - 1], o), hashes[|hashes| - 1];
      if sid in t.sessions then PutAlone(t, sid, h, o.(bytes := h.content)).store else t
  }

  ghost predicate OnlyRowsAdded(s: Store, t: Store, ns: Namespace, hashes: seq<Hash>) {
    && t == s.(blobs := t.blobs)
    && (forall k :: k in s.blobs ==> k in t.blobs && t.blobs[k] == s.blobs[k])
    && (forall h :: h in hashes ==> (ns, h) in t.blobs)
    && (forall k :: k in t.blobs && k !in s.blobs ==> t.blobs[k] == |k.1.content|)
  }

  lemma UploadableStays(s: Store, t: Store, sid: SyncId, h: Hash, o: Oracle)
    requires Uploadable(s, sid, h, o) && t == s.(blobs := t.blobs)
    ensures Uploadable(t, sid, h, o)
  {
    hide SizeFor;
  }

  lemma RowAdded(s: Store, t: Store, ns: Namespace, hashes: seq<Hash>, h: Hash)
    requires OnlyRowsAdded(s, t, ns, hashes)
    ensures OnlyRowsAdded(s, RegisterBlob(t, ns, h, |h.content|), ns, hashes + [h])
  {
  }

  lemma {:induction false} PutAllStores(s: Store, sid: SyncId, hashes: seq<Hash>, o: Oracle)
    requires sid in s.sessions && forall h :: h in hashes ==> Uploadable(s, sid, h, o.(bytes := h.content))
    ensures OnlyRowsAdded(s, PutAll(s, sid, hashes, o), s.sessions[sid].ns, hashes)
  {
    hide Uploadable, PutAlone, RegisterBlob;
    if hashes != [] {
      var less, h := hashes[..|hashes| - 1], hashes[|hashes| - 1];
      assert hashes == less + [h];
      PutAllStores(s, sid, less, o);
      var t := PutAll(s, sid, less, o);
      UploadableStays(s, t, sid, h, o.(bytes := h.content));
      AlonePutStores(t, sid, h, o.(bytes := h.content));
      RowAdded(s, t, s.sessions[sid].ns, less, h);
    }
  }

  // ---- The whole sync ----

  /** Sizes in the request are those of the contents. */
  ghost predicate Honest(entries: seq<Entry>) {
    forall i :: 0 <= i < |entries| ==> entries[i].size == |entries[i].hash.content|
  }

  /** The answers during the uploads and the commit: attribution unchanged, session not
      expired, no fault, a fresh manifest id, and every file present. */
  ghost predicate Smooth(s: Store, session: Session, o: Oracle) {
    o.ns == Some(session.ns) && o.now < session.expiresAt && o.present == Some(true) && o.fault == NoFault
      && o.minted !in s.manifests
  }

  lemma {:induction false} HonestSize(entries: seq<Entry>, h: Hash)
    requires Honest(entries) && h in Distinct(entries)
    ensures SizeFor(entries, h) == Some(|h.content|)
  {
    if entries[0].hash != h {
      var rest := entries[1..];
      var i :| 0 <= i < |entries| && entries[i].hash == h;
      assert rest[i - 1].hash == h;
      HonestSize(rest, h);
    }
  }

  lemma NeededIsUploadable(s: Store, call: Call, o: Oracle, later: Oracle, h: Hash)
    requires call.Prepare? && Current(s, call, o) && Honest(call.payload.entries)
      && Smooth(s, OpenedSession(s, call, o), later)
    requires h in Distinct(call.payload.entries)
    ensures Uploadable(WithSession(s, SidOf(o), OpenedSession(s, call, o)), SidOf(o), h, later.(bytes := h.content))
  {
    HonestSize(call.payload.entries, h);
    hide FoundIsRight, SizeFor, Distinct;
  }

  /** With the needed rows added, every negotiated hash has its row. */
  lemma RowsComplete(t: Store, u: Store, session: Session, has: Hash -> bool, h: Hash)
    requires OnlyRowsAdded(t, u, session.ns, NeedOf(t, session, has, session.negotiated)) && BlobsOk(t)
    requires session.negotiated == Distinct(session.payload.entries) && Honest(session.payload.entries)
      && h in session.negotiated
    ensures RowMatches(u, session, h)
  {
    DistinctOnce(session.payload.entries);
    NeedIsExact(t, session, has, session.negotiated);
    HonestSize(session.payload.entries, h);
  }

  lemma CompleteAfter(s: Store, u: Store, call: Call, o: Oracle, has: Hash -> bool, later: Oracle)
    requires call.Prepare? && Current(s, call, o) && BlobsOk(s) && Honest(call.payload.entries)
    requires call.payload.base < REVISION_MAX && Smooth(s, OpenedSession(s, call, o), later)
    requires
      var session := OpenedSession(s, call, o); var t := WithSession(s, SidOf(o), session);
      OnlyRowsAdded(t, u, session.ns, NeedOf(t, session, has, session.negotiated))
    ensures Complete(u, SidOf(o), later)
  {
    OpenedIs(s, call, o);
    hide FoundIsRight, RowMatches, NeedOf, Distinct, OpenedSession;
    var session := OpenedSession(s, call, o);
    var t := WithSession(s, SidOf(o), session);
    forall j | 0 <= j < |session.negotiated| ensures RowMatches(u, session, session.negotiated[j]) {
      RowsComplete(t, u, session, has, session.negotiated[j]);
    }
  }

  /** Prepare, upload what it asked for, commit: the manifest is the request's, one
      revision further, and it is the loop's current one. */
  lemma AloneSyncLands(s: Store, call: Call, o: Oracle, has: Hash -> bool, later: Oracle)
    requires call.Prepare? && Current(s, call, o) && BlobsOk(s) && Honest(call.payload.entries)
    requires call.payload.base < REVISION_MAX && Smooth(s, OpenedSession(s, call, o), later)
    ensures
      var session := OpenedSession(s, call, o); var t := WithSession(s, SidOf(o), session);
      var need := NeedOf(t, session, has, session.negotiated);
      var u := PutAll(t, SidOf(o), need, later);
      var m := AdvanceMany(u, Op(CommitSync(call.machine, SidOf(o)), false, Begin), later,
                           8 + 2 * |session.negotiated|);
      && PrepareAlone(s, call, o, has).store == t
      && PrepareAlone(s, call, o, has).op.pc == Done(Prepared(SidOf(o), need))
      && m.op.pc == Done(Committed(Receipt(later.minted, call.payload.base + 1)))
      && later.minted in m.store.manifests && m.store.manifests[later.minted].entries == call.payload.entries
      && call.payload.loopId in m.store.loops && m.store.loops[call.payload.loopId].manifestId == Some(later.minted)
      && m.store.loops[call.payload.loopId].manifestRevision == call.payload.base + 1
  {
    hide AdvanceMany, PutAlone, PrepareAlone, PutAll, NeedOf, Complete, Uploadable, OnlyRowsAdded, BlobsOk, Honest,
         Distinct;
    var session := OpenedSession(s, call, o);
    var t := WithSession(s, SidOf(o), session);
    var need := NeedOf(t, session, has, session.negotiated);
    AlonePrepareNegotiates(s, call, o, has);
    DistinctOnce(call.payload.entries);
    NeedIsExact(t, session, has, session.negotiated);
    forall h | h in need ensures Uploadable(t, SidOf(o), h, later.(bytes := h.content)) {
      NeededIsUploadable(s, call, o, later, h);
    }
    PutAllStores(t, SidOf(o), need, later);
    var u := PutAll(t, SidOf(o), need, later);
    CompleteAfter(s, u, call, o, has, later);
    SessionIsThere(t, u, SidOf(o), session.ns, need);
    SteadyCommitLands(u, SidOf(o), later);
  }

  lemma SessionIsThere(t: Store, u: Store, sid: SyncId, ns: Namespace, hashes: seq<Hash>)
    requires OnlyRowsAdded(t, u, ns, hashes)
    ensures u.sessions == t.sessions
  {
  }
}
