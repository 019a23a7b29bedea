/**
 Suppression is sound: as long as nobody else's proposal for the loop has been
 committed, `unchanged` is returned only when the server's current manifest equals
 the scan, however many earlier commits were cancelled, lost or are still on the wire.
 */
module DaemonSuppression {
  import opened Wrappers
  import opened ArtifactStore
  import opened ArtifactServer
  import opened ArtifactSafety
  import opened UploadRound
  import opened DaemonSync
  import opened DaemonSafety
  import opened DaemonRuns

  ghost predicate OnWire(d: Daemon, p: Payload) {
    exists i :: 0 <= i < |d.wire| && d.wire[i].Prepare? && d.wire[i].payload == p
  }

  /** Every proposal ever sent is based on at most `b`. */
  ghost predicate BasesAtMost(d: Daemon, b: int) {
    forall i :: 0 <= i < |d.wire| && d.wire[i].Prepare? ==> d.wire[i].payload.base <= b
  }

  /** Every committed session of the loop is one this daemon proposed. Others may have
      prepared sessions that were not committed. */
  ghost predicate OnlyOurs(self: Self, w: World) {
    forall sid :: sid in w.server.store.sessions && w.server.store.sessions[sid].receipt.Some? ==>
      OurPayload(self, w.daemon, w.server.store.sessions[sid].payload)
  }

  ghost predicate OurPayload(self: Self, d: Daemon, p: Payload) { p.loopId == self.loop ==> OnWire(d, p) }

  /** A revision that the server has told us about. */
  ghost predicate Told(self: Self, s: Store, revision: nat) {
    LoopKnown(s, self.loop) && (self.loop in s.loops ==> revision <= s.loops[self.loop].manifestRevision)
  }

  ghost predicate BelowCurrent(self: Self, s: Store, d: Daemon) {
    && (self.loop in s.loops ==> BasesAtMost(d, s.loops[self.loop].manifestRevision))
    && (LoopKnown(s, self.loop) || BasesAtMost(d, -1))
  }

  ghost predicate ViewedOk(self: Self, s: Store, op: Op) {
    op.call == ReadCall(self) && op.pc.Done? && op.pc.result.Viewed? ==> Told(self, s, op.pc.result.revision)
  }

  /** What the awaited read answers is no older than any proposal sent. */
  ghost predicate FreshView(w: World, k: nat)
    requires k in w.server.ops
  {
    w.daemon.phase.Reading? && k in w.tags && w.tags[k] == w.daemon.phase.msg
    && w.server.ops[k].pc.Done? && w.server.ops[k].pc.result.Viewed?
    ==> BasesAtMost(w.daemon, w.server.ops[k].pc.result.revision)
  }

  ghost predicate ViewsOk(self: Self, w: World) {
    forall k :: k in w.server.ops ==> ViewedOk(self, w.server.store, w.server.ops[k]) && FreshView(w, k)
  }

  ghost predicate BaseOk(self: Self, s: Store, d: Daemon) {
    match d.phase
    case Scanning(base) => Told(self, s, base) && BasesAtMost(d, base)
    case Preparing(base, _, _, _, _) => Told(self, s, base) && BasesAtMost(d, base)
    case Uploading(base, _, _, _) => BasesAtMost(d, base)
    case Committing(base, _, _, _, _) => BasesAtMost(d, base)
    case _ => true
  }

  /** Some manifest of the loop at this revision holds these entries. */
  ghost predicate RecordedAt(self: Self, s: Store, revision: nat, entries: seq<Entry>) {
    exists mid :: IsRevision(s, mid, self.loop, revision) && s.manifests[mid].entries == entries
  }

  ghost predicate RecordOk(self: Self, s: Store, d: Daemon) {
    d.baseline.Some? && d.baseline.value.entries.Some?
      && (d.phase.Idle? || d.phase.Head? || d.phase.Reading? || d.phase.Scanning?)
    ==>
      && RecordedAt(self, s, d.baseline.value.revision, d.baseline.value.entries.value)
      && BasesAtMost(d, d.baseline.value.revision - 1)
  }

  ghost predicate TrackOk(self: Self, w: World) {
    && BelowCurrent(self, w.server.store, w.daemon) && ViewsOk(self, w)
    && BaseOk(self, w.server.store, w.daemon) && RecordOk(self, w.server.store, w.daemon)
  }

  /** The server's current manifest of the loop, if the loop still exists, holds
      exactly these entries. */
  ghost predicate Current(self: Self, s: Store, entries: seq<Entry>) {
    self.loop in s.loops ==>
      && s.loops[self.loop].manifestId.Some? && s.loops[self.loop].manifestId.value in s.manifests
      && s.manifests[s.loops[self.loop].manifestId.value].entries == entries
  }

  /** No session can pass a record that every proposal is older than. */
  lemma RecordIsCurrent(self: Self, w: World, revision: nat, entries: seq<Entry>)
    requires StoreOk(w.server.store) && OnlyOurs(self, w)
    requires RecordedAt(self, w.server.store, revision, entries) && BasesAtMost(w.daemon, revision - 1)
    ensures Current(self, w.server.store, entries)
  {
    var s := w.server.store;
    if self.loop in s.loops {
      var mid :| IsRevision(s, mid, self.loop, revision) && s.manifests[mid].entries == entries;
      assert ManifestOk(s, mid) && LoopOk(s, self.loop);
      var n := s.loops[self.loop].manifestRevision;
      if revision < n { PassedIsProposed(self, w, revision); }
      assert SameNumber(s.manifests[mid], s.manifests[s.loops[self.loop].manifestId.value]);
    }
  }

  /** A manifest of revision r + 1 is what this daemon proposed on top of r. */
  lemma NumberedFromWire(self: Self, w: World, mid: ManifestId)
    requires StoreOk(w.server.store) && OnlyOurs(self, w)
    requires mid in w.server.store.manifests && w.server.store.manifests[mid].loopId == self.loop
    ensures
      var m := w.server.store.manifests[mid];
      m.revision >= 1 && OnWire(w.daemon, Payload(self.loop, m.config, m.revision - 1, m.entries))
  {
    hide KeysUnique, ReceiptsUnique, NumbersUnique, RunsOk, BlobsOk, RowsBack, OnWire;
    var s, d := w.server.store, w.daemon;
    assert ManifestOk(s, mid);
    var sid :| sid in s.sessions && s.sessions[sid].receipt.Some? && s.sessions[sid].receipt.value.snapshot == mid;
    assert SessionOk(s, sid);
    assert OurPayload(self, d, s.sessions[sid].payload);
  }

  lemma PassedIsProposed(self: Self, w: World, r: nat)
    requires StoreOk(w.server.store) && OnlyOurs(self, w)
    requires self.loop in w.server.store.loops && r < w.server.store.loops[self.loop].manifestRevision
    ensures !BasesAtMost(w.daemon, r - 1)
  {
    var s := w.server.store;
    assert LoopOk(s, self.loop);
    hide StoreOk, OnlyOurs, ManifestOk;
    assert Numbered(s, self.loop, r + 1);
    var mid :| mid in s.manifests && s.manifests[mid].loopId == self.loop && s.manifests[mid].revision == r + 1;
    NumberedFromWire(self, w, mid);
  }

  // ---- The invariant is kept ----

  lemma StoreMoves(self: Self, s: Store, t: Store, d: Daemon)
    requires Evolves(s, t) && StoreOk(t)
    requires BelowCurrent(self, s, d) && BaseOk(self, s, d) && RecordOk(self, s, d)
    ensures BelowCurrent(self, t, d) && BaseOk(self, t, d) && RecordOk(self, t, d)
  {
    hide StoreOk;
    assert forall r :: Told(self, s, r) ==> Told(self, t, r);
    if d.baseline.Some? && d.baseline.value.entries.Some? {
      var r, es := d.baseline.value.revision, d.baseline.value.entries.value;
      assert RecordedAt(self, s, r, es) ==> RecordedAt(self, t, r, es) by {
        if mid :| IsRevision(s, mid, self.loop, r) && s.manifests[mid].entries == es {
          assert IsRevision(t, mid, self.loop, r) && t.manifests[mid].entries == es;
        }
      }
    }
  }

  /** A view is produced from the loop row as it is at that step. */
  lemma ViewIsCurrent(self: Self, s: Store, op: Op, o: Oracle)
    requires op.call == ReadCall(self) && !op.pc.Done?
    ensures
      var m := Advance(s, op, o);
      && m.store == s
      && (m.op.pc.Done? && m.op.pc.result.Viewed? ==>
            self.loop in s.loops && m.op.pc.result.revision == s.loops[self.loop].manifestRevision)
  {
  }

  /** A reaction sends at most one message, and a proposal only on its round's base. */
  ghost predicate SendsOne(d: Daemon, e: Daemon) {
    && (e.wire == d.wire || (|e.wire| == |d.wire| + 1 && e.wire == d.wire + [e.wire[|d.wire|]]))
    && (e.wire != d.wire && e.wire[|d.wire|].Prepare? ==>
          (d.phase.Scanning? || d.phase.Preparing?) && e.wire[|d.wire|].payload.base == d.phase.base
          && e.phase.Preparing?)
    && (e.phase.Reading? && e.phase != d.phase ==> e.phase.msg == |d.wire|)
  }

  lemma OneMessage(self: Self, d: Daemon, i: Input)
    requires PhaseOk(self, d)
    ensures SendsOne(d, React(self, d, i))
  {
    hide RefusalAction, OnRefused, OnUploads, OnGroup, OnAborted, Retry, Reuses, Worst, GroupsOf;
    RetrySends(self, d);
    if i.Refused? { RefusedSends(self, d, i.status, i.code); }
    UploadingSends(self, d, i);
  }

  lemma RetrySends(self: Self, d: Daemon)
    requires PhaseOk(self, d)
    ensures SendsOne(d, Retry(self, d))
  {
  }

  lemma RefusedSends(self: Self, d: Daemon, status: nat, code: Option<Code>)
    requires PhaseOk(self, d)
    ensures SendsOne(d, OnRefused(self, d, status, code))
  {
    hide RefusalAction, Retry;
    RetrySends(self, d);
  }

  lemma UploadsSend(self: Self, d: Daemon, v: Ending)
    requires d.phase.Uploading?
    ensures SendsOne(d, OnUploads(self, d, v))
  {
    hide RefusalAction;
  }

  lemma UploadingSends(self: Self, d: Daemon, i: Input)
    ensures d.phase.Uploading? && AllSettled(d.phase.groups) ==> SendsOne(d, OnUploads(self, d, Worst(d.phase.groups)))
    ensures SendsOne(d, OnAborted(self, d))
    ensures i.Verified? || i.PutAnswered? || i.PutRefusal? || i.PutLost? ==> SendsOne(d, OnGroup(self, d, i))
  {
    hide OnUploads, Worst;
    if d.phase.Uploading? {
      if AllSettled(d.phase.groups) { UploadsSend(self, d, Worst(d.phase.groups)); }
      UploadsSend(self, d, Worst(Dropping(d.phase.groups)));
    }
  }

  /** What the awaited answer means for base and record. */
  ghost predicate AnswerTells(self: Self, s: Store, d: Daemon, r: Result) {
    && (d.phase.Reading? && r.Viewed? ==> Told(self, s, r.revision) && BasesAtMost(d, r.revision))
    && (d.phase.Committing? && r.Committed? ==>
          r.receipt.revision == d.phase.base + 1 && RecordedAt(self, s, r.receipt.revision, d.phase.entries))
  }

  lemma RecordIsTold(self: Self, s: Store, revision: nat, entries: seq<Entry>)
    requires StoreOk(s) && RecordedAt(self, s, revision, entries)
    ensures Told(self, s, revision)
  {
    var mid :| IsRevision(s, mid, self.loop, revision) && s.manifests[mid].entries == entries;
    assert ManifestOk(s, mid);
  }

  /** How a reaction moves base and record. */
  ghost predicate Moves(self: Self, d: Daemon, i: Input, e: Daemon) {
    && (match e.phase
        case Scanning(base) =>
          || (d.phase.Scanning? && d.phase.base == base)
          || (d.phase.Head? && d.baseline.Some? && d.baseline.value.entries.Some? && d.baseline.value.revision == base)
          || (d.phase.Reading? && i.Answered? && i.result.Viewed? && i.result.revision == base)
        case Preparing(base, _, _, _, _) => (d.phase.Scanning? || d.phase.Preparing?) && d.phase.base == base
        case Uploading(base, _, _, _) => (d.phase.Preparing? || d.phase.Uploading?) && d.phase.base == base
        case Committing(base, _, _, _, _) => (d.phase.Uploading? || d.phase.Committing?) && d.phase.base == base
        case _ => true)
    && (e.baseline.Some? && e.baseline.value.entries.Some? && !e.phase.Preparing? && !e.phase.Uploading?
        && !e.phase.Committing?
        && !e.phase.Reporting? ==>
          || (e.baseline == d.baseline && !d.phase.Preparing? && !d.phase.Uploading? && !d.phase.Committing?
              && !d.phase.Reporting?)
          || (d.phase.Committing? && i.Answered? && i.result.Committed?
              && e.baseline.value.revision == i.result.receipt.revision
              && e.baseline.value.entries.value == d.phase.entries))
  }

  lemma ReactMoves(self: Self, d: Daemon, i: Input)
    requires PhaseOk(self, d)
    ensures Moves(self, d, i, React(self, d, i))
  {
    hide RefusalAction, OnRefused, OnUploads, OnGroup, OnAborted, Retry, Reuses, Worst, GroupsOf;
    RetryMoves(self, d, i);
    if i.Refused? { RefusedMoves(self, d, i); }
    UploadingMoves(self, d, i);
  }

  lemma RetryMoves(self: Self, d: Daemon, i: Input)
    ensures Moves(self, d, i, Retry(self, d))
  {
  }

  lemma RefusedMoves(self: Self, d: Daemon, i: Input)
    requires i.Refused?
    ensures Moves(self, d, i, OnRefused(self, d, i.status, i.code))
  {
    hide RefusalAction, Retry;
    RetryMoves(self, d, i);
  }

  lemma UploadsMove(self: Self, d: Daemon, i: Input, v: Ending)
    requires d.phase.Uploading?
    ensures Moves(self, d, i, OnUploads(self, d, v))
  {
    hide RefusalAction;
  }

  lemma UploadingMoves(self: Self, d: Daemon, i: Input)
    ensures d.phase.Uploading? && AllSettled(d.phase.groups) ==>
      Moves(self, d, i, OnUploads(self, d, Worst(d.phase.groups)))
    ensures Moves(self, d, i, OnAborted(self, d))
    ensures i.Verified? || i.PutAnswered? || i.PutRefusal? || i.PutLost? ==> Moves(self, d, i, OnGroup(self, d, i))
  {
    hide OnUploads, Worst;
    if d.phase.Uploading? {
      if AllSettled(d.phase.groups) { UploadsMove(self, d, i, Worst(d.phase.groups)); }
      UploadsMove(self, d, i, Worst(Dropping(d.phase.groups)));
    }
  }

  lemma ReactTracks(self: Self, s: Store, d: Daemon, i: Input)
    requires StoreOk(s) && PhaseOk(self, d)
    requires BelowCurrent(self, s, d) && BaseOk(self, s, d) && RecordOk(self, s, d)
    requires i.Answered? ==> AnswerTells(self, s, d, i.result)
    ensures var e := React(self, d, i); BelowCurrent(self, s, e) && BaseOk(self, s, e) && RecordOk(self, s, e)
  {
    OneMessage(self, d, i);
    ReactMoves(self, d, i);
    BasesMove(self, s, d, React(self, d, i));
    hide *;
    BaseMoves(self, s, d, i, React(self, d, i));
    RecordMoves(self, s, d, i, React(self, d, i));
  }

  lemma BasesMove(self: Self, s: Store, d: Daemon, e: Daemon)
    requires SendsOne(d, e) && BelowCurrent(self, s, d) && BaseOk(self, s, d)
    ensures BelowCurrent(self, s, e)
  {
  }

  lemma BaseMoves(self: Self, s: Store, d: Daemon, i: Input, e: Daemon)
    requires StoreOk(s) && SendsOne(d, e) && Moves(self, d, i, e)
    requires BaseOk(self, s, d) && RecordOk(self, s, d)
    requires i.Answered? ==> AnswerTells(self, s, d, i.result)
    ensures BaseOk(self, s, e)
  {
    hide StoreOk, RecordedAt, Told;
    if d.phase.Head? && d.baseline.Some? && d.baseline.value.entries.Some? {
      RecordIsTold(self, s, d.baseline.value.revision, d.baseline.value.entries.value);
    }
  }

  lemma RecordMoves(self: Self, s: Store, d: Daemon, i: Input, e: Daemon)
    requires SendsOne(d, e) && Moves(self, d, i, e)
    requires BaseOk(self, s, d) && RecordOk(self, s, d)
    requires i.Answered? ==> AnswerTells(self, s, d, i.result)
    ensures RecordOk(self, s, e)
  {
    hide RecordedAt, Told;
  }

  // ---- One event ----

  lemma LocalTracks(self: Self, w: World, i: Input)
    requires WorldOk(self, w) && TrackOk(self, w)
    requires i.Answered? ==> AnswerTells(self, w.server.store, w.daemon, i.result)
    ensures TrackOk(self, w.(daemon := React(self, w.daemon, i)))
  {
    hide StoreOk, WireOk, BudgetOk, LogOk, Negotiated, OpOk;
    var d, e := w.daemon, React(self, w.daemon, i);
    ReactTracks(self, w.server.store, d, i);
    OneMessage(self, d, i);
    hide React, BelowCurrent, BaseOk, RecordOk, PhaseOk, Told;
    var x := w.(daemon := e);
    forall k | k in x.server.ops ensures FreshView(x, k) {
      assert FreshView(w, k);
    }
  }

  lemma AnswerTellsIt(self: Self, w: World, opId: nat)
    requires WorldOk(self, w) && TrackOk(self, w) && Awaited(w.daemon).Some?
      && IsAnswer(w, opId, Awaited(w.daemon).value)
    ensures AnswerTells(self, w.server.store, w.daemon, w.server.ops[opId].pc.result)
  {
    AnswersFit(self, w, opId);
    InvHasStore(w.server) by { assert Inv(w.server); }
    hide StoreOk, Inv, WireOk, BudgetOk, LogOk, TagsOk, PhaseOk, BelowCurrent, ViewsOk, BaseOk, RecordOk, Negotiated,
         RecordedAt, BasesAtMost;
    if w.daemon.phase.Reading? {
      ViewTells(self, w, opId);
    } else if w.daemon.phase.Committing? && w.server.ops[opId].pc.result.Committed? {
      ReceiptTells(self, w.server.store, w.daemon, w.server.ops[opId].pc.result.receipt);
    }
  }

  lemma ViewTells(self: Self, w: World, opId: nat)
    requires PhaseOk(self, w.daemon) && TagsOk(w) && ViewsOk(self, w)
    requires w.daemon.phase.Reading? && IsAnswer(w, opId, w.daemon.phase.msg)
    ensures AnswerTells(self, w.server.store, w.daemon, w.server.ops[opId].pc.result)
  {
    hide Told, BasesAtMost;
    assert ViewedOk(self, w.server.store, w.server.ops[opId]) && FreshView(w, opId);
  }

  lemma ReceiptTells(self: Self, s: Store, d: Daemon, receipt: Receipt)
    requires StoreOk(s) && Negotiated(self, s, d) && d.phase.Committing?
    requires d.phase.sid in s.sessions && s.sessions[d.phase.sid].receipt == Some(receipt)
    ensures AnswerTells(self, s, d, Committed(receipt))
  {
    ReceiptIsScan(self, s, d, receipt);
    hide StoreOk, Negotiated;
    assert IsRevision(s, receipt.snapshot, self.loop, receipt.revision);
  }

  /** The server moves; the daemon does not. */
  lemma ServerTracks(self: Self, w: World, a: Action)
    requires WorldOk(self, w) && TrackOk(self, w)
    ensures TrackOk(self, w.(server := Act(w.server, a)))
  {
    hide StoreOk, DaemonOk, LogOk, Negotiated, OpOk, Evolves, Advance;
    ActKeeps(w.server, a);
    var x := w.(server := Act(w.server, a));
    StoreMoves(self, w.server.store, x.server.store, w.daemon);
    hide BelowCurrent, BaseOk, RecordOk;
    forall k | k in x.server.ops ensures ViewedOk(self, x.server.store, x.server.ops[k]) && FreshView(x, k) {
      ViewStays(self, w, a, k);
    }
  }

  lemma CallStays(s: Store, op: Op, o: Oracle)
    ensures Advance(s, op, o).op.call == op.call
  {
    hide RowMatches, FoundIsRight, KeyIs;
    match op.call
    case Prepare(_, _, _) => hide AdvancePut, AdvanceCommit, AdvanceOther;
    case Put(_, _, _) => hide AdvancePrepare, AdvanceCommit, AdvanceOther;
    case CommitSync(_, _) => hide AdvancePut, AdvancePrepare, AdvanceOther;
    case _ => hide AdvancePut, AdvanceCommit, AdvancePrepare;
  }

  lemma ViewStays(self: Self, w: World, a: Action, k: nat)
    requires WorldOk(self, w) && TrackOk(self, w) && k in Act(w.server, a).ops
    requires Evolves(w.server.store, Act(w.server, a).store)
    ensures var x := w.(server := Act(w.server, a));
            ViewedOk(self, x.server.store, x.server.ops[k]) && FreshView(x, k)
  {
    hide StoreOk, WireOk, BudgetOk, LogOk, Negotiated, OpOk, Advance, BaseOk, RecordOk;
    var v, x := w.server, w.(server := Act(w.server, a));
    assert forall r :: Told(self, v.store, r) ==> Told(self, x.server.store, r);
    hide Evolves;
    assert k in v.ops ==> ViewedOk(self, v.store, v.ops[k]) && FreshView(w, k);
    if a.Step? && a.opId == k && k in v.ops {
      DoneStays(v.store, v.ops[k], a.o);
      CallStays(v.store, v.ops[k], a.o);
      if v.ops[k].call == ReadCall(self) && !v.ops[k].pc.Done? { ViewIsCurrent(self, v.store, v.ops[k], a.o); }
    }
  }

  lemma NextTracks(self: Self, w: World, e: Event)
    requires WorldOk(self, w) && TrackOk(self, w)
    ensures TrackOk(self, Next(self, w, e))
  {
    hide WorldOk, TrackOk, React;
    match e
    case Serve(a) => ServerTracks(self, w, a);
    case Deliver(msg, opId) =>
      if msg < |w.daemon.wire| && opId !in w.server.ops && Admissible(w.daemon.wire[msg]) {
        DeliverTracks(self, w, msg, opId);
      }
    case Local(i) => if !i.Answered? { LocalTracks(self, w, i); }
    case Reply(opId) =>
      if Awaited(w.daemon).Some? && IsAnswer(w, opId, Awaited(w.daemon).value) {
        AnswerTellsIt(self, w, opId);
        LocalTracks(self, w, Answered(w.server.ops[opId].pc.result));
      }
    case PutReply(g, opId) =>
      if opId in w.server.ops && w.server.ops[opId].pc.Done? {
        LocalTracks(self, w, PutAnswered(g, w.server.ops[opId].pc.result));
      }
    case DirectReply(opId) =>
      if opId in w.server.ops && w.server.ops[opId].pc.Done? {
        LocalTracks(self, w, DirectAnswered(w.server.ops[opId].pc.result));
      }
  }

  lemma DeliverTracks(self: Self, w: World, msg: nat, opId: nat)
    requires WorldOk(self, w) && TrackOk(self, w)
    requires msg < |w.daemon.wire| && opId !in w.server.ops && Admissible(w.daemon.wire[msg])
    ensures TrackOk(self, Next(self, w, Deliver(msg, opId)))
  {
    hide StoreOk, OpOk, Admissible, DaemonOk, LogOk, Negotiated;
    ServerTracks(self, w, Start(opId, w.daemon.wire[msg]));
    var x := w.(server := Act(w.server, Start(opId, w.daemon.wire[msg])));
    hide BelowCurrent, BaseOk, RecordOk;
    var y := Next(self, w, Deliver(msg, opId));
    forall k | k in y.server.ops ensures FreshView(y, k) {
      assert FreshView(x, k);
    }
  }

  lemma {:induction false} RunTracks(self: Self, run: seq<Event>)
    ensures WorldOk(self, After(self, WORLD, run)) && TrackOk(self, After(self, WORLD, run))
  {
    BootOk(self);
    WorldKeeps(self, WORLD, run);
    if run != [] {
      hide WorldOk, TrackOk, Next;
      var most := run[..|run| - 1];
      RunTracks(self, most);
      NextTracks(self, After(self, WORLD, most), run[|run| - 1]);
    }
  }

  /** While every committed session of the loop is this daemon's own, each `unchanged`
      it returns is true of the server at that moment. */
  lemma UnchangedIsTrue(self: Self, run: seq<Event>, e: Event)
    requires OnlyOurs(self, After(self, WORLD, run))
    ensures
      var w := After(self, WORLD, run); var f := Next(self, w, e).daemon;
      |w.daemon.log| < |f.log| && f.log[|w.daemon.log|].Unchanged? ==>
        Current(self, w.server.store, f.log[|w.daemon.log|].entries)
  {
    hide *;
    RunTracks(self, run);
    SuppressedIsCurrent(self, After(self, WORLD, run), e);
  }

  lemma SuppressedIsCurrent(self: Self, w: World, e: Event)
    requires WorldOk(self, w) && TrackOk(self, w) && OnlyOurs(self, w)
    ensures
      var f := Next(self, w, e).daemon;
      |w.daemon.log| < |f.log| && f.log[|w.daemon.log|].Unchanged? ==>
        Current(self, w.server.store, f.log[|w.daemon.log|].entries)
  {
    OutcomeFits(self, w, e);
    hide StoreOk, WireOk, PhaseOk, BudgetOk, LogOk, Negotiated, OpOk, RecordedAt, Current, ViewsOk, BelowCurrent,
         BaseOk, React, OnlyOurs, Act;
    if e.Local? {
      OneOutcome(self, w.daemon, e.input);
      var b := w.daemon.baseline;
      if w.daemon.phase.Scanning? && b.Some? && b.value.entries.Some? {
        RecordIsCurrent(self, w, b.value.revision, b.value.entries.value);
      }
    }
  }

  // ---- A loop with one proposer ----

  /** Nobody but this daemon prepares a session for the loop. */
  predicate Sole(self: Self, e: Event) {
    e.Serve? && e.action.Start? && e.action.call.Prepare? ==> e.action.call.payload.loopId != self.loop
  }

  ghost predicate Ours(self: Self, w: World) {
    && (forall k :: k in w.server.ops ==> OurOp(self, w.daemon, w.server.ops[k].call))
    && (forall sid :: sid in w.server.store.sessions ==>
        OurPayload(self, w.daemon, w.server.store.sessions[sid].payload))
  }

  ghost predicate OurOp(self: Self, d: Daemon, c: Call) { c.Prepare? ==> OurPayload(self, d, c.payload) }

  ghost predicate SessionsFrom(s: Store, t: Store, call: Call) {
    forall sid :: sid in t.sessions ==>
      || (sid in s.sessions && t.sessions[sid].payload == s.sessions[sid].payload)
      || (call.Prepare? && t.sessions[sid].payload == call.payload)
  }

  /** A step adds at most the session of the prepare that makes it. */
  lemma NewSessionIsProposed(s: Store, op: Op, o: Oracle)
    ensures SessionsFrom(s, Advance(s, op, o).store, op.call)
  {
    if op.call.Prepare? { PrepareSessions(s, op, o); }
    else if op.call.CommitSync? { CommitSessionsFrom(s, op, o); }
    else { OtherSessions(s, op, o); }
    hide AdvancePrepare, AdvancePut, AdvanceCommit, AdvanceOther;
  }

  lemma PrepareSessions(s: Store, op: Op, o: Oracle)
    requires op.call.Prepare?
    ensures SessionsFrom(s, AdvancePrepare(s, op, o).store, op.call)
  {
    hide RowMatches, FoundIsRight, KeyIs;
  }

  lemma CommitSessionsFrom(s: Store, op: Op, o: Oracle)
    requires op.call.CommitSync?
    ensures SessionsFrom(s, AdvanceCommit(s, op, o).store, op.call)
  {
    CommitWrites(s, op, o);
    assert AdvanceCommit(s, op, o) == Advance(s, op, o);
    hide AdvanceCommit, Advance;
  }

  lemma OtherSessions(s: Store, op: Op, o: Oracle)
    requires !op.call.Prepare? && !op.call.CommitSync?
    ensures Advance(s, op, o).store.sessions == s.sessions
  {
    if op.call.Put? { hide AdvanceOther; } else { hide AdvancePut; }
  }

  lemma OursStays(self: Self, w: World, a: Action)
    requires Ours(self, w) && (a.Start? ==> OurOp(self, w.daemon, a.call))
    ensures Ours(self, w.(server := Act(w.server, a)))
  {
    hide OurPayload, Advance;
    if a.Step? && a.opId in w.server.ops {
      NewSessionIsProposed(w.server.store, w.server.ops[a.opId], a.o);
      CallStays(w.server.store, w.server.ops[a.opId], a.o);
    }
  }

  lemma OnWireGrows(self: Self, d: Daemon, e: Daemon)
    requires SendsOne(d, e)
    ensures forall p :: OurPayload(self, d, p) ==> OurPayload(self, e, p)
  {
    forall p | OnWire(d, p) ensures OnWire(e, p) {
      var i :| 0 <= i < |d.wire| && d.wire[i].Prepare? && d.wire[i].payload == p;
      assert e.wire[i] == d.wire[i];
    }
  }

  lemma LocalOurs(self: Self, w: World, i: Input)
    requires WorldOk(self, w) && Ours(self, w)
    ensures Ours(self, w.(daemon := React(self, w.daemon, i)))
  {
    OneMessage(self, w.daemon, i);
    OnWireGrows(self, w.daemon, React(self, w.daemon, i));
    hide React, OurPayload, Inv, DaemonOk, LogOk, Negotiated;
  }

  lemma DeliverOurs(self: Self, w: World, msg: nat, opId: nat)
    requires WorldOk(self, w) && Ours(self, w)
    ensures Ours(self, Next(self, w, Deliver(msg, opId)))
  {
    hide Inv, DaemonOk, LogOk, Negotiated, Admissible;
  }

  lemma NextOurs(self: Self, w: World, e: Event)
    requires WorldOk(self, w) && Ours(self, w) && Sole(self, e)
    ensures Ours(self, Next(self, w, e))
  {
    hide WorldOk, React, Admissible;
    match e
    case Serve(a) => OursStays(self, w, a);
    case Deliver(msg, opId) => DeliverOurs(self, w, msg, opId);
    case Local(i) => LocalOurs(self, w, i);
    case Reply(opId) =>
      if opId in w.server.ops && w.server.ops[opId].pc.Done? {
        LocalOurs(self, w, Answered(w.server.ops[opId].pc.result));
      }
    case PutReply(g, opId) =>
      if opId in w.server.ops && w.server.ops[opId].pc.Done? {
        LocalOurs(self, w, PutAnswered(g, w.server.ops[opId].pc.result));
      }
    case DirectReply(opId) =>
      if opId in w.server.ops && w.server.ops[opId].pc.Done? {
        LocalOurs(self, w, DirectAnswered(w.server.ops[opId].pc.result));
      }
  }

  /** The condition holds on every run in which only this daemon proposes. */
  lemma {:induction false} SoleProposer(self: Self, run: seq<Event>)
    requires forall i :: 0 <= i < |run| ==> Sole(self, run[i])
    ensures Ours(self, After(self, WORLD, run)) && OnlyOurs(self, After(self, WORLD, run))
  {
    if run != [] {
      hide WorldOk, Next, OurPayload;
      var most := run[..|run| - 1];
      SoleProposer(self, most);
      RunTracks(self, most);
      NextOurs(self, After(self, WORLD, most), run[|run| - 1]);
    }
  }
}
