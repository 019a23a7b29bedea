/**
 End to end: what a run of the daemon against the server, over a lossy network,
 can and cannot do.
 */
module DaemonRuns {
  import opened Wrappers
  import opened ArtifactStore
  import opened ArtifactServer
  import opened ArtifactSafety
  import opened UploadRound
  import opened DaemonSync
  import opened DaemonSafety

  ghost predicate SessionFor(self: Self, s: Store, sid: SyncId, payload: Payload) {
    sid in s.sessions && s.sessions[sid].payload == payload && s.sessions[sid].machine == self.machine
  }

  /** The snapshot a `synced` outcome names is a manifest of exactly its entries. */
  ghost predicate SyncedOk(self: Self, s: Store, o: Outcome)
    requires o.Synced?
  {
    && o.snapshot in s.manifests
    && var m := s.manifests[o.snapshot];
       m.machine == self.machine && m.loopId == self.loop && m.config == o.config && m.revision == o.revision
         && m.entries == o.entries
  }

  ghost predicate LogOk(self: Self, s: Store, log: seq<Outcome>) {
    forall i :: 0 <= i < |log| && log[i].Synced? ==> SyncedOk(self, s, log[i])
  }

  ghost predicate Negotiated(self: Self, s: Store, d: Daemon) {
    match d.phase
    case Uploading(base, entries, sid, _) => SessionFor(self, s, sid, RoundPayload(self, d, base, entries))
    case Committing(base, entries, sid, _, _) => SessionFor(self, s, sid, RoundPayload(self, d, base, entries))
    case _ => true
  }

  ghost predicate TagsOk(w: World) {
    forall k :: k in w.tags ==>
      k in w.server.ops && w.tags[k] < |w.daemon.wire| && w.server.ops[k].call == w.daemon.wire[w.tags[k]]
  }

  ghost predicate WorldOk(self: Self, w: World) {
    && Inv(w.server) && DaemonOk(self, w.daemon) && TagsOk(w)
    && Negotiated(self, w.server.store, w.daemon) && LogOk(self, w.server.store, w.daemon.log)
  }

  lemma FactsStable(self: Self, s: Store, t: Store, d: Daemon)
    requires Evolves(s, t) && Negotiated(self, s, d) && LogOk(self, s, d.log)
    ensures Negotiated(self, t, d) && LogOk(self, t, d.log)
  {
  }

  /** A reaction returns at most one outcome, and `synced` only for a receipt. */
  lemma OneOutcome(self: Self, d: Daemon, i: Input)
    ensures
      var e := React(self, d, i);
      || e.log == d.log
      || (|e.log| == |d.log| + 1 && e.log == d.log + [e.log[|d.log|]]
          && (e.log[|d.log|].Synced? ==>
                && i.Answered? && d.phase.Committing? && i.result.Committed?
                && e.log[|d.log|]
                == Synced(i.result.receipt.snapshot, i.result.receipt.revision, d.round.config, d.phase.entries))
          && (e.log[|d.log|].Unchanged? ==>
                && i.Scanned? && d.phase.Scanning? && e.log[|d.log|] == Unchanged(i.entries)
                && d.baseline.Some? && d.baseline.value.entries == Some(i.entries)))
  {
    hide RefusalAction, Reuses, Propose, OnRefused, OnUploads, OnGroup, Retry, Worst;
    RetryPlain(self, d);
    if i.Refused? { RefusedPlain(self, d, i.status, i.code); }
    if d.phase.Uploading? { UploadingPlain(self, d, i); }
    NoGroups(self, d, i);
  }

  lemma NoGroups(self: Self, d: Daemon, i: Input)
    ensures (i.Verified? || i.PutAnswered? || i.PutRefusal? || i.PutLost?) && !d.phase.Uploading? ==>
      OnGroup(self, d, i) == d
  {
  }

  /** No outcome, or one that claims nothing about the server's content. */
  ghost predicate Plain(d: Daemon, e: Daemon) {
    || e.log == d.log
    || (|e.log| == |d.log| + 1 && e.log == d.log + [e.log[|d.log|]] && !e.log[|d.log|].Synced?
        && !e.log[|d.log|].Unchanged?)
  }

  lemma RetryPlain(self: Self, d: Daemon)
    ensures Plain(d, Retry(self, d))
  {
  }

  lemma RefusedPlain(self: Self, d: Daemon, status: nat, code: Option<Code>)
    ensures Plain(d, OnRefused(self, d, status, code))
  {
    hide RefusalAction, Retry;
    RetryPlain(self, d);
  }

  lemma UploadsPlain(self: Self, d: Daemon, v: Ending)
    requires d.phase.Uploading?
    ensures Plain(d, OnUploads(self, d, v))
  {
    hide RefusalAction;
  }

  /** Uploads end a call only through their common verdict. */
  lemma UploadingPlain(self: Self, d: Daemon, i: Input)
    requires d.phase.Uploading?
    ensures AllSettled(d.phase.groups) ==> Plain(d, OnUploads(self, d, Worst(d.phase.groups)))
    ensures Plain(d, OnAborted(self, d))
    ensures i.Verified? || i.PutAnswered? || i.PutRefusal? || i.PutLost? ==> OnGroup(self, d, i).log == d.log
  {
    hide OnUploads, Worst;
    if AllSettled(d.phase.groups) { UploadsPlain(self, d, Worst(d.phase.groups)); }
    UploadsPlain(self, d, Worst(Dropping(d.phase.groups)));
  }

  /** The answer to the awaited message means what the server promises. */
  ghost predicate AnswerFits(self: Self, s: Store, d: Daemon, r: Result) {
    && (d.phase.Preparing? && r.Prepared? ==> SessionFor(self, s, r.sid, d.phase.proposal.payload))
    && (d.phase.Committing? && r.Committed? ==>
          d.phase.sid in s.sessions && s.sessions[d.phase.sid].receipt == Some(r.receipt))
  }

  lemma AnswersFit(self: Self, w: World, opId: nat)
    requires WorldOk(self, w) && Awaited(w.daemon).Some? && IsAnswer(w, opId, Awaited(w.daemon).value)
    ensures AnswerFits(self, w.server.store, w.daemon, w.server.ops[opId].pc.result)
  {
    hide StoreOk, WireOk, BudgetOk, LogOk, Negotiated;
    assert OpOk(w.server.store, w.server.ops[opId]);
  }

  lemma ReceiptIsScan(self: Self, s: Store, d: Daemon, receipt: Receipt)
    requires StoreOk(s) && Negotiated(self, s, d) && d.phase.Committing?
    requires d.phase.sid in s.sessions && s.sessions[d.phase.sid].receipt == Some(receipt)
    ensures SyncedOk(self, s, Synced(receipt.snapshot, receipt.revision, d.round.config, d.phase.entries))
    ensures receipt.revision == d.phase.base + 1
  {
    assert SessionOk(s, d.phase.sid);
  }

  lemma ReactFacts(self: Self, s: Store, d: Daemon, i: Input)
    requires StoreOk(s) && DaemonOk(self, d) && Negotiated(self, s, d) && LogOk(self, s, d.log)
    requires i.Answered? ==> AnswerFits(self, s, d, i.result)
    ensures Negotiated(self, s, React(self, d, i)) && LogOk(self, s, React(self, d, i).log)
  {
    hide StoreOk, WireOk, BudgetOk;
    ReactNegotiated(self, s, d, i);
    OneOutcome(self, d, i);
    var e := React(self, d, i);
    hide React, Negotiated, PhaseOk;
    if i.Answered? && d.phase.Committing? && i.result.Committed? { ReceiptIsScan(self, s, d, i.result.receipt); }
    forall k | 0 <= k < |e.log| && e.log[k].Synced? ensures SyncedOk(self, s, e.log[k]) {
      if k < |d.log| { assert e.log[k] == d.log[k]; }
    }
  }

  lemma ReactNegotiated(self: Self, s: Store, d: Daemon, i: Input)
    requires PhaseOk(self, d) && Negotiated(self, s, d)
    requires i.Answered? ==> AnswerFits(self, s, d, i.result)
    ensures Negotiated(self, s, React(self, d, i))
  {
    hide RefusalAction, Reuses, Propose, OnRefused, OnUploads, OnGroup, OnAborted, Retry, SessionFor, Worst;
    RetryNegotiated(self, s, d);
    if i.Refused? { RefusedNegotiated(self, s, d, i.status, i.code); }
    if d.phase.Uploading? { UploadingNegotiated(self, s, d, i); }
    NoGroups(self, d, i);
    hide GroupsOf;
    if i.Aborted? { AbortNegotiated(self, s, d); }
  }

  lemma RetryNegotiated(self: Self, s: Store, d: Daemon)
    requires Negotiated(self, s, d)
    ensures Negotiated(self, s, Retry(self, d))
  {
    hide SessionFor;
  }

  lemma RefusedNegotiated(self: Self, s: Store, d: Daemon, status: nat, code: Option<Code>)
    requires Negotiated(self, s, d)
    ensures Negotiated(self, s, OnRefused(self, d, status, code))
  {
    hide RefusalAction, SessionFor, Retry;
    RetryNegotiated(self, s, d);
  }

  lemma UploadsNegotiated(self: Self, s: Store, d: Daemon, v: Ending)
    requires Negotiated(self, s, d) && d.phase.Uploading?
    ensures Negotiated(self, s, OnUploads(self, d, v))
  {
    hide RefusalAction, SessionFor;
  }

  lemma UploadingNegotiated(self: Self, s: Store, d: Daemon, i: Input)
    requires Negotiated(self, s, d) && d.phase.Uploading?
    ensures AllSettled(d.phase.groups) ==> Negotiated(self, s, OnUploads(self, d, Worst(d.phase.groups)))
    ensures i.Verified? || i.PutAnswered? || i.PutRefusal? || i.PutLost? ==> Negotiated(self, s, OnGroup(self, d, i))
  {
    hide OnUploads, Worst, SessionFor;
    if AllSettled(d.phase.groups) { UploadsNegotiated(self, s, d, Worst(d.phase.groups)); }
  }

  lemma AbortNegotiated(self: Self, s: Store, d: Daemon)
    requires Negotiated(self, s, d)
    ensures Negotiated(self, s, OnAborted(self, d))
  {
    hide OnUploads, Worst, SessionFor;
    if d.phase.Uploading? { UploadsNegotiated(self, s, d, Worst(Dropping(d.phase.groups))); }
  }

  lemma ServeKeeps(self: Self, w: World, a: Action)
    requires WorldOk(self, w)
    ensures WorldOk(self, Next(self, w, Serve(a))) && Later(w.server, Next(self, w, Serve(a)).server)
  {
    hide Inv, DaemonOk, Negotiated, LogOk, Act;
    ActKeeps(w.server, a);
    FactsStable(self, w.server.store, Act(w.server, a).store, w.daemon);
  }

  lemma DeliverKeeps(self: Self, w: World, msg: nat, opId: nat)
    requires WorldOk(self, w)
    ensures WorldOk(self, Next(self, w, Deliver(msg, opId)))
      && Later(w.server, Next(self, w, Deliver(msg, opId)).server)
  {
    hide Inv, DaemonOk, Negotiated, LogOk, Evolves, Admissible;
    if msg < |w.daemon.wire| && opId !in w.server.ops && Admissible(w.daemon.wire[msg]) {
      ActKeeps(w.server, Start(opId, w.daemon.wire[msg]));
      FactsStable(self, w.server.store, w.server.store, w.daemon);
    } else {
      LaterSelf(w.server);
    }
  }

  lemma LocalKeeps(self: Self, w: World, i: Input)
    requires WorldOk(self, w) && (i.Answered? ==> AnswerFits(self, w.server.store, w.daemon, i.result))
    ensures WorldOk(self, w.(daemon := React(self, w.daemon, i)))
  {
    ReactFacts(self, w.server.store, w.daemon, i) by { InvHasStore(w.server); }
    hide React, StoreOk, WireOk, PhaseOk, BudgetOk, LogOk, Negotiated, AnswerFits;
    ReactKeeps(self, w.daemon, i);
  }

  lemma InvHasStore(v: Server)
    requires Inv(v)
    ensures StoreOk(v.store)
  {
  }

  lemma NextKeeps(self: Self, w: World, e: Event)
    requires WorldOk(self, w)
    ensures WorldOk(self, Next(self, w, e)) && Later(w.server, Next(self, w, e).server)
  {
    LaterSelf(w.server) by { assert Inv(w.server); }
    hide WorldOk, React, Later, AnswerFits;
    match e
    case Serve(a) => ServeKeeps(self, w, a);
    case Deliver(msg, opId) => DeliverKeeps(self, w, msg, opId);
    case Local(i) => if !i.Answered? { LocalKeeps(self, w, i); }
    case Reply(opId) =>
      if Awaited(w.daemon).Some? && IsAnswer(w, opId, Awaited(w.daemon).value) {
        AnswersFit(self, w, opId);
        LocalKeeps(self, w, Answered(w.server.ops[opId].pc.result));
      }
    case PutReply(g, opId) =>
      if opId in w.server.ops && w.server.ops[opId].pc.Done? {
        LocalKeeps(self, w, PutAnswered(g, w.server.ops[opId].pc.result));
      }
    case DirectReply(opId) =>
      if opId in w.server.ops && w.server.ops[opId].pc.Done? {
        LocalKeeps(self, w, DirectAnswered(w.server.ops[opId].pc.result));
      }
  }

  lemma BootOk(self: Self)
    ensures WorldOk(self, WORLD)
  {
    EmptyOk();
  }

  lemma {:induction false} WorldKeeps(self: Self, w: World, run: seq<Event>)
    requires WorldOk(self, w)
    ensures WorldOk(self, After(self, w, run)) && Later(w.server, After(self, w, run).server)
  {
    if run == [] {
      LaterSelf(w.server);
    } else {
      hide WorldOk, Later, Next;
      WorldKeeps(self, w, run[..|run| - 1]);
      NextKeeps(self, After(self, w, run[..|run| - 1]), run[|run| - 1]);
      LaterTransitive(w.server, After(self, w, run[..|run| - 1]).server, After(self, w, run).server);
    }
  }

  // ---- Theorems that hold whoever else writes ----

  /** A request id is only ever sent with one payload. */
  lemma OnePayloadPerRequest(self: Self, run: seq<Event>, i: nat, j: nat)
    requires i < |After(self, WORLD, run).daemon.wire| && j < |After(self, WORLD, run).daemon.wire|
    requires After(self, WORLD, run).daemon.wire[i].Prepare? && After(self, WORLD, run).daemon.wire[j].Prepare?
    requires After(self, WORLD, run).daemon.wire[i].requestId == After(self, WORLD, run).daemon.wire[j].requestId
    ensures After(self, WORLD, run).daemon.wire[i].payload == After(self, WORLD, run).daemon.wire[j].payload
  {
    BootOk(self);
    WorldKeeps(self, WORLD, run);
    hide After;
    var d := After(self, WORLD, run).daemon;
    assert Proposed(self, d, d.wire[i]) && Proposed(self, d, d.wire[j]);
  }

  /** Whatever happens afterwards, a `synced` outcome names a manifest of this
      loop that holds exactly the entries and revision it reported. */
  lemma SyncedNamesItsManifest(self: Self, run: seq<Event>, more: seq<Event>, i: nat)
    requires i < |After(self, WORLD, run).daemon.log| && After(self, WORLD, run).daemon.log[i].Synced?
    ensures SyncedOk(self, After(self, After(self, WORLD, run), more).server.store,
                     After(self, WORLD, run).daemon.log[i])
  {
    BootOk(self);
    WorldKeeps(self, WORLD, run);
    var w := After(self, WORLD, run);
    WorldKeeps(self, w, more);
    hide After, Inv, DaemonOk;
    assert SyncedOk(self, w.server.store, w.daemon.log[i]);
  }

  /** The entries a `synced` or `unchanged` outcome stands for are those scanned
      in the very round that returns it. */
  lemma OutcomeIsThisRoundsScan(self: Self, run: seq<Event>, e: Event)
    ensures
      var d := After(self, WORLD, run).daemon; var f := Next(self, After(self, WORLD, run), e).daemon;
      |d.log| < |f.log| ==>
        var o := f.log[|d.log|];
        && |f.log| == |d.log| + 1
        && (o.Synced? ==> d.phase.Committing? && d.round.scanned == Some(o.entries))
        && (o.Unchanged? ==> e.Local? && e.input.Scanned? && o.entries == e.input.entries)
  {
    hide *;
    BootOk(self);
    WorldKeeps(self, WORLD, run);
    OutcomeFits(self, After(self, WORLD, run), e);
  }

  lemma OutcomeFits(self: Self, w: World, e: Event)
    requires WorldOk(self, w)
    ensures
      var d := w.daemon; var f := Next(self, w, e).daemon;
      |d.log| < |f.log| ==>
        var o := f.log[|d.log|];
        && |f.log| == |d.log| + 1
        && (o.Synced? ==> d.phase.Committing? && d.round.scanned == Some(o.entries))
        && (o.Unchanged? ==> e.Local? && e.input.Scanned? && o.entries == e.input.entries)
  {
    hide Inv, WireOk, BudgetOk, LogOk, Negotiated, TagsOk, React, Admissible, Act;
    match e
    case Local(i) => OneOutcome(self, w.daemon, i);
    case Reply(opId) =>
      if opId in w.server.ops && w.server.ops[opId].pc.Done? {
        OneOutcome(self, w.daemon, Answered(w.server.ops[opId].pc.result));
      }
    case PutReply(g, opId) =>
      if opId in w.server.ops && w.server.ops[opId].pc.Done? {
        OneOutcome(self, w.daemon, PutAnswered(g, w.server.ops[opId].pc.result));
      }
    case DirectReply(opId) =>
      if opId in w.server.ops && w.server.ops[opId].pc.Done? {
        OneOutcome(self, w.daemon, DirectAnswered(w.server.ops[opId].pc.result));
      }
    case _ =>
  }
}
