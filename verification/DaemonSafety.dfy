/**
 Safety of the daemon over whole runs, with lost, delayed and repeated messages,
 direct baseline reads, cancellations and restarts.
 */
module DaemonSafety {
  import opened Wrappers
  import opened ArtifactStore
  import opened ArtifactServer
  import opened UploadRound
  import opened DaemonSync

  // ---- What the daemon's own state satisfies ----

  ghost predicate Proposed(self: Self, d: Daemon, c: Call) {
    c.Prepare? ==>
      && c.machine == self.machine && c.payload.loopId == self.loop
      && c.requestId in d.minted && d.minted[c.requestId] == c.payload
  }

  ghost predicate WireOk(self: Self, d: Daemon) {
    && (forall i :: 0 <= i < |d.wire| ==> Proposed(self, d, d.wire[i]))
    && (d.pending.Some? ==>
          && d.pending.value.requestId in d.minted && d.minted[d.pending.value.requestId] == d.pending.value.payload)
  }

  function RoundPayload(self: Self, d: Daemon, base: nat, entries: seq<Entry>): Payload {
    Payload(self.loop, d.round.config, base, entries)
  }

  ghost predicate PhaseOk(self: Self, d: Daemon) {
    match d.phase
    case Reading(msg, _) => msg < |d.wire| && d.wire[msg] == ReadCall(self)
    case Preparing(base, entries, p, msg, _) =>
      && msg < |d.wire| && d.wire[msg] == PrepareCall(self, p) && d.round.scanned == Some(entries)
      && p.payload == RoundPayload(self, d, base, entries) && p.payload.loopId == self.loop && d.pending == Some(p)
      && |entries| <= self.limits.files
    case Uploading(_, entries, _, groups) => d.round.scanned == Some(entries) && |groups| <= self.limits.files
    case Committing(_, entries, sid, msg, _) =>
      msg < |d.wire| && d.wire[msg] == CommitSync(self.machine, sid) && d.round.scanned == Some(entries)
    case _ => true
  }

  function Attempts(self: Self): nat { if self.limits.attempts == 0 then 1 else self.limits.attempts }

  /** What one round may spend on PUTs: one group for each file, at most. */
  function PutQuota(self: Self): nat { Attempts(self) * self.limits.files }

  /** Three request operations a round, and its PUTs. */
  function Quota(self: Self, rounds: nat): nat {
    if rounds == 0 then 0 else Quota(self, rounds - 1) + 3 * Attempts(self) + PutQuota(self)
  }

  ghost predicate BudgetOk(self: Self, d: Daemon) {
    var a, puts, r := Attempts(self), PutQuota(self), d.round;
    var quota := Quota(self, r.rounds);
    && r.rounds <= 1 + r.rescans + r.renegotiations
    && r.rescans <= self.limits.rescans && r.renegotiations <= self.limits.renegotiations
    && match d.phase
       case Idle => r.sent <= quota + 1
       case Head => r.sent + 3 * a + puts <= quota
       case Reading(_, k) => k <= a && r.sent + 3 * a + puts <= quota + k
       case Scanning(_) => r.sent + 2 * a + puts <= quota
       case Preparing(_, _, _, _, k) => k <= a && r.sent + 2 * a + puts <= quota + k
       case Uploading(_, _, _, groups) => r.sent + a + PutsLeft(groups, a) <= quota
       case Committing(_, _, _, _, k) => k <= a && r.sent + a <= quota + k
       case Reporting(_) => r.sent <= quota + 1
  }

  ghost predicate DaemonOk(self: Self, d: Daemon) { WireOk(self, d) && PhaseOk(self, d) && BudgetOk(self, d) }

  /** Messages and minted ids are only ever added. */
  ghost predicate Grows(d: Daemon, e: Daemon) {
    && |d.wire| <= |e.wire| && (forall i :: 0 <= i < |d.wire| ==> e.wire[i] == d.wire[i])
    && (forall id :: id in d.minted ==> id in e.minted && e.minted[id] == d.minted[id])
  }

  /** What is left of the budget whatever the phase. */
  ghost predicate Spent(self: Self, d: Daemon) {
    && d.round.rounds <= 1 + d.round.rescans + d.round.renegotiations
    && d.round.rescans <= self.limits.rescans && d.round.renegotiations <= self.limits.renegotiations
    && d.round.sent <= Quota(self, d.round.rounds) + 1
  }

  ghost predicate Reacts(self: Self, d: Daemon, e: Daemon) { DaemonOk(self, e) && Grows(d, e) }

  lemma WithinBudget(self: Self, d: Daemon)
    requires BudgetOk(self, d)
    ensures Spent(self, d)
  {
  }

  lemma EndReacts(self: Self, d: Daemon, o: Outcome)
    requires WireOk(self, d) && Spent(self, d)
    ensures Reacts(self, d, End(d, o))
  {
  }

  lemma HeadReacts(self: Self, d: Daemon)
    requires DaemonOk(self, d) && d.phase.Head?
    ensures Reacts(self, d, OnHead(self, d))
  {
    hide End;
    EndReacts(self, d, Stopped);
  }

  lemma ReportReacts(self: Self, d: Daemon)
    requires WireOk(self, d) && Spent(self, d) && d.round.sent <= Quota(self, d.round.rounds)
    ensures Reacts(self, d, SendReport(self, d))
  {
  }

  lemma ForgetKeeps(self: Self, d: Daemon)
    requires WireOk(self, d) && Spent(self, d)
    ensures WireOk(self, Forget(d)) && Spent(self, Forget(d)) && Grows(d, Forget(d))
  {
  }

  lemma ViewReacts(self: Self, d: Daemon, config: nat, revision: nat, dir: string)
    requires DaemonOk(self, d) && d.phase.Reading?
    ensures Reacts(self, d, OnView(self, d, config, revision, dir))
  {
    WithinBudget(self, d);
    hide End, SendReport, Forget, WireOk;
    ForgetKeeps(self, d);
    EndReacts(self, Forget(d), ConfigChanged);
    var e := d.(baseline := Some(Baseline(config, revision, None)));
    WireFrame(self, d, e);
    WireFrame(self, d, e.(phase := Scanning(revision)));
    ReportReacts(self, e);
  }

  lemma WireFrame(self: Self, d: Daemon, e: Daemon)
    requires WireOk(self, d) && e.wire == d.wire && e.minted == d.minted && e.pending == d.pending
    ensures WireOk(self, e)
  {
    assert forall c :: Proposed(self, d, c) ==> Proposed(self, e, c);
  }

  lemma QuotaStep(self: Self, rounds: nat)
    ensures Quota(self, 0) == 0
    ensures Quota(self, rounds + 1) == Quota(self, rounds) + 3 * Attempts(self) + PutQuota(self)
  {
  }

  ghost predicate InRound(d: Daemon) { d.phase.Preparing? || d.phase.Uploading? || d.phase.Committing? }

  /** A round that is left before its report has spent only its own quota. */
  lemma RoundSpent(self: Self, d: Daemon)
    requires BudgetOk(self, d) && InRound(d)
    ensures Spent(self, d) && d.round.sent <= Quota(self, d.round.rounds)
  {
    hide Quota, PutQuota, PutsLeft;
  }

  lemma RenegotiateReacts(self: Self, d: Daemon)
    requires DaemonOk(self, d) && InRound(d)
    ensures Reacts(self, d, Renegotiate(self, d))
  {
    RoundSpent(self, d);
    QuotaStep(self, d.round.rounds);
    hide End, Quota, PutQuota, WireOk, PutsLeft;
    EndReacts(self, d, Terminal);
    if d.round.renegotiations < self.limits.renegotiations { WireFrame(self, d, Renegotiate(self, d)); }
  }

  lemma ScanAgainReacts(self: Self, d: Daemon)
    requires DaemonOk(self, d) && InRound(d) && d.round.rescans < self.limits.rescans
    ensures Reacts(self, d, ScanAgain(d))
  {
    RoundSpent(self, d);
    QuotaStep(self, d.round.rounds);
    hide Quota, PutQuota, WireOk, PutsLeft;
    WireFrame(self, d, ScanAgain(d));
  }

  lemma CommitReacts(self: Self, d: Daemon)
    requires DaemonOk(self, d) && d.phase.Uploading?
    ensures Reacts(self, d, StartCommit(self, d, d.phase.base, d.phase.entries, d.phase.sid))
  {
  }

  lemma ScannedReacts(self: Self, d: Daemon, entries: seq<Entry>, requestId: RequestId, tooLarge: bool)
    requires DaemonOk(self, d) && d.phase.Scanning? && |entries| <= self.limits.files
    ensures Reacts(self, d, OnScanned(self, d, entries, requestId, tooLarge))
  {
    hide End, SendReport, Quota, WireOk, Propose, Send;
    var c := d.(round := d.round.(scanned := Some(entries)));
    WireFrame(self, d, c);
    WithinBudget(self, c);
    EndReacts(self, c, Unchanged(entries));
    var payload := Payload(self.loop, d.round.config, d.phase.base, entries);
    if Reuses(c, payload) || requestId !in d.minted {
      ProposeKeeps(self, c, payload, requestId);
      var e := Propose(c, payload, requestId);
      assert e.round.config == c.round.config && e.round.scanned == Some(entries) && BudgetOk(self, e);
      hide BudgetOk, PhaseOk;
      ReportReacts(self, e);
      PrepareReacts(self, e, d.phase.base, entries);
    }
  }

  lemma ProposeKeeps(self: Self, d: Daemon, payload: Payload, requestId: RequestId)
    requires WireOk(self, d) && (Reuses(d, payload) || requestId !in d.minted)
    ensures var e := Propose(d, payload, requestId);
            && WireOk(self, e) && Grows(d, e) && e.pending.value.payload == payload && e.wire == d.wire
            && e.phase == d.phase && e.round == d.round.(freshPending := e.round.freshPending)
  {
  }

  lemma PrepareReacts(self: Self, d: Daemon, base: nat, entries: seq<Entry>)
    requires WireOk(self, d) && BudgetOk(self, d) && d.phase.Scanning? && d.pending.Some?
    requires d.pending.value.payload == RoundPayload(self, d, base, entries) && d.round.scanned == Some(entries)
    requires |entries| <= self.limits.files
    ensures Reacts(self, d,
                   Send(d, PrepareCall(self, d.pending.value), Preparing(base, entries, d.pending.value, |d.wire|, 1)))
  {
  }

  /** The awaited request once more, within its attempts. */
  lemma ReadAgainReacts(self: Self, d: Daemon)
    requires DaemonOk(self, d) && d.phase.Reading?
    ensures Reacts(self, d, Retry(self, d))
  {
    hide End, Quota, PutQuota;
    EndReacts(self, d, Unavailable);
  }

  lemma PrepareAgainReacts(self: Self, d: Daemon)
    requires DaemonOk(self, d) && d.phase.Preparing?
    ensures Reacts(self, d, Retry(self, d))
  {
    hide End, Quota, PutQuota;
    EndReacts(self, d, Unavailable);
  }

  lemma CommitAgainReacts(self: Self, d: Daemon)
    requires DaemonOk(self, d) && d.phase.Committing?
    ensures Reacts(self, d, Retry(self, d))
  {
    hide End, Quota, PutQuota;
    EndReacts(self, d, Unavailable);
  }

  lemma RetryReacts(self: Self, d: Daemon)
    requires DaemonOk(self, d)
    ensures Reacts(self, d, Retry(self, d))
  {
    hide DaemonOk, Reacts, End;
    match d.phase
    case Reading(_, _) => ReadAgainReacts(self, d);
    case Preparing(_, _, _, _, _) => PrepareAgainReacts(self, d);
    case Committing(_, _, _, _, _) => CommitAgainReacts(self, d);
    case _ => LeaveReacts(self, d, FailedLocally);
  }

  /** Ending the call, or leaving everything as it is. */
  lemma LeaveReacts(self: Self, d: Daemon, o: Outcome)
    requires DaemonOk(self, d)
    ensures Reacts(self, d, End(d, o)) && Reacts(self, d, d)
  {
    EndReacts(self, d, o);
  }

  lemma RefusedReacts(self: Self, d: Daemon, status: nat, code: Option<Code>)
    requires DaemonOk(self, d)
    ensures Reacts(self, d, OnRefused(self, d, status, code))
  {
    hide End, Renegotiate, Retry, WireOk, PhaseOk, BudgetOk, Forget, RefusalAction;
    WithinBudget(self, d);
    RetryReacts(self, d);
    if d.phase.Preparing? || d.phase.Committing? { RenegotiateReacts(self, d); }
    ForgottenReacts(self, d, ConfigChanged);
    EndReacts(self, d, ConfigChanged);
    EndReacts(self, d, Terminal);
    StopReacts(self, d, true, Stopped);
    StopReacts(self, d, d.stopped || Stopping(status), FailedLocally);
  }

  lemma StopReacts(self: Self, d: Daemon, stopped: bool, o: Outcome)
    requires WireOk(self, d) && Spent(self, d)
    ensures Reacts(self, d, End(d.(stopped := stopped), o))
  {
    EndReacts(self, d.(stopped := stopped), o);
  }

  lemma UploadsReact(self: Self, d: Daemon, v: Ending)
    requires DaemonOk(self, d) && d.phase.Uploading?
    ensures Reacts(self, d, OnUploads(self, d, v))
  {
    RoundSpent(self, d);
    hide End, Renegotiate, ScanAgain, StartCommit, SendReport, Forget, RefusalAction, BudgetOk, PhaseOk, WireOk, Reacts;
    match v
    case Stored => CommitReacts(self, d);
    case FileChanged => if d.round.rescans < self.limits.rescans { ScanAgainReacts(self, d); }
      else { ReportReacts(self, d); }
    case FileUnreadable => ReportReacts(self, d);
    case PutRefused(status, code) => PutRefusedReacts(self, d, status, code);
    case _ => EndReacts(self, d, Unavailable); EndReacts(self, d, Cancelled);
  }

  lemma PutRefusedReacts(self: Self, d: Daemon, status: nat, code: Option<Code>)
    requires DaemonOk(self, d) && d.phase.Uploading?
    ensures Reacts(self, d, OnUploads(self, d, PutRefused(status, code)))
  {
    RoundSpent(self, d);
    hide End, Renegotiate, ScanAgain, StartCommit, SendReport, Forget, RefusalAction, BudgetOk, PhaseOk, WireOk, Reacts;
    if Stopping(status) {
      StopReacts(self, d, true, Stopped);
    } else if code == Some(ConfigConflictCode) {
      ForgottenReacts(self, d, ConfigChanged);
    } else {
      CommitReacts(self, d);
      RenegotiateReacts(self, d);
      if d.round.rescans < self.limits.rescans { ScanAgainReacts(self, d); }
      EndReacts(self, d, Terminal);
    }
  }

  lemma ForgottenReacts(self: Self, d: Daemon, o: Outcome)
    requires WireOk(self, d) && Spent(self, d)
    ensures Reacts(self, d, End(Forget(d), o))
  {
    ForgetKeeps(self, d);
    EndReacts(self, Forget(d), o);
  }

  lemma SettleReacts(self: Self, d: Daemon, g: nat, ending: Ending)
    requires DaemonOk(self, d) && d.phase.Uploading? && g < |d.phase.groups|
    ensures Reacts(self, d, SetUpload(d, g, Settled(ending)))
  {
    hide Quota, PutsLeft;
    LeftAfter(d.phase.groups, g, d.phase.groups[g].(upload := Settled(ending)), Attempts(self));
  }

  lemma PutReacts(self: Self, d: Daemon, g: nat, k: nat)
    requires DaemonOk(self, d) && d.phase.Uploading? && g < |d.phase.groups| && 1 <= k <= Attempts(self)
    requires d.phase.groups[g].upload.Parked?
      || (d.phase.groups[g].upload.Putting? && d.phase.groups[g].upload.attempt + 1 == k)
    ensures Reacts(self, d, SendPut(self, d, g, k))
  {
    hide Quota, PutsLeft;
    LeftAfter(d.phase.groups, g, d.phase.groups[g].(upload := Putting(|d.wire|, k)), Attempts(self));
  }

  lemma GroupReacts(self: Self, d: Daemon, i: Input)
    requires DaemonOk(self, d) && (i.Verified? || i.PutAnswered? || i.PutRefusal? || i.PutLost?)
    ensures Reacts(self, d, OnGroup(self, d, i))
  {
    hide DaemonOk, Reacts, SetUpload, SendPut, End;
    LeaveReacts(self, d, Unavailable);
    if d.phase.Uploading? && i.g < |d.phase.groups| {
      var u := d.phase.groups[i.g].upload;
      if u.Parked? { PutReacts(self, d, i.g, 1); }
      if u.Putting? && u.attempt < self.limits.attempts { PutReacts(self, d, i.g, u.attempt + 1); }
      SettleReacts(self, d, i.g, Exhausted);
      SettleReacts(self, d, i.g, Stored);
      SettleReacts(self, d, i.g, FileChanged);
      SettleReacts(self, d, i.g, FileUnreadable);
      if i.PutRefusal? { SettleReacts(self, d, i.g, PutRefused(i.status, i.code)); }
    }
  }

  lemma AbortReacts(self: Self, d: Daemon)
    requires DaemonOk(self, d)
    ensures Reacts(self, d, OnAborted(self, d))
  {
    hide DaemonOk, Reacts, OnUploads, End;
    LeaveReacts(self, d, Cancelled);
    LeaveReacts(self, d, FailedLocally);
    if d.phase.Uploading? { UploadsReact(self, d, Worst(Dropping(d.phase.groups))); }
  }

  lemma PreparedReacts(self: Self, d: Daemon, sid: SyncId, need: seq<Hash>)
    requires DaemonOk(self, d) && d.phase.Preparing?
    ensures Reacts(self, d, OnPrepared(d, sid, need))
  {
    hide Quota, GroupsOf, PutsLeft;
    var groups := GroupsOf(d.phase.entries, need);
    GroupsAreExact(d.phase.entries, need);
    LeftAtMost(groups, Attempts(self));
    MorePuts(Attempts(self), |groups|, self.limits.files);
  }

  lemma MorePuts(a: nat, m: nat, n: nat)
    requires m <= n
    ensures a * m <= a * n
  {
  }

  lemma AnsweredReacts(self: Self, d: Daemon, r: Result)
    requires DaemonOk(self, d)
    ensures Reacts(self, d, OnAnswered(self, d, r))
  {
    hide End, OnView, OnPrepared, OnCommitted, DaemonOk, Reacts;
    LeaveReacts(self, d, FailedLocally);
    if d.phase.Preparing? && r.Prepared? { PreparedReacts(self, d, r.sid, r.need); }
    if d.phase.Reading? && r.Viewed? { ViewReacts(self, d, r.config, r.revision, r.dir); }
    if d.phase.Committing? && r.Committed? { CommittedReacts(self, d, r.receipt); }
  }

  lemma CommittedReacts(self: Self, d: Daemon, receipt: Receipt)
    requires DaemonOk(self, d) && d.phase.Committing?
    ensures Reacts(self, d, OnCommitted(d, receipt))
  {
    var previous := if d.baseline.Some? then d.baseline.value.revision else 0;
    var record := if receipt.revision == previous + 1 then Some(d.phase.entries) else None;
    EndReacts(self, d.(baseline := Some(Baseline(d.round.config, receipt.revision, record)), pending := None),
              Synced(receipt.snapshot, receipt.revision, d.round.config, d.phase.entries));
  }

  /** What does not resolve an await of the running call. */
  predicate Aside(i: Input) {
    i.StartCall? || i.TurnedAway? || i.DirectSend? || i.DirectAnswered? || i.DirectRefused? || i.ClearStops?
      || i.Restart?
  }

  lemma AsideReacts(self: Self, d: Daemon, i: Input)
    requires DaemonOk(self, d) && Aside(i)
    ensures Reacts(self, d, React(self, d, i))
  {
    hide Quota, PutsLeft, PutQuota;
    if i.StartCall? || i.Restart? { BeginReacts(self, d, i); }
    else if i.DirectSend? { hide PhaseOk, BudgetOk; DirectReacts(self, d); }
    else { hide BudgetOk, WireOk; WireFrame(self, d, React(self, d, i)); SameBudget(self, d, React(self, d, i)); }
  }

  lemma SameBudget(self: Self, d: Daemon, e: Daemon)
    requires BudgetOk(self, d) && e.round == d.round && e.phase == d.phase
    ensures BudgetOk(self, e)
  {
  }

  lemma BeginReacts(self: Self, d: Daemon, i: Input)
    requires DaemonOk(self, d) && (i.StartCall? || i.Restart?)
    ensures Reacts(self, d, React(self, d, i))
  {
    QuotaStep(self, 0);
    hide Quota, PutsLeft, PutQuota, WireOk;
    var e := React(self, d, i);
    if i.StartCall? {
      WireFrame(self, d, e);
    } else {
      WireFrame(self, d, e.(pending := d.pending));
      UnpendedOk(self, e.(pending := d.pending));
    }
  }

  lemma UnpendedOk(self: Self, d: Daemon)
    requires WireOk(self, d)
    ensures WireOk(self, d.(pending := None))
  {
    assert forall c :: Proposed(self, d, c) ==> Proposed(self, d.(pending := None), c);
  }

  lemma DirectReacts(self: Self, d: Daemon)
    requires DaemonOk(self, d)
    ensures Reacts(self, d, React(self, d, DirectSend))
  {
    hide Quota, PutsLeft, PutQuota;
  }

  lemma ReactKeeps(self: Self, d: Daemon, i: Input)
    requires DaemonOk(self, d)
    ensures Reacts(self, d, React(self, d, i))
  {
    hide End, OnHead, OnScanned, OnUploads, OnGroup, OnAborted, OnAnswered, OnRefused, Retry, SendReport, Worst,
         DaemonOk, Reacts, Invalidate;
    LeaveReacts(self, d, Unavailable);
    match i
    case Continue =>
      if d.phase.Head? { HeadReacts(self, d); }
      if d.phase.Uploading? && AllSettled(d.phase.groups) { UploadsReact(self, d, Worst(d.phase.groups)); }
    case ScanFailed => if d.phase.Scanning? { ScanFailedReacts(self, d); }
    case Scanned(entries, requestId, tooLarge) =>
      if d.phase.Scanning? {
        if |entries| <= self.limits.files {
          ScannedReacts(self, d, entries, requestId, tooLarge);
        } else {
          ScanFailedReacts(self, d);
        }
      }
    case Verified(_, _) => GroupReacts(self, d, i);
    case PutAnswered(_, _) => GroupReacts(self, d, i);
    case PutRefusal(_, _, _) => GroupReacts(self, d, i);
    case PutLost(_) => GroupReacts(self, d, i);
    case Answered(r) => AnsweredReacts(self, d, r);
    case Refused(status, code) => RefusedReacts(self, d, status, code);
    case Lost => RetryReacts(self, d);
    case Aborted => AbortReacts(self, d);
    case _ => AsideReacts(self, d, i);
  }

  lemma ScanFailedReacts(self: Self, d: Daemon)
    requires DaemonOk(self, d) && d.phase.Scanning?
    ensures Reacts(self, d, SendReport(self, d))
  {
    hide Quota;
    ReportReacts(self, d);
  }
}
