/**
 What the daemon does with an answer that is lost or refused: which request it sends
 again, which round it starts, which call it ends and how, and what it remembers.
 */
module DaemonRetries {
  import opened Wrappers
  import opened ArtifactStore
  import opened ArtifactServer
  import opened UploadRound
  import opened DaemonSync
  import opened DaemonSafety

  // ---- Losses ----

  /** An answer that did not come, or a refusal that may pass. */
  predicate IsLoss(i: Input) { i.Lost? || (i.Refused? && Transient(i.status)) }

  predicate IsPutLoss(g: nat, i: Input) {
    i == PutLost(g) || (i.PutRefusal? && i.g == g && Transient(i.status))
  }

  /** A request is under way whose answer decides how the round goes on. */
  predicate Asking(d: Daemon) { d.phase.Reading? || d.phase.Preparing? || d.phase.Committing? }

  /** The request under way is on the wire where its answer is awaited. */
  predicate Underway(self: Self, d: Daemon) {
    && Asking(d) && d.phase.msg < |d.wire|
    && d.wire[d.phase.msg] == match d.phase
       case Preparing(_, _, p, _, _) => PrepareCall(self, p)
       case Committing(_, _, sid, _, _) => CommitSync(self.machine, sid)
       case _ => ReadCall(self)
  }

  /** As it is in every state that the daemon can be in. */
  lemma AskingIsUnderway(self: Self, d: Daemon)
    requires DaemonOk(self, d) && Asking(d)
    ensures Underway(self, d)
  {
    hide WireOk, BudgetOk, RoundPayload;
  }

  /** The call is over with this outcome; it sent nothing more. */
  ghost predicate EndsWith(d: Daemon, e: Daemon, o: Outcome) {
    e.phase == Idle && e.log == d.log + [o] && e.wire == d.wire && e.minted == d.minted && e.epoch == d.epoch
  }

  /** No record stands that would spare the next call its read. */
  predicate NoRecord(d: Daemon) { d.baseline.None? || d.baseline.value.entries.None? }

  /** While attempts are left, the very request that was lost is sent again, awaited in its
      place, and nothing else changes; after the last one the call ends as unavailable, and
      the proposal is kept for the next call. */
  lemma LossIsRetried(self: Self, d: Daemon, i: Input)
    requires Underway(self, d) && IsLoss(i)
    ensures
      var e, k := React(self, d, i), d.phase.attempt;
      if k < self.limits.attempts then
        e == d.(wire := d.wire + [d.wire[d.phase.msg]], phase := d.phase.(msg := |d.wire|, attempt := k + 1),
                round := d.round.(sent := d.round.sent + 1))
      else EndsWith(d, e, Unavailable) && NoRecord(e) && e.pending == d.pending && e.stopped == d.stopped
  {
  }

  /** The same for the PUT of one group. */
  lemma PutLossIsRetried(self: Self, d: Daemon, g: nat, i: Input)
    requires d.phase.Uploading? && g < |d.phase.groups| && d.phase.groups[g].upload.Putting? && IsPutLoss(g, i)
    ensures
      var e, groups, k := React(self, d, i), d.phase.groups, d.phase.groups[g].upload.attempt;
      if k < self.limits.attempts then
        e == d.(wire := d.wire + [Put(self.machine, d.phase.sid, groups[g].hash)],
                phase := d.phase.(groups := groups[g := groups[g].(upload := Putting(|d.wire|, k + 1))]),
                round := d.round.(sent := d.round.sent + 1))
      else e == d.(phase := d.phase.(groups := groups[g := groups[g].(upload := Settled(Exhausted))]))
  {
  }

  /** Nothing else ends a call as unavailable: a request, or the PUT of some group, was tried
      as often as allowed. */
  lemma UnavailableIsExhausted(self: Self, d: Daemon, i: Input)
    requires React(self, d, i).log == d.log + [Unavailable]
    ensures
      || (Asking(d) && IsLoss(i) && d.phase.attempt >= self.limits.attempts)
      || (d.phase.Uploading? && exists g :: 0 <= g < |d.phase.groups| && d.phase.groups[g].upload == Settled(Exhausted))
  {
    if d.phase.Uploading? {
      if AllSettled(d.phase.groups) { ExhaustedGroup(d.phase.groups); }
      ExhaustedGroup(Dropping(d.phase.groups));
      UploadsUnavailable(self, d, i);
    } else {
      AskingUnavailable(self, d, i);
    }
    hide React, Worst;
  }

  lemma OneOutcomeMore(log: seq<Outcome>, last: Outcome)
    ensures log + [last] != log
    ensures forall o: Outcome :: log + [o] == log + [last] ==> o == last
  {
    forall o: Outcome | log + [o] == log + [last] ensures o == last { assert (log + [o])[|log|] == o; }
  }

  lemma AskingUnavailable(self: Self, d: Daemon, i: Input)
    requires !d.phase.Uploading? && React(self, d, i).log == d.log + [Unavailable]
    ensures Asking(d) && IsLoss(i) && d.phase.attempt >= self.limits.attempts
  {
    if i.Refused? || i.Lost? { LossUnavailable(self, d, i); } else { NotUnavailable(self, d, i); }
    hide React;
  }

  lemma LossUnavailable(self: Self, d: Daemon, i: Input)
    requires !d.phase.Uploading? && (i.Refused? || i.Lost?) && React(self, d, i).log == d.log + [Unavailable]
    ensures Asking(d) && IsLoss(i) && d.phase.attempt >= self.limits.attempts
  {
    OneOutcomeMore(d.log, Unavailable);
    if Asking(d) && !IsLoss(i) {
      RefusalMeans(self, d, i.status, i.code);
      hide React, NoRecord;
    } else {
      hide RefusalAction, Renegotiate, Forget, Invalidate;
    }
  }

  /** The log is as it was, or ends in another outcome. */
  predicate SaysOther(d: Daemon, e: Daemon) {
    e.log == d.log || (|e.log| > 0 && e.log[|e.log| - 1] != Unavailable)
  }

  lemma NotUnavailable(self: Self, d: Daemon, i: Input)
    requires !d.phase.Uploading? && !i.Refused? && !i.Lost?
    ensures React(self, d, i).log != d.log + [Unavailable]
  {
    OneOutcomeMore(d.log, Unavailable);
    assert (d.log + [Unavailable])[|d.log|] == Unavailable;
    if i.Scanned? && d.phase.Scanning? { ScannedSaysOther(self, d, i.entries, i.requestId, i.tooLarge); }
    else if i.Answered? { AnsweredSaysOther(self, d, i.result); }
    hide GroupsOf, Worst, OnUploads, SetUpload, OnVerified, OnPutRefused, RetryPut, OnRefused, Retry, OnScanned,
         OnAnswered;
    assert SaysOther(d, React(self, d, i));
  }

  lemma ScannedSaysOther(self: Self, d: Daemon, entries: seq<Entry>, requestId: RequestId, tooLarge: bool)
    requires d.phase.Scanning?
    ensures SaysOther(d, OnScanned(self, d, entries, requestId, tooLarge))
  {
    hide Reuses, Propose;
  }

  lemma AnsweredSaysOther(self: Self, d: Daemon, r: Result)
    ensures SaysOther(d, OnAnswered(self, d, r))
  {
    hide GroupsOf;
  }

  lemma UploadsUnavailable(self: Self, d: Daemon, i: Input)
    requires d.phase.Uploading? && React(self, d, i).log == d.log + [Unavailable]
    ensures (AllSettled(d.phase.groups) && Worst(d.phase.groups) == Exhausted)
      || Worst(Dropping(d.phase.groups)) == Exhausted
  {
    hide GroupsOf, Reuses, Propose, Worst, OnUploads, SetUpload, OnVerified;
    OneOutcomeMore(d.log, Unavailable);
    if i.Continue? && AllSettled(d.phase.groups) { VerdictUnavailable(self, d, Worst(d.phase.groups)); }
    if i.Aborted? { VerdictUnavailable(self, d, Worst(Dropping(d.phase.groups))); }
    if i.Verified? || i.PutAnswered? || i.PutRefusal? || i.PutLost? { GroupLogsNothing(self, d, i); }
    hide OnGroup;
  }

  lemma GroupLogsNothing(self: Self, d: Daemon, i: Input)
    requires d.phase.Uploading? && (i.Verified? || i.PutAnswered? || i.PutRefusal? || i.PutLost?)
    ensures OnGroup(self, d, i).log == d.log
  {
  }

  lemma VerdictUnavailable(self: Self, d: Daemon, verdict: Ending)
    requires d.phase.Uploading? && OnUploads(self, d, verdict).log == d.log + [Unavailable]
    ensures verdict == Exhausted
  {
    hide RefusalAction;
    OneOutcomeMore(d.log, Unavailable);
  }

  lemma ExhaustedGroup(groups: seq<Group>)
    requires AllSettled(groups)
    ensures Worst(groups) == Exhausted ==> exists g :: 0 <= g < |groups| && groups[g].upload == Settled(Exhausted)
  {
    WorstIsFirst(groups);
  }

  // ---- Refusals ----

  /** The call starts its next round from the head, with no record to spare the read. */
  ghost predicate NextRound(d: Daemon, e: Daemon) {
    && e.phase == Head && e.log == d.log && e.wire == d.wire && NoRecord(e) && e.stopped == d.stopped
    && e.pending == d.pending && e.round.rounds == d.round.rounds + 1 && e.round.scanned.None?
  }

  /** A round of renegotiation, while the budget lasts; then the call ends. */
  ghost predicate Renegotiates(self: Self, d: Daemon, e: Daemon) {
    if d.round.renegotiations < self.limits.renegotiations
    then NextRound(d, e) && e.round.renegotiations == d.round.renegotiations + 1
    else EndsWith(d, e, Terminal) && NoRecord(e)
  }

  /** Codes after which a new negotiation may succeed. */
  predicate Negotiable(code: Option<Code>) {
    code in {Some(StorageErrorCode), Some(BlobMissingCode), Some(ConfigConflictCode), Some(ManifestConflictCode),
             Some(SessionExpiredCode), Some(HashNotNegotiatedCode)}
  }

  lemma EndMeans(d: Daemon, o: Outcome)
    ensures EndsWith(d, End(d, o), o) && End(d, o).stopped == d.stopped && End(d, o).pending == d.pending
    ensures d.baseline.None? ==> End(d, o).baseline.None?
    ensures !o.Synced? && !o.Unchanged? ==> NoRecord(End(d, o))
  {
  }

  lemma RenegotiateMeans(self: Self, d: Daemon)
    ensures Renegotiates(self, d, Renegotiate(self, d))
  {
  }

  /** A refusal that will not pass. A 401 or 403 ends the call and stops the loop until the
      stop is cleared; a changed configuration ends it and forgets record and proposal; a
      read gives up; a prepare or a commit starts another round when its code allows it (a
      prepare not after 413, a commit also after 404 or when the bytes were wrong). */
  lemma RefusalMeans(self: Self, d: Daemon, status: nat, code: Option<Code>)
    requires Asking(d) && !Transient(status)
    ensures
      var e := React(self, d, Refused(status, code));
      if Stopping(status) then EndsWith(d, e, Stopped) && e.stopped
      else if code == Some(ConfigConflictCode) then
        && EndsWith(d, e, ConfigChanged) && NoRecord(e) && e.stopped == d.stopped
        && ((d.phase.Reading? && d.round.reportOnly) || (e.baseline.None? && e.pending.None?))
      else if d.phase.Preparing? && status != 413 && Negotiable(code) then Renegotiates(self, d, e)
      else if d.phase.Committing? && (status == 404 || Negotiable(code) || code == Some(ContentMismatchCode))
      then Renegotiates(self, d, e)
      else EndsWith(d, e, Terminal) && NoRecord(e) && e.stopped == d.stopped
  {
    EndMeans(d, Terminal);
    EndMeans(d, ConfigChanged);
    EndMeans(Forget(d), ConfigChanged);
    EndMeans(d.(stopped := true), Stopped);
    RenegotiateMeans(self, d);
    hide End, Renegotiate, Renegotiates;
  }

  /** Once stopped, the daemon sends nothing for a call that has no record, and no direct read. */
  lemma StoppedSendsNothing(self: Self, d: Daemon)
    requires d.stopped
    ensures React(self, d, DirectSend) == d
    ensures d.phase.Head? && (d.round.reportOnly || NoRecord(d)) ==>
      EndsWith(d, React(self, d, Continue), Stopped) && React(self, d, Continue).stopped
  {
  }

  /** Nothing but a clearing or a restart takes a stop back. */
  lemma StopStays(self: Self, d: Daemon, i: Input)
    requires d.stopped && !i.ClearStops? && !i.Restart?
    ensures React(self, d, i).stopped
  {
    hide GroupsOf, Reuses, RefusalAction, Worst;
  }

  /** Once the stops are cleared, a call without a record reads again. */
  lemma ClearedReadsAgain(self: Self, d: Daemon)
    requires d.phase.Head? && NoRecord(d)
    ensures
      var e := React(self, React(self, d, ClearStops), Continue);
      && e.wire == d.wire + [ReadCall(self)] && e.phase == Reading(|d.wire|, 1) && !e.stopped && e.log == d.log
      && e.baseline == d.baseline && e.pending == d.pending
  {
  }

  /** A direct read counts as much as a call's own: its view is the base of the next call and
      leaves no record, and a 401 or 403 stops the loop. */
  lemma DirectMeans(self: Self, d: Daemon, config: nat, revision: nat, dir: string, status: nat)
    ensures
      var e := React(self, d, DirectAnswered(Viewed(config, revision, dir)));
      && NoRecord(e) && e.baseline.Some? && e.baseline.value.revision == revision && e.baseline.value.config == config
      && e.phase == d.phase && e.wire == d.wire && e.log == d.log && e.pending == d.pending && e.stopped == d.stopped
    ensures
      var e := React(self, d, DirectRefused(status));
      (Stopping(status) ==> e.stopped) && (!Stopping(status) ==> e == d)
    ensures !d.stopped ==> React(self, d, DirectSend).wire == d.wire + [ReadCall(self)]
  {
  }

  /** What the verdict over the uploads does: the most severe ending decides the call. */
  lemma VerdictMeans(self: Self, d: Daemon, verdict: Ending)
    requires d.phase.Uploading?
    ensures
      var e := OnUploads(self, d, verdict); var canScan := d.round.rescans < self.limits.rescans;
      match verdict
      case Stored => Commits(self, d, e)
      case Exhausted => EndsWith(d, e, Unavailable) && NoRecord(e) && e.pending == d.pending
      case Dropped => EndsWith(d, e, Cancelled) && NoRecord(e)
      case FileUnreadable => Reports(self, d, e)
      case FileChanged => if canScan then ScansAgain(d, e) else Reports(self, d, e)
      case PutRefused(status, code) =>
        if Stopping(status) then EndsWith(d, e, Stopped) && e.stopped
        else if code == Some(ConfigConflictCode) then
          EndsWith(d, e, ConfigChanged) && e.baseline.None? && e.pending.None?
        else if status != 404 && code == Some(SessionCommittedCode) then Commits(self, d, e)
        else if status != 404 && code == Some(ContentMismatchCode) then
          if canScan then ScansAgain(d, e) else EndsWith(d, e, Terminal)
        else if status == 404 || Negotiable(code) then Renegotiates(self, d, e)
        else EndsWith(d, e, Terminal)
  {
    EndMeans(d, Terminal);
    EndMeans(d, Unavailable);
    EndMeans(d, Cancelled);
    EndMeans(Forget(d), ConfigChanged);
    EndMeans(d.(stopped := true), Stopped);
    RenegotiateMeans(self, d);
    ScanAgainMeans(d);
    assert Reports(self, d, SendReport(self, d));
    assert Commits(self, d, StartCommit(self, d, d.phase.base, d.phase.entries, d.phase.sid));
    hide End, Renegotiate, Renegotiates, ScanAgain, ScansAgain, SendReport, Reports, StartCommit, Commits, NoRecord;
  }

  lemma ScanAgainMeans(d: Daemon)
    ensures ScansAgain(d, ScanAgain(d))
  {
  }

  /** The commit of the session goes out and is awaited. */
  ghost predicate Commits(self: Self, d: Daemon, e: Daemon)
    requires d.phase.Uploading?
  {
    && e.wire == d.wire + [CommitSync(self.machine, d.phase.sid)] && e.log == d.log && e.baseline == d.baseline
    && e.phase == Committing(d.phase.base, d.phase.entries, d.phase.sid, |d.wire|, 1)
  }

  /** A local fault is reported against the generation of the call and the last base known. */
  ghost predicate Reports(self: Self, d: Daemon, e: Daemon) {
    var base := if d.baseline.Some? then d.baseline.value.revision else 0;
    && e.wire == d.wire + [ReportError(self.machine, self.loop, d.round.config, base, "local")]
    && e.phase == Reporting(|d.wire|) && e.log == d.log
  }

  ghost predicate ScansAgain(d: Daemon, e: Daemon) {
    NextRound(d, e) && e.round.rescans == d.round.rescans + 1 && e.round.renegotiations == d.round.renegotiations
  }

  /** A scan that fails, or finds more than the policy allows, is reported; and whatever
      becomes of the report, the call then ends as failed locally. */
  lemma LocalFaultIsReported(self: Self, d: Daemon, i: Input)
    ensures
      d.phase.Scanning? && (i.ScanFailed? || (i.Scanned? && |i.entries| > self.limits.files)) ==>
        Reports(self, d, React(self, d, i))
    ensures
      d.phase.Reporting? && (i.Answered? || i.Refused? || i.Lost? || i.Aborted?) ==>
        EndsWith(d, React(self, d, i), FailedLocally)
  {
  }

  /** What a read brings: another configuration or directory than the call was made for ends
      it and forgets record and proposal; else its base is what the round builds on. */
  lemma ViewMeans(self: Self, d: Daemon, config: nat, revision: nat, dir: string)
    requires d.phase.Reading?
    ensures
      var e := React(self, d, Answered(Viewed(config, revision, dir)));
      if config != d.round.config || dir != d.round.dir then
        EndsWith(d, e, ConfigChanged) && e.baseline.None? && e.pending.None?
      else
        && e.baseline == Some(Baseline(config, revision, None)) && e.log == d.log && e.pending == d.pending
        && (if d.round.reportOnly
            then e.wire == d.wire + [ReportError(self.machine, self.loop, config, revision, "local")]
            else e.phase == Scanning(revision) && e.wire == d.wire)
  {
  }

  /** A cancelled call ends at its next await; uploads already settled still have their say. */
  lemma CancelMeans(self: Self, d: Daemon)
    ensures
      var e := React(self, d, Aborted);
      match d.phase
      case Idle => e == d
      case Uploading(_, _, _, groups) => e == OnUploads(self, d, Worst(Dropping(groups)))
      case Reporting(_) => EndsWith(d, e, FailedLocally)
      case _ => EndsWith(d, e, Cancelled) && NoRecord(e)
  {
    hide Worst, OnUploads;
  }
}
