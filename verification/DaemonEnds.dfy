/**
 Every call is bounded and ends, whatever its awaits resolve to: `Feed` is the
 daemon after any inputs at all.
 */
module DaemonEnds {
  import opened Wrappers
  import opened ArtifactStore
  import opened ArtifactServer
  import opened UploadRound
  import opened DaemonSync
  import opened DaemonSafety

  function Feed(self: Self, d: Daemon, inputs: seq<Input>): Daemon
    decreases |inputs|
  {
    if inputs == [] then d else Feed(self, React(self, d, inputs[0]), inputs[1..])
  }

  /** No input of the sequence starts another call or restarts the process. */
  predicate WithinCall(inputs: seq<Input>) {
    forall i :: 0 <= i < |inputs| ==> !inputs[i].StartCall? && !inputs[i].Restart?
  }

  // ---- What a call sends ----

  /** Direct baseline reads are not part of a call. */
  function DirectSends(inputs: seq<Input>): nat
    decreases |inputs|
  {
    if inputs == [] then 0 else (if inputs[0].DirectSend? then 1 else 0) + DirectSends(inputs[1..])
  }

  ghost predicate Counted(d: Daemon, e: Daemon, direct: nat) {
    && d.round.sent <= e.round.sent
    && |e.wire| <= |d.wire| + (e.round.sent - d.round.sent) + direct
  }

  /** Every message of the call is counted. */
  lemma SendCounts(self: Self, d: Daemon, i: Input)
    requires !i.StartCall? && !i.Restart?
    ensures Counted(d, React(self, d, i), if i.DirectSend? then 1 else 0)
  {
    hide Reuses, OnRefused, OnUploads, OnGroup, OnScanned, Retry, Worst, PrepareCall, ReadCall, GroupsOf;
    if i.Scanned? && d.phase.Scanning? { ScannedCounts(self, d, i.entries, i.requestId, i.tooLarge); }
    RetryCounts(self, d);
    if i.Refused? { RefusedCounts(self, d, i.status, i.code); }
    if i.Verified? || i.PutAnswered? || i.PutRefusal? || i.PutLost? { GroupCounts(self, d, i); }
    if d.phase.Uploading? && i.Aborted? { UploadsCount(self, d, Worst(Dropping(d.phase.groups))); }
    if d.phase.Uploading? && i.Continue? && AllSettled(d.phase.groups) { UploadsCount(self, d, Worst(d.phase.groups)); }
  }

  lemma RetryCounts(self: Self, d: Daemon)
    ensures Counted(d, Retry(self, d), 0)
  {
  }

  lemma RefusedCounts(self: Self, d: Daemon, status: nat, code: Option<Code>)
    ensures Counted(d, OnRefused(self, d, status, code), 0)
  {
    hide RefusalAction, Retry;
    RetryCounts(self, d);
  }

  lemma ScannedCounts(self: Self, d: Daemon, entries: seq<Entry>, requestId: RequestId, tooLarge: bool)
    requires d.phase.Scanning?
    ensures Counted(d, OnScanned(self, d, entries, requestId, tooLarge), 0)
  {
    hide Reuses, PrepareCall;
  }

  lemma GroupCounts(self: Self, d: Daemon, i: Input)
    requires i.Verified? || i.PutAnswered? || i.PutRefusal? || i.PutLost?
    ensures Counted(d, OnGroup(self, d, i), 0)
  {
  }

  lemma UploadsCount(self: Self, d: Daemon, v: Ending)
    requires d.phase.Uploading?
    ensures Counted(d, OnUploads(self, d, v), 0)
  {
    hide RefusalAction;
  }

  lemma {:induction false} FeedCounts(self: Self, d: Daemon, inputs: seq<Input>)
    requires DaemonOk(self, d) && WithinCall(inputs)
    ensures DaemonOk(self, Feed(self, d, inputs)) && Counted(d, Feed(self, d, inputs), DirectSends(inputs))
    decreases |inputs|
  {
    hide React, DaemonOk;
    if inputs != [] {
      SendCounts(self, d, inputs[0]);
      ReactKeeps(self, d, inputs[0]);
      FeedCounts(self, React(self, d, inputs[0]), inputs[1..]);
    }
  }

  function MostRounds(self: Self): nat { 1 + self.limits.rescans + self.limits.renegotiations }

  lemma {:induction false} QuotaAtMost(self: Self, rounds: nat, most: nat)
    requires rounds <= most
    ensures Quota(self, rounds) <= most * (3 * Attempts(self) + PutQuota(self))
  {
    hide PutQuota, Attempts;
    var each := 3 * Attempts(self) + PutQuota(self);
    if rounds > 0 {
      QuotaAtMost(self, rounds - 1, most - 1);
      assert (most - 1) * each + each == most * each;
    } else {
      assert 0 <= most * each;
    }
  }

  /** What one call may send: for each round three requests and one PUT for each file,
      each at most `attempts` times, and one report. */
  function MostSends(self: Self): nat {
    var a := Attempts(self);
    MostRounds(self) * (3 * a + a * self.limits.files) + 1
  }

  lemma WithinMost(self: Self, d: Daemon)
    requires DaemonOk(self, d)
    ensures d.round.rounds <= MostRounds(self) && d.round.sent <= MostSends(self)
  {
    WithinBudget(self, d);
    assert d.round.rounds <= MostRounds(self);
    QuotaAtMost(self, d.round.rounds, MostRounds(self));
  }

  /** A call takes at most 1 + rescans + renegotiations rounds, and sends at most three
      requests a round and one PUT for each file, each at most `attempts` times, and one
      report. */
  lemma CallsAreBounded(self: Self, d: Daemon, start: Input, inputs: seq<Input>)
    requires DaemonOk(self, d) && d.phase.Idle? && start.StartCall? && WithinCall(inputs)
    ensures
      var e := Feed(self, React(self, d, start), inputs);
      && e.round.rounds <= MostRounds(self)
      && |e.wire| <= |d.wire| + MostSends(self) + DirectSends(inputs)
  {
    var b := React(self, d, start);
    assert b.wire == d.wire && b.round.sent == 0;
    ReactKeeps(self, d, start);
    FeedCounts(self, b, inputs);
    hide React, DaemonOk, MostSends;
    WithinMost(self, Feed(self, b, inputs));
  }

  // ---- A call ends ----

  /** What uploading can take: for each file its attempts and its verification. */
  function UploadWork(self: Self): nat { (Attempts(self) + 1) * self.limits.files }

  function Left(self: Self, k: nat): nat { if k <= Attempts(self) then Attempts(self) - k else 0 }

  /** How many resolved awaits the current round can still take. */
  function RoundFuel(self: Self, p: Phase): nat {
    var a, u := Attempts(self), UploadWork(self);
    match p
    case Idle => 0
    case Reporting(_) => 1
    case Committing(_, _, _, _, k) => 2 + Left(self, k)
    case Uploading(_, _, _, groups) => 3 + a + WorkLeft(groups, a)
    case Preparing(_, _, _, _, k) => 4 + a + u + Left(self, k)
    case Scanning(_) => 5 + 2 * a + u
    case Reading(_, k) => 6 + 2 * a + u + Left(self, k)
    case Head => 7 + 3 * a + u
  }

  function PerRound(self: Self): nat { 8 + 3 * Attempts(self) + UploadWork(self) }

  function Times(n: nat, per: nat): nat { if n == 0 then 0 else Times(n - 1, per) + per }

  function RoundsLeft(self: Self, r: Round): nat {
    (if r.rescans <= self.limits.rescans then self.limits.rescans - r.rescans else 0)
    + (if r.renegotiations <= self.limits.renegotiations then self.limits.renegotiations - r.renegotiations else 0)
  }

  /** How many resolved awaits the call can still take. */
  function Fuel(self: Self, d: Daemon): nat {
    if d.phase.Idle? then 0 else Times(RoundsLeft(self, d.round), PerRound(self)) + RoundFuel(self, d.phase)
  }

  ghost predicate Burns(self: Self, d: Daemon, e: Daemon) {
    if e.phase == d.phase then Fuel(self, e) == Fuel(self, d) else Fuel(self, e) < Fuel(self, d)
  }

  /** The same round, further on. */
  lemma FurtherBurns(self: Self, d: Daemon, e: Daemon)
    requires !d.phase.Idle? && RoundsLeft(self, e.round) == RoundsLeft(self, d.round)
    requires e.phase.Idle? || e.phase == d.phase || RoundFuel(self, e.phase) < RoundFuel(self, d.phase)
    ensures Burns(self, d, e)
  {
    hide Times, PerRound, RoundsLeft;
    if e.phase.Idle? { assert 0 < RoundFuel(self, d.phase); }
  }

  /** One round less. */
  lemma NextRoundBurns(self: Self, d: Daemon, e: Daemon)
    requires InRound(d) && e.phase.Head? && RoundsLeft(self, e.round) + 1 == RoundsLeft(self, d.round)
    ensures Burns(self, d, e)
  {
    hide PerRound, RoundsLeft, UploadWork, Attempts;
    assert RoundFuel(self, e.phase) < PerRound(self) by { HeadFuel(self); }
  }

  lemma HeadFuel(self: Self)
    ensures RoundFuel(self, Head) < PerRound(self)
  {
  }

  /** Where the verdict on the uploads can lead. */
  ghost predicate AfterUploads(self: Self, d: Daemon, e: Daemon) {
    || e.phase.Idle?
    || ((e.phase.Reporting? || e.phase.Committing?) && RoundsLeft(self, e.round) == RoundsLeft(self, d.round))
    || (e.phase.Head? && RoundsLeft(self, e.round) + 1 == RoundsLeft(self, d.round))
  }

  lemma UploadsLead(self: Self, d: Daemon, v: Ending)
    requires d.phase.Uploading?
    ensures AfterUploads(self, d, OnUploads(self, d, v))
  {
    hide RefusalAction, End, SendReport, StartCommit, Renegotiate, ScanAgain, Forget, RoundsLeft;
    RoundLeads(self, d);
    EndIdle(d, Terminal);
    EndIdle(d, Unavailable);
    EndIdle(d, Cancelled);
    EndIdle(d.(stopped := true), Stopped);
    EndIdle(Forget(d), ConfigChanged);
  }

  lemma EndIdle(d: Daemon, o: Outcome)
    ensures End(d, o).phase.Idle?
  {
  }

  lemma RoundLeads(self: Self, d: Daemon)
    requires d.phase.Uploading?
    ensures AfterUploads(self, d, SendReport(self, d)) && AfterUploads(self, d, Renegotiate(self, d))
    ensures AfterUploads(self, d, StartCommit(self, d, d.phase.base, d.phase.entries, d.phase.sid))
    ensures d.round.rescans < self.limits.rescans ==> AfterUploads(self, d, ScanAgain(d))
  {
  }

  lemma UploadsBurn(self: Self, d: Daemon, v: Ending)
    requires d.phase.Uploading?
    ensures Burns(self, d, OnUploads(self, d, v))
  {
    UploadsLead(self, d, v);
    var e := OnUploads(self, d, v);
    hide OnUploads, Times, PerRound, UploadWork, Burns, WorkLeft, RoundsLeft;
    if e.phase.Head? { NextRoundBurns(self, d, e); } else { FurtherBurns(self, d, e); }
  }

  lemma GroupBurns(self: Self, d: Daemon, i: Input)
    requires DaemonOk(self, d) && (i.Verified? || i.PutAnswered? || i.PutRefusal? || i.PutLost?)
    ensures Burns(self, d, OnGroup(self, d, i))
  {
    hide Times, PerRound, UploadWork, WireOk, PhaseOk, Burns, PutsLeft, WorkLeft, Quota, PutQuota;
    var e := OnGroup(self, d, i);
    if d.phase.Uploading? && i.g < |d.phase.groups| {
      LeftAfter(d.phase.groups, i.g, e.phase.groups[i.g], Attempts(self));
      assert e.phase.groups == d.phase.groups[i.g := e.phase.groups[i.g]];
      FurtherBurns(self, d, e);
    } else {
      SameBurns(self, d);
    }
  }

  lemma SameBurns(self: Self, d: Daemon)
    ensures Burns(self, d, d)
  {
  }

  lemma RetryBurns(self: Self, d: Daemon)
    requires DaemonOk(self, d)
    ensures Burns(self, d, Retry(self, d))
  {
    hide Times, PerRound, UploadWork, WireOk, PhaseOk, Burns, PutsLeft, WorkLeft, Quota, PutQuota;
    SameBurns(self, d);
    if !d.phase.Idle? { FurtherBurns(self, d, Retry(self, d)); }
  }

  lemma RefusedBurns(self: Self, d: Daemon, status: nat, code: Option<Code>)
    requires DaemonOk(self, d)
    ensures Burns(self, d, OnRefused(self, d, status, code))
  {
    hide RefusalAction, Times, PerRound, UploadWork, WireOk, PhaseOk, Burns, PutsLeft, WorkLeft, Quota, PutQuota, Retry;
    SameBurns(self, d);
    RetryBurns(self, d);
    if !d.phase.Idle? && !(Transient(status) && !d.phase.Reporting?) {
      var e := OnRefused(self, d, status, code);
      if e.phase.Head? && e.phase != d.phase { NextRoundBurns(self, d, e); } else { FurtherBurns(self, d, e); }
    }
  }

  lemma PreparedBurns(self: Self, d: Daemon, sid: SyncId, need: seq<Hash>)
    requires DaemonOk(self, d) && d.phase.Preparing?
    ensures Burns(self, d, OnPrepared(d, sid, need))
  {
    hide Times, PerRound, WireOk, Burns, PutsLeft, WorkLeft, GroupsOf, Quota, PutQuota;
    var groups := GroupsOf(d.phase.entries, need);
    GroupsAreExact(d.phase.entries, need);
    LeftAtMost(groups, Attempts(self));
    MorePuts(Attempts(self) + 1, |groups|, self.limits.files);
    FurtherBurns(self, d, OnPrepared(d, sid, need));
  }

  lemma AnsweredBurns(self: Self, d: Daemon, r: Result)
    requires DaemonOk(self, d)
    ensures Burns(self, d, OnAnswered(self, d, r))
  {
    hide Times, PerRound, WireOk, PhaseOk, Burns, WorkLeft, OnPrepared, Quota, PutQuota;
    SameBurns(self, d);
    if d.phase.Preparing? {
      if r.Prepared? { PreparedBurns(self, d, r.sid, r.need); }
    } else if !d.phase.Idle? {
      FurtherBurns(self, d, OnAnswered(self, d, r));
    }
  }

  lemma ScannedBurns(self: Self, d: Daemon, i: Input)
    requires DaemonOk(self, d) && d.phase.Scanning? && i.Scanned?
    ensures Burns(self, d, React(self, d, i))
  {
    hide Times, PerRound, DaemonOk, Burns, WorkLeft, UploadWork, Reuses, Propose;
    var c := d.(round := d.round.(scanned := Some(i.entries)));
    ProposeKeepsRounds(c, Payload(self.loop, d.round.config, d.phase.base, i.entries), i.requestId);
    hide PhaseOk, BudgetOk, Invalidate;
    FurtherBurns(self, d, React(self, d, i));
  }

  lemma ProposeKeepsRounds(d: Daemon, payload: Payload, requestId: RequestId)
    ensures var r := Propose(d, payload, requestId).round;
            r.rescans == d.round.rescans && r.renegotiations == d.round.renegotiations && r.sent == d.round.sent
  {
  }

  /** Whatever an await of the call resolves to, it moves the call on or changes nothing
      of it. */
  lemma ReactBurns(self: Self, d: Daemon, i: Input)
    requires DaemonOk(self, d) && !i.StartCall?
    ensures Burns(self, d, React(self, d, i))
  {
    hide Times, PerRound, DaemonOk, Burns, WorkLeft, OnAnswered, OnRefused, Retry, OnUploads, OnGroup, Worst, OnScanned;
    SameBurns(self, d);
    match i
    case Continue =>
      if d.phase.Uploading? && AllSettled(d.phase.groups) { UploadsBurn(self, d, Worst(d.phase.groups)); }
      if d.phase.Head? { FurtherBurns(self, d, React(self, d, i)); }
    case ScanFailed => if d.phase.Scanning? { FurtherBurns(self, d, React(self, d, i)); }
    case Scanned(_, _, _) => if d.phase.Scanning? { ScannedBurns(self, d, i); }
    case Verified(_, _) => GroupBurns(self, d, i);
    case PutAnswered(_, _) => GroupBurns(self, d, i);
    case PutRefusal(_, _, _) => GroupBurns(self, d, i);
    case PutLost(_) => GroupBurns(self, d, i);
    case Answered(r) => AnsweredBurns(self, d, r);
    case Refused(status, code) => RefusedBurns(self, d, status, code);
    case Lost => RetryBurns(self, d);
    case Aborted =>
      if d.phase.Uploading? { UploadsBurn(self, d, Worst(Dropping(d.phase.groups))); }
      else if !d.phase.Idle? { FurtherBurns(self, d, React(self, d, i)); }
    case _ => AsideBurns(self, d, i);
  }

  lemma AsideBurns(self: Self, d: Daemon, i: Input)
    requires Aside(i) && !i.StartCall?
    ensures Burns(self, d, React(self, d, i))
  {
    hide Times, PerRound;
    if !d.phase.Idle? { assert 0 < RoundFuel(self, d.phase); }
  }

  /** How many of the inputs moved the call on. */
  function Progress(self: Self, d: Daemon, inputs: seq<Input>): nat
    decreases |inputs|
  {
    if inputs == [] then 0
    else
      var e := React(self, d, inputs[0]);
      (if e.phase != d.phase then 1 else 0) + Progress(self, e, inputs[1..])
  }

  /** No call goes on for ever: between two starts of a call at most `Fuel` inputs move
      the daemon, however many arrive. */
  lemma {:induction false} CallsEnd(self: Self, d: Daemon, inputs: seq<Input>)
    requires DaemonOk(self, d) && forall i :: 0 <= i < |inputs| ==> !inputs[i].StartCall?
    ensures Progress(self, d, inputs) + Fuel(self, Feed(self, d, inputs)) <= Fuel(self, d)
    decreases |inputs|
  {
    hide React, DaemonOk, Fuel;
    if inputs != [] {
      ReactBurns(self, d, inputs[0]);
      ReactKeeps(self, d, inputs[0]);
      CallsEnd(self, React(self, d, inputs[0]), inputs[1..]);
    }
  }

  /** The input is one that the await of the running call can resolve to. */
  predicate Resolves(d: Daemon, i: Input) {
    match d.phase
    case Idle => false
    case Head => i.Continue? || i.Aborted?
    case Reading(_, _) => i.Lost? || i.Refused? || i.Aborted? || (i.Answered? && i.result.Viewed?)
    case Scanning(_) => i.ScanFailed? || i.Aborted? || (i.Scanned? && i.requestId !in d.minted)
    case Preparing(_, _, _, _, _) => i.Lost? || i.Refused? || i.Aborted? || (i.Answered? && i.result.Prepared?)
    case Uploading(_, _, _, groups) =>
      || i.Aborted?
      || (i.Continue? && AllSettled(groups))
      || (i.Verified? && i.g < |groups| && groups[i.g].upload.Parked?)
      || ((i.PutLost? || i.PutRefusal? || (i.PutAnswered? && i.result.Uploaded?)) && i.g < |groups|
          && groups[i.g].upload.Putting?)
    case Committing(_, _, _, _, _) => i.Lost? || i.Refused? || i.Aborted? || (i.Answered? && i.result.Committed?)
    case Reporting(_) => i.Lost? || i.Refused? || i.Aborted? || i.Answered?
  }

  /** A call that has not ended awaits something, and each way its await can resolve
      moves it on. */
  lemma NeverStuck(self: Self, d: Daemon, i: Input)
    requires DaemonOk(self, d)
    ensures !d.phase.Idle? ==> exists j :: Resolves(d, j)
    ensures Resolves(d, i) ==> React(self, d, i).phase != d.phase
  {
    if !d.phase.Idle? { assert Resolves(d, Aborted); }
    hide DaemonOk, OnPrepared, OnRefused, Retry, OnUploads, OnGroup, Worst, OnScanned;
    if !Resolves(d, i) {
    } else if d.phase.Uploading? {
      UploadingMoves(self, d, i);
    } else if i.Refused? {
      RefusedMoves(self, d, i.status, i.code);
    } else if i.Lost? {
      RetryMoves(self, d);
    } else if d.phase.Scanning? && i.Scanned? {
      ScannedMoves(self, d, i.entries, i.requestId, i.tooLarge);
    } else if d.phase.Preparing? && i.Answered? && i.result.Prepared? {
      assert OnPrepared(d, i.result.sid, i.result.need).phase != d.phase by {
        PreparedMoves(d, i.result.sid, i.result.need);
      }
    }
  }

  lemma PreparedMoves(d: Daemon, sid: SyncId, need: seq<Hash>)
    requires d.phase.Preparing?
    ensures OnPrepared(d, sid, need).phase != d.phase
  {
  }

  lemma ScannedMoves(self: Self, d: Daemon, entries: seq<Entry>, requestId: RequestId, tooLarge: bool)
    requires d.phase.Scanning? && requestId !in d.minted
    ensures !OnScanned(self, d, entries, requestId, tooLarge).phase.Scanning?
  {
    hide Reuses, Propose;
  }

  lemma RetryMoves(self: Self, d: Daemon)
    ensures Awaited(d).Some? ==> Retry(self, d).phase != d.phase
  {
  }

  lemma RefusedMoves(self: Self, d: Daemon, status: nat, code: Option<Code>)
    ensures Awaited(d).Some? ==> OnRefused(self, d, status, code).phase != d.phase
  {
    hide RefusalAction, Retry;
    RetryMoves(self, d);
  }

  lemma UploadsMove(self: Self, d: Daemon, v: Ending)
    requires d.phase.Uploading?
    ensures !OnUploads(self, d, v).phase.Uploading?
  {
    hide RefusalAction;
  }

  lemma UploadingMoves(self: Self, d: Daemon, i: Input)
    requires d.phase.Uploading? && Resolves(d, i)
    ensures React(self, d, i).phase != d.phase
  {
    hide OnUploads, Worst, OnGroup;
    if i.Continue? { UploadsMove(self, d, Worst(d.phase.groups)); }
    if i.Aborted? { UploadsMove(self, d, Worst(Dropping(d.phase.groups))); }
    if i.Verified? || i.PutAnswered? || i.PutRefusal? || i.PutLost? { GroupMoves(self, d, i); }
  }

  lemma GroupMoves(self: Self, d: Daemon, i: Input)
    requires d.phase.Uploading? && Resolves(d, i) && (i.Verified? || i.PutAnswered? || i.PutRefusal? || i.PutLost?)
    ensures OnGroup(self, d, i).phase != d.phase
  {
    assert OnGroup(self, d, i).phase.groups[i.g] != d.phase.groups[i.g];
  }
}
