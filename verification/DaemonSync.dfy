/**
 The daemon's side of one loop: a sync call runs rounds of read, scan, prepare,
 upload and commit against the server of `ArtifactServer`. One `React` is the
 code between two awaits. The network may drop, delay or repeat any message: a
 sent message may be delivered any number of times at any later point, and any
 awaited answer may be lost or replaced by an arbitrary refusal.
 */
module DaemonSync {
  import opened Wrappers
  import opened ArtifactStore
  import opened ArtifactServer
  import opened UploadRound

  /** `files` is the manifest policy's cap on entries, which every scan observes. */
  datatype Limits = Limits(attempts: nat, rescans: nat, renegotiations: nat, files: nat)
  datatype Self = Self(machine: MachineId, loop: LoopId, limits: Limits)

  /** `entries` is None when the record is unknown, never an empty tree. */
  datatype Baseline = Baseline(config: nat, revision: nat, entries: Option<seq<Entry>>)

  datatype Pending = Pending(epoch: nat, requestId: RequestId, payload: Payload)

  datatype Outcome =
    | Synced(snapshot: ManifestId, revision: nat, config: nat, entries: seq<Entry>)
    | Unchanged(entries: seq<Entry>)
    | ConfigChanged | Stopped | Unavailable | Terminal | Cancelled | FailedLocally

  datatype Phase =
    | Idle
    | Head
    | Reading(msg: nat, attempt: nat)
    | Scanning(base: nat)
    | Preparing(base: nat, entries: seq<Entry>, proposal: Pending, msg: nat, attempt: nat)
    | Uploading(base: nat, entries: seq<Entry>, sid: SyncId, groups: seq<Group>)
    | Committing(base: nat, entries: seq<Entry>, sid: SyncId, msg: nat, attempt: nat)
    | Reporting(msg: nat)

  /** One call. `rounds` and `sent` count what it has used so far; `scanned` is what
      its current round found on disk. */
  datatype Round = Round(config: nat, dir: string, freshSession: bool, reportOnly: bool, freshPending: bool,
                         rescans: nat, renegotiations: nat, rounds: nat, sent: nat,
                         scanned: Option<seq<Entry>>)

  /** `minted` remembers the payload each request id was minted for; `wire` every
      message sent; `log` every outcome returned. */
  datatype Daemon = Daemon(baseline: Option<Baseline>, pending: Option<Pending>, epoch: nat, stopped: bool,
                           round: Round, phase: Phase,
                           minted: map<RequestId, Payload>, wire: seq<Call>, log: seq<Outcome>)

  datatype Adjudication = Reprepare | Rescan | Recover | GiveUp

  function RefusalAction(code: Option<Code>): Adjudication {
    match code
    case None => GiveUp
    case Some(StorageErrorCode) => Reprepare
    case Some(BlobMissingCode) => Reprepare
    case Some(ConfigConflictCode) => Reprepare
    case Some(ManifestConflictCode) => Reprepare
    case Some(SessionExpiredCode) => Reprepare
    case Some(HashNotNegotiatedCode) => Reprepare
    case Some(SessionCommittedCode) => Recover
    case Some(ContentMismatchCode) => Rescan
    case Some(_) => GiveUp
  }

  /** What re-reading the files of one group found. */
  datatype Verification = Sound | Drifted | Unverifiable

  /** How an await resolves. `StartCall` is a call whose turn has come; `TurnedAway` one
      that ends without a turn; a `g` is the position of an upload group. */
  datatype Input =
    | StartCall(config: nat, dir: string, freshSession: bool, reportOnly: bool)
    | TurnedAway(cancelled: bool)
    | Continue
    | ScanFailed
    | Scanned(entries: seq<Entry>, requestId: RequestId, tooLarge: bool)
    | Verified(g: nat, verification: Verification)
    | PutAnswered(g: nat, result: Result)
    | PutRefusal(g: nat, status: nat, code: Option<Code>)
    | PutLost(g: nat)
    | Answered(result: Result)
    | Refused(status: nat, code: Option<Code>)
    | Lost
    | Aborted
    | DirectSend
    | DirectAnswered(result: Result)
    | DirectRefused(status: nat)
    | ClearStops
    | Restart

  // ---- Small steps ----

  /** Only an unchanged or synced call keeps the record. */
  function Invalidate(d: Daemon): Daemon {
    if d.baseline.None? then d else d.(baseline := Some(d.baseline.value.(entries := None)))
  }

  function End(d: Daemon, o: Outcome): Daemon {
    var e := d.(phase := Idle, log := d.log + [o]);
    if o.Synced? || o.Unchanged? then e else Invalidate(e)
  }

  function Forget(d: Daemon): Daemon { d.(baseline := None, pending := None) }

  function Send(d: Daemon, call: Call, phase: Phase): Daemon {
    d.(wire := d.wire + [call], phase := phase, round := d.round.(sent := d.round.sent + 1))
  }

  function ReadCall(self: Self): Call { ReadLoop(self.machine, self.loop) }

  function PrepareCall(self: Self, p: Pending): Call { Prepare(self.machine, p.requestId, p.payload) }

  function SendReport(self: Self, d: Daemon): Daemon {
    var base := if d.baseline.Some? then d.baseline.value.revision else 0;
    Send(d, ReportError(self.machine, self.loop, d.round.config, base, "local"), Reporting(|d.wire|))
  }

  /** Start the next round of this call, or give up when its budget is spent. */
  function Renegotiate(self: Self, d: Daemon): Daemon {
    if d.round.renegotiations >= self.limits.renegotiations then End(d, Terminal)
    else
      var r := d.round.(renegotiations := d.round.renegotiations + 1, rounds := d.round.rounds + 1, scanned := None);
      Invalidate(d.(phase := Head, round := r))
  }

  function ScanAgain(d: Daemon): Daemon {
    var r := d.round.(rescans := d.round.rescans + 1, rounds := d.round.rounds + 1, scanned := None);
    Invalidate(d.(phase := Head, round := r))
  }

  function StartCommit(self: Self, d: Daemon, base: nat, entries: seq<Entry>, sid: SyncId): Daemon {
    Send(d, CommitSync(self.machine, sid), Committing(base, entries, sid, |d.wire|, 1))
  }

  // ---- The steps of a round ----

  function OnHead(self: Self, d: Daemon): Daemon {
    var b := d.baseline;
    if !d.round.reportOnly && b.Some? && b.value.entries.Some? && b.value.config == d.round.config
    then d.(phase := Scanning(b.value.revision))
    else if d.stopped then End(d, Stopped)
    else Send(d, ReadCall(self), Reading(|d.wire|, 1))
  }

  function OnView(self: Self, d: Daemon, config: nat, revision: nat, dir: string): Daemon {
    if config != d.round.config || dir != d.round.dir then End(Forget(d), ConfigChanged)
    else
      var e := d.(baseline := Some(Baseline(config, revision, None)));
      if d.round.reportOnly then SendReport(self, e) else e.(phase := Scanning(revision))
  }

  predicate Reuses(d: Daemon, payload: Payload) {
    !d.round.freshPending && d.pending.Some? && d.pending.value.payload == payload
  }

  /** A request id belongs to its payload: it is kept while the payload stays the
      same, and a new payload mints a new one. */
  function Propose(d: Daemon, payload: Payload, requestId: RequestId): (e: Daemon)
    ensures e.pending.Some? && e.pending.value.payload == payload
    ensures e.log == d.log && e.phase == d.phase && e.wire == d.wire
  {
    if Reuses(d, payload) then d
    else d.(pending := Some(Pending(d.epoch + 1, requestId, payload)), epoch := d.epoch + 1,
            minted := d.minted[requestId := payload], round := d.round.(freshPending := false))
  }

  function OnScanned(self: Self, was: Daemon, entries: seq<Entry>, requestId: RequestId, tooLarge: bool): Daemon
    requires was.phase.Scanning?
  {
    var d := was.(round := was.round.(scanned := Some(entries)));
    var b := d.baseline;
    if !d.round.freshSession && b.Some? && b.value.config == d.round.config && b.value.entries == Some(entries)
    then End(d, Unchanged(entries))
    else
      var payload := Payload(self.loop, d.round.config, d.phase.base, entries);
      if !Reuses(d, payload) && requestId in d.minted then was   // ids are minted fresh
      else
        var e := Propose(d, payload, requestId);
        var p := e.pending.value;
        if tooLarge then SendReport(self, e)
        else Send(e, PrepareCall(self, p), Preparing(d.phase.base, entries, p, |e.wire|, 1))
  }

  function OnPrepared(d: Daemon, sid: SyncId, need: seq<Hash>): Daemon
    requires d.phase.Preparing?
  {
    // The epoch guard: an answer for a replaced session starts over, at no cost.
    if d.pending.None? || d.pending.value.epoch != d.phase.proposal.epoch then d.(phase := Head)
    else d.(phase := Uploading(d.phase.base, d.phase.entries, sid, GroupsOf(d.phase.entries, need)))
  }

  function OnCommitted(d: Daemon, receipt: Receipt): Daemon
    requires d.phase.Committing?
  {
    var entries := d.phase.entries;
    var previous := if d.baseline.Some? then d.baseline.value.revision else 0;
    var record := if receipt.revision == previous + 1 then Some(entries) else None;
    End(d.(baseline := Some(Baseline(d.round.config, receipt.revision, record)), pending := None),
        Synced(receipt.snapshot, receipt.revision, d.round.config, entries))
  }

  /** A transient outcome: send the same call again, within the attempts. */
  function Retry(self: Self, d: Daemon): Daemon {
    match d.phase
    case Reading(_, k) =>
      if k >= self.limits.attempts then End(d, Unavailable) else Send(d, ReadCall(self), Reading(|d.wire|, k + 1))
    case Preparing(base, entries, p, _, k) =>
      if k >= self.limits.attempts then End(d, Unavailable)
      else Send(d, PrepareCall(self, p), Preparing(base, entries, p, |d.wire|, k + 1))
    case Committing(base, entries, sid, _, k) =>
      if k >= self.limits.attempts then End(d, Unavailable)
      else Send(d, CommitSync(self.machine, sid), Committing(base, entries, sid, |d.wire|, k + 1))
    case Reporting(_) => End(d, FailedLocally)
    case _ => d
  }

  function OnRefused(self: Self, d: Daemon, status: nat, code: Option<Code>): Daemon {
    if d.phase.Reporting? then End(d.(stopped := d.stopped || Stopping(status)), FailedLocally)
    else if !d.phase.Reading? && !d.phase.Preparing? && !d.phase.Committing? then d
    else if Transient(status) then Retry(self, d)
    else if Stopping(status) then End(d.(stopped := true), Stopped)
    else if code == Some(ConfigConflictCode) then
      // A read leaves the record to the caller's invalidation; runSync forgets it.
      End(if d.phase.Reading? && d.round.reportOnly then d else Forget(d), ConfigChanged)
    else if d.phase.Reading? then End(d, Terminal)
    else if d.phase.Preparing? then
      if status != 413 && RefusalAction(code) == Reprepare then Renegotiate(self, d) else End(d, Terminal)
    else
      var action := RefusalAction(code);
      if status == 404 || action == Reprepare || action == Rescan then Renegotiate(self, d) else End(d, Terminal)
  }

  // ---- The uploads of a round ----

  function SetUpload(d: Daemon, g: nat, u: Upload): Daemon
    requires d.phase.Uploading? && g < |d.phase.groups|
  {
    d.(phase := d.phase.(groups := d.phase.groups[g := d.phase.groups[g].(upload := u)]))
  }

  function SendPut(self: Self, d: Daemon, g: nat, attempt: nat): Daemon
    requires d.phase.Uploading? && g < |d.phase.groups|
  {
    var at := SetUpload(d, g, Putting(|d.wire|, attempt));
    Send(at, Put(self.machine, d.phase.sid, d.phase.groups[g].hash), at.phase)
  }

  function RetryPut(self: Self, d: Daemon, g: nat): Daemon
    requires d.phase.Uploading? && g < |d.phase.groups| && d.phase.groups[g].upload.Putting?
  {
    var k := d.phase.groups[g].upload.attempt;
    if k >= self.limits.attempts then SetUpload(d, g, Settled(Exhausted)) else SendPut(self, d, g, k + 1)
  }

  function OnVerified(self: Self, d: Daemon, g: nat, v: Verification): Daemon
    requires d.phase.Uploading? && g < |d.phase.groups| && d.phase.groups[g].upload.Parked?
  {
    match v
    case Sound => SendPut(self, d, g, 1)
    case Drifted => SetUpload(d, g, Settled(FileChanged))
    case Unverifiable => SetUpload(d, g, Settled(FileUnreadable))
  }

  function OnPutRefused(self: Self, d: Daemon, g: nat, status: nat, code: Option<Code>): Daemon
    requires d.phase.Uploading? && g < |d.phase.groups| && d.phase.groups[g].upload.Putting?
  {
    if Transient(status) then RetryPut(self, d, g) else SetUpload(d, g, Settled(PutRefused(status, code)))
  }

  /** One event of one group. */
  function OnGroup(self: Self, d: Daemon, i: Input): Daemon
    requires i.Verified? || i.PutAnswered? || i.PutRefusal? || i.PutLost?
  {
    if !d.phase.Uploading? || i.g >= |d.phase.groups| then d
    else
      var u := d.phase.groups[i.g].upload;
      match i
      case Verified(g, v) => if u.Parked? then OnVerified(self, d, g, v) else d
      case PutAnswered(g, r) => if u.Putting? && r.Uploaded? then SetUpload(d, g, Settled(Stored)) else d
      case PutRefusal(g, status, code) => if u.Putting? then OnPutRefused(self, d, g, status, code) else d
      case PutLost(g) => if u.Putting? then RetryPut(self, d, g) else d
  }

  /** All groups are settled. */
  function OnUploads(self: Self, d: Daemon, verdict: Ending): Daemon
    requires d.phase.Uploading?
  {
    var base, entries, sid := d.phase.base, d.phase.entries, d.phase.sid;
    var canScan := d.round.rescans < self.limits.rescans;
    match verdict
    case Stored => StartCommit(self, d, base, entries, sid)
    case Exhausted => End(d, Unavailable)
    case Dropped => End(d, Cancelled)
    case FileChanged => if canScan then ScanAgain(d) else SendReport(self, d)
    case FileUnreadable => SendReport(self, d)
    case PutRefused(status, code) =>
      if Stopping(status) then End(d.(stopped := true), Stopped)
      else if code == Some(ConfigConflictCode) then End(Forget(d), ConfigChanged)
      else
        match if status == 404 then Reprepare else RefusalAction(code)
        case Recover => StartCommit(self, d, base, entries, sid)
        case Rescan => if canScan then ScanAgain(d) else End(d, Terminal)
        case Reprepare => Renegotiate(self, d)
        case GiveUp => End(d, Terminal)
  }

  /** Cancelled by the caller. The uploads already settled still have their say. */
  function OnAborted(self: Self, d: Daemon): Daemon {
    match d.phase
    case Idle => d
    case Uploading(_, _, _, groups) => OnUploads(self, d, Worst(Dropping(groups)))
    case Reporting(_) => End(d, FailedLocally)
    case _ => End(d, Cancelled)
  }

  function OnAnswered(self: Self, d: Daemon, r: Result): Daemon {
    match d.phase
    case Reading(_, _) => if r.Viewed? then OnView(self, d, r.config, r.revision, r.dir) else d
    case Preparing(_, _, _, _, _) => if r.Prepared? then OnPrepared(d, r.sid, r.need) else d
    case Committing(_, _, _, _, _) => if r.Committed? then OnCommitted(d, r.receipt) else d
    case Reporting(_) => End(d, FailedLocally)
    case _ => d
  }

  function React(self: Self, d: Daemon, i: Input): Daemon {
    match i
    case StartCall(config, dir, freshSession, reportOnly) =>
      if !d.phase.Idle? then d
      else d.(phase := Head, round := Round(config, dir, freshSession, reportOnly, freshSession, 0, 0, 1, 0, None))
    case TurnedAway(cancelled) => d.(log := d.log + [if cancelled then Cancelled else Stopped])
    case Continue =>
      if d.phase.Head? then OnHead(self, d)
      else if d.phase.Uploading? && AllSettled(d.phase.groups) then OnUploads(self, d, Worst(d.phase.groups))
      else d
    case ScanFailed => if d.phase.Scanning? then SendReport(self, d) else d
    case Scanned(entries, requestId, tooLarge) =>
      if !d.phase.Scanning? then d
      else if |entries| > self.limits.files then SendReport(self, d)
      else OnScanned(self, d, entries, requestId, tooLarge)
    case Verified(_, _) => OnGroup(self, d, i)
    case PutAnswered(_, _) => OnGroup(self, d, i)
    case PutRefusal(_, _, _) => OnGroup(self, d, i)
    case PutLost(_) => OnGroup(self, d, i)
    case Answered(result) => OnAnswered(self, d, result)
    case Refused(status, code) => OnRefused(self, d, status, code)
    case Lost => Retry(self, d)
    case Aborted => OnAborted(self, d)
    case DirectSend => if d.stopped then d else d.(wire := d.wire + [ReadCall(self)])
    case DirectAnswered(r) =>
      if r.Viewed? then d.(baseline := Some(Baseline(r.config, r.revision, None))) else d
    case DirectRefused(status) => d.(stopped := d.stopped || Stopping(status))
    case ClearStops => d.(stopped := false)
    case Restart => d.(baseline := None, pending := None, stopped := false, phase := Idle, round := NO_ROUND)
  }

  // ---- Daemon, network and server together ----

  /** `tags` says which message each delivered operation answers. */
  datatype World = World(server: Server, tags: map<nat, nat>, daemon: Daemon)

  datatype Event =
    | Serve(action: Action)
    | Deliver(msg: nat, opId: nat)
    | Local(input: Input)
    | Reply(opId: nat)
    | PutReply(g: nat, opId: nat)
    | DirectReply(opId: nat)

  /** The message whose answer the daemon awaits. */
  function Awaited(d: Daemon): Option<nat> {
    match d.phase
    case Reading(msg, _) => Some(msg)
    case Preparing(_, _, _, msg, _) => Some(msg)
    case Committing(_, _, _, msg, _) => Some(msg)
    case Reporting(msg) => Some(msg)
    case _ => None
  }

  /** The message of the PUT that group g awaits. */
  function AwaitedPut(d: Daemon, g: nat): Option<nat> {
    if d.phase.Uploading? && g < |d.phase.groups| && d.phase.groups[g].upload.Putting?
    then Some(d.phase.groups[g].upload.msg) else None
  }

  predicate IsAnswer(w: World, opId: nat, msg: nat) {
    && opId in w.tags && w.tags[opId] == msg
    && opId in w.server.ops && w.server.ops[opId].pc.Done? && !w.server.ops[opId].pc.result.Failed?
  }

  ghost function Next(self: Self, w: World, e: Event): World {
    var d := w.daemon;
    match e
    case Serve(action) => w.(server := Act(w.server, action))
    case Deliver(msg, opId) =>
      if msg >= |d.wire| || opId in w.server.ops || !Admissible(d.wire[msg]) then w
      else w.(server := Act(w.server, Start(opId, d.wire[msg])), tags := w.tags[opId := msg])
    case Local(input) =>
      if input.Answered? || input.PutAnswered? || input.DirectAnswered? then w else w.(daemon := React(self, d, input))
    case Reply(opId) =>
      if Awaited(d).Some? && IsAnswer(w, opId, Awaited(d).value)
      then w.(daemon := React(self, d, Answered(w.server.ops[opId].pc.result))) else w
    case PutReply(g, opId) =>
      if AwaitedPut(d, g).Some? && IsAnswer(w, opId, AwaitedPut(d, g).value)
      then w.(daemon := React(self, d, PutAnswered(g, w.server.ops[opId].pc.result))) else w
    case DirectReply(opId) =>
      if exists msg :: 0 <= msg < |d.wire| && d.wire[msg] == ReadCall(self) && IsAnswer(w, opId, msg)
      then w.(daemon := React(self, d, DirectAnswered(w.server.ops[opId].pc.result))) else w
  }

  ghost function After(self: Self, w: World, run: seq<Event>): World {
    if run == [] then w else Next(self, After(self, w, run[..|run| - 1]), run[|run| - 1])
  }

  const NO_ROUND := Round(0, "", false, false, false, 0, 0, 0, 0, None)
  const BOOTED := Daemon(None, None, 0, false, NO_ROUND, Idle, map[], [], [])
  const WORLD := World(EMPTY, map[], BOOTED)
}
