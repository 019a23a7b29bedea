# Artifact sync, verified

A Dafny model of the artifact-sync system: the server's prepare, PUT and commit, the
daemon's sync client with its upload gate and per-loop queue, the watch manager and the
execution runtime, the shared manifest and JSON policies, secret redaction, stream capture,
the tree scanner, and the offline claim migration. `dafny verify dfyconfig.toml` checks it.

How the pieces fit:

- **Server** (`ArtifactStore`, `ArtifactServer`, `ArtifactSteps`, `ArtifactSafety`). Rows and
  transactions are functions on a store; an operation is a program whose steps are single
  statements, interleaved in any order with every other operation and with other writers of
  a loop row. The theorems quantify over all action sequences from the empty store.
  `ArtifactTables` is the same writers against mutable tables, with rollback: the
  guarded statements of every step leave them as the step's store.
  `ArtifactAlone` shows that a sync nobody disturbs lands; `ArtifactHistory` what a commit and a
  PUT were told on their way, over every run; `ArtifactVerdicts` which answer each operation
  gives when it is left alone, and with which tables.
- **Daemon** (`DaemonSync`, `UploadRound`, `DaemonSafety`, `DaemonRuns`, `DaemonUploads`,
  `DaemonEnds`, `DaemonRetries`, `DaemonSuppression`, `DaemonChain`, `DaemonCrowd`, `DaemonCalls`).
  One reaction is the code between two awaits. Messages may be lost, delayed and repeated;
  the server behind the network is the one above. `DaemonSync` makes one call at a time;
  `DaemonChain` runs any number of calls that only the chain of `CallQueue` keeps apart, and
  shows that they behave like it; `DaemonCrowd` is what follows for each of them.
  `DaemonRetries` is what each answer does to a call; `DaemonCalls` follows a call that loses
  no more than it may retry, and what its record saves the next one (`RecordedCall`).
  `UploadGate` is the gate of the uploads.
- **Watch manager** (`WatchManager`, `WatchSafety`, `WatchSteps`, `WatchRuns`,
  `WatchStaleWindow`, `WatchEffects`, `WatchParked`, `WatchJobs`, `LoopWatches`). Objects, close
  chains and waiting jobs; the environment resumes any of them at any time. `WatchEffects` and
  `WatchParked` say what an applied set leaves in force, `WatchJobs` what each job brings about.
  `LoopWatches` is the whole manager on mutable variables, and takes the same steps.
- **Runtime** (`DaemonRuntime`, the machine and the same on mutable variables; `DaemonReports`,
  what its events bring about), **scanner** (`ArtifactScan`), **capture** (`StreamCapture`),
  **redaction** (`Redaction`; `RedactionKeeps`, what it leaves in the text).
- **Policies** (`ArtifactPolicy`, `ManifestPolicy`, `CanonicalJson`, `PayloadFingerprint`,
  `TextOrder`, `Utf16`, `JsonGraph`, `JsonWalk`, `JsonClone`, `JsonStrict`, `TerminalState`)
  and the snapshot diff (`ManifestDiff`).
- **Claim** (`ClaimPlan`, `ClaimBlobs`, `ClaimApply`).

Four promises hold only in part, and the exact condition is proved:

- A change accepted while a loop is watching is not always waited for. When the tick
  re-admits a refused loop before the event window of the generation before it has run out,
  the next change is folded into that window, which then does nothing
  (`WatchRuns.AcceptedIffCovered`, `WatchStaleWindow.StaleWindowLosesChange`). A round that
  throws leaves pending work without a driver (`WatchRuns.ThrownIffWindow`). Otherwise a
  change is served, through refusals and re-admissions (`WatchRuns.AcceptedIsServed`).
- The claim's chain check keeps the last size it saw for a hash, so it lets a history pass in
  which two manifests disagree on one (`ClaimApply.ChainBacksIffOneSize`,
  `ClaimApply.DisagreementPasses`). Rows and files are preserved either way.
- The cloner behind the terminal policy measures bytes, not nesting: a value of a few
  kilobytes can be deeper than the engine's serializer survives (`TerminalState.DeepIsRefused`).
  The policy refuses it when it serializes the clone, and what the policy accepts the wire
  check accepts too (`TerminalState.AcceptedByWireToo`, which also says exactly which of the
  cloner's values the wire check accepts).
- A diff omits entries of equal hash, so it rebuilds a snapshot exactly when equal hashes have
  equal sizes (`ManifestDiff.DiffRebuilds`); committed manifests always do.

## Model

| member | source | states |
|---|---|---|
| ArtifactSafety.RunKeeps | packages/server/src/artifact/sync.ts:435-1012 | In every interleaving of prepare, PUT, commit, config, error report, binding and other row writes, every reachable server satisfies the store invariant, and sessions, manifests, blob rows and receipts of an earlier point are still there, unchanged, at any later one |
| ArtifactSafety.RevisionsWithoutGap | packages/server/src/artifact/sync.ts:919-957 | A loop's manifests carry exactly the revisions 1 to n, each once, and the loop points at number n (at nothing when n is 0) |
| ArtifactSafety.ReceiptsMatchManifests | packages/server/src/artifact/sync.ts:946-968 | Receipts and manifests match one to one; a manifest is its session's negotiated payload, one revision past the session's base |
| ArtifactSafety.ReceiptIsWriteOnce | packages/server/src/artifact/sync.ts:960-968 | A written receipt is the same after every continuation, and every commit of that session that answers with a receipt answers with this one |
| ArtifactSafety.ConflictIsFinal | packages/server/src/artifact/sync.ts:821-855 | A `manifest_conflict` answer to a commit is true and final: the session has no receipt and no continuation gives it one |
| ArtifactSafety.DecidedConflictIsTrue | packages/server/src/artifact/sync.ts:821-855 | Precheck and transaction read the loop before the session: whenever one of them decides for `manifest_conflict`, another session has passed the base, in every continuation |
| ArtifactSafety.SizesAreVerified | packages/server/src/artifact/sync.ts:857-957 | Every entry of every manifest has a metadata row of its own size, which is the length of the content behind the hash; totalBytes is their sum; rows and manifests never change afterwards |
| ArtifactSteps.NegotiatedRowsBack | packages/server/src/artifact/sync.ts:857-888 | Checking each negotiated hash once checks every entry, because one hash has one size |
| ArtifactSafety.UndemandedIsStored | packages/server/src/artifact/sync.ts:329-340 | What a successful prepare does not ask for has a metadata row of its negotiated size, and keeps it |
| ArtifactSafety.PassedOverIsPresent | packages/server/src/artifact/sync.ts:329-345 | A prepare passes over a hash without asking for it only when its row has the negotiated size and the store has just answered that the file is present; otherwise it asks for it |
| ArtifactSafety.UploadedIsStored | packages/server/src/artifact/sync.ts:591-685 | An accepted PUT leaves its hash with a metadata row of the size negotiated in its session, in every continuation |
| ArtifactSafety.AttemptWriterIsCurrent | packages/server/src/artifact/sync.ts:761-783 | A step changes a loop's sync-attempt triple only on behalf of the loop's generation at that moment, or moves the generation by one and clears the triple |
| ArtifactSafety.ViewUntouched | packages/server/src/artifact/sync.ts:435-527 | Prepare and PUT never write a loop row, a manifest or a run |
| ArtifactSafety.LateReportNeverLands | packages/server/src/artifact/sync-error.ts:76-107 | A report bound to base m changes nothing once a commit has passed m |
| ArtifactSafety.BoundOnlyWhileCurrent | packages/server/src/artifact/binding-plan.ts:214-226 | A run's snapshot is set only to a committed manifest of its own loop and machine, the machine the report is attributed to, whose generation is the loop's at the moment of the write |
| ArtifactSafety.AloneCommitLands | packages/server/src/artifact/sync.ts:806-1012 | A commit of a complete session that nobody disturbs, each of its steps with its own answers from outside, answers with the next revision, inserts the session's manifest, and makes it the loop's current one with a success stamp |
| ArtifactHistory.LandedCommitSawFiles | packages/server/src/artifact/sync.ts:862-957 | A receipt is written only by the last step of its own commit, and on the way that commit was answered, for every negotiated hash, by a row of the negotiated size and by a file that is there, and found the session unexpired and its loop at its generation and base both before the files and again in the transaction |
| ArtifactHistory.CommitIsTold | packages/server/src/artifact/sync.ts:806-957 | The same over every run for a commit still under way: it is past hash i only if row and file of every hash up to i were answered, and past an adjudication only if the session was open at it |
| ArtifactHistory.ReceiptFromCommit | packages/server/src/artifact/sync.ts:946-968 | No other step, and no other operation, gives a session a receipt |
| ArtifactHistory.AcceptedPutWasAdjudicatedTwice | packages/server/src/artifact/sync.ts:591-685 | Over every run, an accepted PUT found its session open and unexpired and the loop at its generation before the bytes and again after them, and the bytes were those of the hash and as many as negotiated |
| ArtifactVerdicts.CommitAnswers | packages/server/src/artifact/sync.ts:806-1012 | A commit left alone: foreign, expired, moved and exhausted sessions are refused without a trace, a stored receipt is replayed, a conflict, a missing blob and a store fault are refused with a stamp, and only then it lands; each case exactly, with the tables it leaves |
| ArtifactVerdicts.FileRefusalIs | packages/server/src/artifact/sync.ts:862-888 | The file check lets a commit pass exactly when every negotiated hash has its row and its file |
| ArtifactVerdicts.AbsentFileIsRefused | packages/server/src/artifact/sync.ts:873-888 | A commit one of whose files is gone ends in `blob_missing`: no receipt, no manifest, the current manifest and the last success as they were, the failure stamped |
| ArtifactVerdicts.PrepareAnswers | packages/server/src/artifact/sync.ts:435-527 | A prepare left alone: which of attribution, foreign loop, replay, unconfigured loop, generation, base and key conflict answers, in their order; otherwise its session is open and it asks for what is missing |
| ArtifactVerdicts.DemandIsExact | packages/server/src/artifact/sync.ts:312-347 | What it asks for is exactly the hashes without a row of their size or without a file, and it fails exactly when a presence check it needs fails |
| ArtifactVerdicts.PutAnswers | packages/server/src/artifact/sync.ts:591-685 | A PUT left alone: refused without a trace by the first check that fails, an expired session and a foreign machine included, before the bytes are stored or after; otherwise the row of its hash is there |
| ArtifactVerdicts.ConfigureAnswers | packages/server/src/artifact/config.ts:83-200 | A configuration left alone: the directory asked for is the loop's afterwards, one generation further, with a clean attempt, unless it is the same, not allowed, or the generations are used up |
| ArtifactVerdicts.ReportAnswers | packages/server/src/artifact/sync-error.ts:57-107 | An error report left alone is recorded exactly when the loop is this machine's, configured, and at the generation and base it speaks of |
| ArtifactVerdicts.BindAnswers | packages/server/src/artifact/binding-plan.ts:120-183 | A run left alone gets the snapshot it reports when that is a committed one nothing objects to, and otherwise the first objection, and no snapshot |
| ArtifactVerdicts.ReadAnswers | packages/server/src/artifact/api.ts:158-191 | A read of the loop left alone: its generation, revision and directory, unless the machine has no attribution, the loop is another machine's or it is not configured |
| ArtifactVerdicts.LostGuardRerunsOnce | packages/server/src/artifact/sync.ts:1014-1034 | A write whose guard is lost changes nothing; the operation starts over once and then reports the race as lost |
| ArtifactVerdicts.LostRenewalRereads | packages/server/src/artifact/sync.ts:409-433 | A renewal that lost to a competitor takes the row the competitor left |
| ArtifactVerdicts.EndsOnce | packages/server/src/artifact/sync.ts:435-1034 | An operation left alone ends in one way only |
| ArtifactAlone.AlonePrepareNegotiates | packages/server/src/artifact/sync.ts:435-527 | An undisturbed prepare opens its session, new or found under its key and renewed if it lapsed, and asks for exactly the negotiated hashes without a verified blob, in order |
| ArtifactAlone.FoundIsOpen | packages/server/src/artifact/sync.ts:470-500 | A session found for a request based on the current revision is not committed |
| ArtifactAlone.AloneSyncLands | packages/server/src/artifact/sync.ts:435-1012 | Prepare, upload what it asked for, commit, undisturbed: the current manifest holds exactly the entries of the request, one revision further |
| ArtifactStore.InsertKeeps | packages/server/src/artifact/sync.ts:362-407 | The guarded session insert keeps the store invariant |
| ArtifactStore.CommitKeeps | packages/server/src/artifact/sync.ts:926-968 | The guarded commit writes keep the store invariant when revision, base and rows were verified |
| ArtifactStore.CommitKeepsDead | packages/server/src/artifact/sync.ts:926-968 | A commit revives no session whose base was passed |
| ArtifactTables.Tables.ComputeNeedHashes | packages/server/src/artifact/sync.ts:322-347 | The loop over the manifest with its seen set computes the list of hashes to upload |
| ArtifactTables.NeedIsExact | packages/server/src/artifact/sync.ts:312-347 | That list holds exactly the hashes with no row, a row of another size, or no file, and none twice |
| ArtifactTables.NeedStepAppends | packages/server/src/artifact/sync.ts:329-345 | The interleaved prepare program computes the same list when nothing interferes |
| ArtifactTables.Tables.Write | packages/server/src/artifact/sync.ts:362-1012 | Session insert and renewal, blob row, failure stamp, commit, and the config, report and binding writes, each with its guards on mutable tables: after any step of any operation the tables are exactly the store of the proved step |
| ArtifactTables.Tables.CommitTransaction | packages/server/src/artifact/sync.ts:922-969 | Loop update, manifest, receipt in this order, all or nothing: a lost guard or a fault in between restores every table |
| ManifestDiff.DiffManifestEntries | packages/server/src/artifact/read.ts:250-274 | The diff loops compute added, modified and removed, a later entry of the same path winning |
| ManifestDiff.DiffRebuilds | packages/server/src/artifact/read.ts:246-274 | The diff rebuilds the later snapshot from the earlier one, and its reverse the earlier one, exactly when no path keeps its hash and changes its size |
| ManifestDiff.CommittedDiffRebuilds | packages/server/src/artifact/read.ts:246-274 | Between any two committed manifests, and from the empty baseline, the diff always rebuilds, sizes included |
| DaemonRuns.WorldKeeps | packages/daemon/src/artifact-sync.ts:497-841 | Daemon, lossy network and server together keep their joint invariant over every run |
| DaemonRuns.OnePayloadPerRequest | packages/daemon/src/artifact-sync.ts:683-708 | A request id is only ever sent with one payload |
| DaemonRuns.SyncedNamesItsManifest | packages/daemon/src/artifact-sync.ts:797-841 | Whatever happens afterwards, a `synced` outcome names a manifest of this machine and loop that holds exactly the entries and revision it reported |
| DaemonRuns.OutcomeIsThisRoundsScan | packages/daemon/src/artifact-sync.ts:633-681 | The entries behind a `synced` or `unchanged` outcome are those scanned in the round that returns it |
| DaemonRuns.OneOutcome | packages/daemon/src/artifact-sync.ts:848-858 | A reaction returns at most one outcome; `synced` only for a receipt of the commit it awaits, `unchanged` only for a scan equal to the record |
| DaemonEnds.CallsAreBounded | packages/daemon/src/artifact-sync.ts:416-791 | A call takes at most 1 + rescans + renegotiations rounds, and sends at most three requests a round and one PUT for each file, each at most `attempts` times, and one report, whatever is answered |
| DaemonCrowd.EachCallIsBounded | packages/daemon/src/artifact-sync.ts:848-907 | However the calls interleave, each of them stays within that bound, and nothing else but the direct reads is sent |
| DaemonEnds.CallsEnd | packages/daemon/src/artifact-sync.ts:600-791 | No call goes on for ever: of any inputs at most a number fixed at its start move it on |
| DaemonEnds.NeverStuck | packages/daemon/src/artifact-sync.ts:600-791 | A call that has not ended awaits something, and each way its await can resolve moves it on |
| UploadRound.GroupNeeded | packages/daemon/src/artifact-sync.ts:547-554 | The grouping loop makes one group for each distinct hash of the tree that is asked for, in the order of the tree |
| UploadRound.GroupsAreExact | packages/daemon/src/artifact-sync.ts:547-554 | A hash has a group exactly when it is both scanned and asked for, and only one; there are no more groups than files |
| UploadRound.Adjudicate | packages/daemon/src/artifact-sync.ts:566-598 | The two passes find the first ending of the highest severity, and record a stop exactly when some group met one |
| UploadRound.WorstIsFirst | packages/daemon/src/artifact-sync.ts:562-598 | A stop is never masked by another refusal, nor a refusal by a local fault; the uploads succeed only when every group stored its bytes |
| DaemonUploads.CommitFollowsUploads | packages/daemon/src/artifact-sync.ts:732-788 | The commit follows the uploads only when every group stored its bytes, and then every negotiated hash has its row of the negotiated size on the server, or when the server said the session is committed already |
| DaemonChain.CallsAreOneDaemon | packages/daemon/src/artifact-sync.ts:848-935 | Every interleaving of any number of calls of a loop, with waits, cancelled waits, direct reads and crashes, is a run of one daemon making one call at a time, so that every theorem about its runs holds for it |
| DaemonChain.OneRoundAtATime | packages/daemon/src/artifact-sync.ts:860-894 | At most one call of a loop is past its wait; calls begin in the order they were made; a waiting call may begin exactly when all made before it are over |
| DaemonChain.EpochGuardNeverFires | packages/daemon/src/artifact-sync.ts:723-729 | Whichever of the calls awaits its prepare, the pending session is still the one it proposed: the guard, whose restart spends no budget, is never taken |
| DaemonChain.GuardNeedsTheChain | packages/daemon/src/artifact-sync.ts:723-729 | Two calls that ran together would take the guard, so it is the chain that makes it unreachable |
| DaemonChain.EachCallsManifest | packages/daemon/src/artifact-sync.ts:797-841 | Whichever call returned it, a `synced` outcome names a stored manifest with exactly its entries |
| DaemonSafety.ReactKeeps | packages/daemon/src/artifact-sync.ts:600-841 | Every stretch of code between two awaits keeps the daemon's own invariant |
| DaemonSuppression.UnchangedIsTrue | packages/daemon/src/artifact-sync.ts:670-681 | While every committed session of the loop is one this daemon proposed, cancelled commits that may still land included, each `unchanged` is returned only when the server's current manifest equals the scan |
| DaemonSuppression.SoleProposer | packages/daemon/src/artifact-sync.ts:670-681 | That condition holds on every run in which nobody else prepares a session for the loop |
| DaemonCrowd.EachUnchangedIsTrue | packages/daemon/src/artifact-sync.ts:670-681 | The same for any number of interleaved calls of the loop |
| DaemonSuppression.RecordIsCurrent | packages/daemon/src/artifact-sync.ts:825-833 | A record newer than every proposal sent is the server's current manifest |
| DaemonSuppression.NumberedFromWire | packages/daemon/src/artifact-sync.ts:683-694 | While every committed session of the loop is this daemon's, every manifest of the loop is on the wire as it was proposed: its entries and generation, based on the revision before its own |
| DaemonCalls.UndisturbedCallSyncs | packages/daemon/src/artifact-sync.ts:600-841 | A call on a loop configured as it believes, with reachable blobs, each of whose requests, PUTs included, is lost fewer times than it may be tried, ends with `synced`: read unless the record stands, prepare of a new session or of the open one an earlier call left behind, one PUT for each hash the server misses, commit; the loop's current manifest is the scan and the record is kept |
| DaemonRetries.LossIsRetried | packages/daemon/src/artifact-sync.ts:416-431 | While attempts are left, a read, prepare or commit that is lost or refused for the moment is sent again, the very same request, and awaited in its place with proposal and record untouched; after the last attempt the call ends as unavailable and keeps its proposal |
| DaemonRetries.AskingIsUnderway | packages/daemon/src/artifact-sync.ts:416-431 | In every state the daemon can be in, a read, prepare or commit it awaits is the request it last sent, which is what the retry sends again |
| DaemonRetries.PutLossIsRetried | packages/daemon/src/artifact-sync.ts:416-431 | The same for the PUT of one group, the other groups untouched |
| DaemonRetries.UnavailableIsExhausted | packages/daemon/src/artifact-sync.ts:416-431 | Nothing else ends a call as unavailable: a request, or the PUT of some group, was tried as often as allowed |
| DaemonRetries.RefusalMeans | packages/daemon/src/artifact-sync.ts:236-260 | What a lasting refusal does: a 401 or 403 ends the call and records the stop, a moved configuration forgets record and proposal, and only the codes that allow it start another round |
| DaemonRetries.StoppedSendsNothing | packages/daemon/src/artifact-sync.ts:383-403 | Once stopped, nothing is sent for a call without a record, nor a direct read |
| DaemonRetries.StopStays | packages/daemon/src/artifact-sync.ts:391-403 | Only a clearing or a restart takes a stop back |
| DaemonRetries.ClearedReadsAgain | packages/daemon/src/artifact-sync.ts:179-182 | Once the stops are cleared a call without a record reads again |
| DaemonRetries.DirectMeans | packages/daemon/src/artifact-sync.ts:459-492 | A direct read counts as a call's own: its view is the next base and leaves no record, and a 401 or 403 stops the loop |
| DaemonRetries.VerdictMeans | packages/daemon/src/artifact-sync.ts:732-788 | What the verdict over the uploads does, ending by ending |
| DaemonRetries.ViewMeans | packages/daemon/src/artifact-sync.ts:610-660 | What a read does: another configuration or directory ends the call, any other read sets the base and drops the record's entries |
| DaemonRetries.CancelMeans | packages/daemon/src/artifact-sync.ts:416-431 | A cancelled call ends as cancelled, an upload round after its groups were heard, a report as the local fault it reported |
| DaemonRetries.LocalFaultIsReported | packages/daemon/src/artifact-sync.ts:435-456 | A failed or oversized scan is reported, and whatever becomes of the report the call ends as failed locally |
| UploadGate.GateIsSafe | packages/daemon/src/artifact-sync.ts:262-299 | Over every run: held equals running plus woken callers and never exceeds the limit; somebody waits only when all permits are held; permits are granted in arrival order, skipping only cancelled callers |
| UploadGate.CancelIsNeutral | packages/daemon/src/artifact-sync.ts:271-283 | A cancelled waiter takes and leaks no permit, and leaves the queue as it was without it, in order |
| UploadGate.GateDrains | packages/daemon/src/artifact-sync.ts:285-297 | While anyone is inside some caller can move, every move brings the gate closer to empty, and an empty gate holds no permit |
| UploadGate.UploadGate.Enter | packages/daemon/src/artifact-sync.ts:266-285 | Starts at once below the limit, else parks; the new state is the step's |
| UploadGate.UploadGate.Cancel | packages/daemon/src/artifact-sync.ts:273-279 | Removes a parked caller only; the new state is the step's |
| UploadGate.UploadGate.Resume | packages/daemon/src/artifact-sync.ts:284-290 | A woken caller runs, or releases when it was cancelled after the hand-off |
| UploadGate.UploadGate.Finish | packages/daemon/src/artifact-sync.ts:285-297 | Hands the permit to the longest waiter, or frees it |
| CallQueue.RoundsNeverOverlap | packages/daemon/src/artifact-sync.ts:867-894 | Over every run, cancelled calls included: at most one call of a loop runs, calls start in the order they were made, and the work counter is zero exactly when all are over |
| CallQueue.ReadyIffFirst | packages/daemon/src/artifact-sync.ts:867-894 | A queued call may start exactly when everything called before it is over |
| CallQueue.SettledIffAllOver | packages/daemon/src/artifact-sync.ts:867-885 | A tail promise is settled exactly when every call up to it is over |
| JsonGraph.UnfoldsIffAcyclicAndLegal | packages/protocol/src/terminal-policy.ts:322-395 | A finite value graph unfolds to a JSON tree exactly when everything reachable is legal and acyclic |
| JsonClone.CloneTerminalState | packages/protocol/src/terminal-policy.ts:209-399 | The explicit-stack cloner halts on every finite graph, shared or cyclic; accepts exactly the acyclic legal ones of at most 65536 compact bytes; its byte count is the tree's; its clone unfolds to the same tree; each refusal is justified |
| JsonClone.CopyDenotes | packages/protocol/src/terminal-policy.ts:355-395 | Memoized shared objects unfold alike in the original and in the clone |
| JsonWalk.CycleRejects | packages/protocol/src/terminal-policy.ts:351-354 | Meeting an open object again means the root has no finite unfolding |
| JsonWalk.SlotRejects | packages/protocol/src/terminal-policy.ts:258-295 | A hole or an unwritable key of the open object rejects the root |
| JsonWalk.ValueRejects | packages/protocol/src/terminal-policy.ts:327-350 | An illegal value being visited rejects the root |
| TerminalState.ValidateTerminalState | packages/protocol/src/terminal-policy.ts:417-438 | Accepts exactly the non-array objects whose tree fits the byte limit and is no deeper than the engine's serializer survives, and returns a clone with the same tree |
| TerminalState.Stringifies | packages/protocol/src/terminal-policy.ts:430-436 | The engine's serializer on the clone succeeds exactly up to its nesting depth |
| TerminalState.DeepIsRefused | packages/protocol/src/json.ts:207-214 | A concrete value, an object over as many nested arrays as the engine survives, that the cloner accepts, the policy refuses as `not_json`, and the wire check refuses |
| JsonStrict.IsStrictJsonValue | packages/protocol/src/json.ts:74-215 | Accepts exactly the values that unfold to a strict JSON tree and whose probe, the depth-first copy in which an object met again is `null`, is no deeper than the engine's serializer survives; without sharing the probe is the tree |
| TerminalState.PolicyNarrowsWire | packages/protocol/src/json.ts:74-215 | The terminal policy only narrows the wire rule: the same tree, fewer legal leaves and keys |
| TerminalState.AcceptedByWireToo | packages/protocol/src/json.ts:203-215 | Whatever the terminal policy accepts, the strict check accepts on the same engine; of what the cloner accepts, it accepts exactly the values whose probe is within the engine's depth |
| Utf16.HasUnpairedSurrogate | packages/protocol/src/artifact-policy.ts:34-50 | The surrogate scan answers exactly whether some surrogate is not half of a pair |
| ArtifactPolicy.PathAcceptedIffCanonical | packages/protocol/src/artifact-policy.ts:222-235 | A path is accepted exactly when its segments are canonical: nonempty, no dot segment, no forbidden unit, no drive letter, within 1024 UTF-8 bytes |
| ArtifactPolicy.AboveIsSlashPrefix | packages/protocol/src/artifact-policy.ts:296-304 | A path is a proper segment prefix of another exactly when the other continues it after a slash |
| ArtifactPolicy.SegmentMatchesIsGlob | packages/protocol/src/artifact-policy.ts:151-157 | One rule segment matches exactly as a glob: the star stands for any stretch of units |
| ArtifactPolicy.MatchesDirectoryWindow | packages/protocol/src/artifact-policy.ts:160-171 | The window loops find a directory rule exactly when some rule matches some contiguous window of segments |
| ArtifactPolicy.IsNeverSyncPath | packages/protocol/src/artifact-policy.ts:176-184 | True exactly when a directory rule matches a window or a file rule matches the basename |
| ArtifactPolicy.NeverSyncBelow | packages/protocol/src/artifact-policy.ts:186-197 | Whatever lies below a never-sync directory is never synced |
| ArtifactPolicy.NeverSyncIgnoresCase | packages/protocol/src/artifact-policy.ts:142-197 | Paths that differ only in ASCII case are never-sync alike |
| ManifestPolicy.Normalize | packages/protocol/src/artifact-policy.ts:276-323 | The one-pass validator accepts exactly the lists that satisfy the order-free rules and returns them sorted; a refusal names the first entry at fault and the first rule it breaks against the entries before it |
| ManifestPolicy.WhyIsRight | packages/protocol/src/artifact-policy.ts:283-314 | An entry passes the checks against earlier entries exactly when the longer list is sound |
| ManifestPolicy.SoundIffBag | packages/protocol/src/artifact-policy.ts:262-275 | Soundness depends on the bag of entries only |
| ManifestPolicy.OrderNeverMatters | packages/protocol/src/artifact-policy.ts:318-322 | Every permutation gets the same verdict and the same sorted manifest |
| ManifestPolicy.NormalizedStaysNormal | packages/protocol/src/artifact-policy.ts:320-322 | Validating a normalized manifest again changes nothing |
| TextOrder.SortForgetsOrder | packages/protocol/src/artifact-policy.ts:321-321 | Sorting entries with distinct keys by UTF-16 units gives one list, whatever the order before |
| CanonicalJson.PrintWritesCanon | packages/protocol/src/artifact-policy.ts:360-378 | Printing a value is writing its form with keys sorted |
| CanonicalJson.SamePrintSameValue | packages/protocol/src/artifact-policy.ts:352-378 | Two values print the same exactly when they have the same leaves and arrays, and in each object the same keys with the same values (strings and numbers as in sections 7 and 6 of RFC 8259) |
| CanonicalJson.CanonDecides | packages/protocol/src/artifact-policy.ts:360-378 | Sorting the keys of every object decides that equality |
| PayloadFingerprint.PayloadTextInjective | packages/protocol/src/artifact-policy.ts:396-403 | The payload text determines the payload |
| PayloadFingerprint.SamePrintSamePayload | packages/protocol/src/artifact-policy.ts:380-403 | Two accepted prepare requests have the same fingerprint text exactly when loop, revisions and entry sets are equal, in any wire order |
| PayloadFingerprint.RootsAreASet | packages/protocol/src/artifact-policy.ts:415-415 | Two root lists normalize alike exactly when they hold the same roots |
| PayloadFingerprint.WatchTextInjective | packages/protocol/src/artifact-policy.ts:409-420 | The watch text determines the normalized watch configuration |
| PayloadFingerprint.SameWatchSameText | packages/protocol/src/artifact-policy.ts:405-420 | Configurations that name each loop once have equal watch texts exactly when they watch the same loops in the same way, in any order of items and roots |
| Redaction.RedactedLeaksNothing | packages/daemon/src/agent-env.ts:213-278 | Redacted text holds no exact form, its separator-stripped view no needle, and its folded stripped view no case-insensitive needle |
| Redaction.RedactionIsExact | packages/daemon/src/agent-env.ts:236-291 | When a marker exists a text changes exactly when a protected form occurs; redacting again changes nothing; the text never gets longer |
| Redaction.RedactionNeverGrows | packages/daemon/src/agent-env.ts:127-131 | Redaction never adds a byte of UTF-8, surrogate pairs that are cut apart included |
| Redaction.CleanTextUntouched | packages/daemon/src/agent-env.ts:236-278 | A text in which no form occurs is returned as it is |
| Redaction.Survivor | packages/daemon/src/agent-env.ts:222-226 | Fragments cannot rejoin: a word without the marker that occurs in a view of the replaced text already occurred in the original, at a place no span touches |
| RedactionKeeps.RedactionKeepsTheRest | packages/daemon/src/agent-env.ts:155-278 | With a marker the result is the text in pieces: first each form the leftmost scan takes, then each merged run of needle matches, is one marker, and every other unit is there, verbatim and in order; what is cut lies in occurrences throughout, every occurrence of a needle begins in a cut, no form begins in what the scan keeps, and two cuts of the second pass never touch |
| RedactionKeeps.LoneSecretIsMarked | packages/daemon/src/agent-env.ts:270-273 | A text that is `a`, a secret, `b`, with no other occurrence, becomes `a`, one marker, `b` |
| RedactionKeeps.LoneMatchIsMarked | packages/daemon/src/agent-env.ts:155-211 | The same for a secret found with separators between its chunks, separators included |
| Redaction.ChooseBoundaryMarker | packages/daemon/src/agent-env.ts:132-145 | The loop picks the first printable ASCII unit that is no quote, no separator and in no form in any case, if there is one |
| Redaction.BuildView | packages/daemon/src/agent-env.ts:161-176 | One pass builds the stripped or folded view and, for each of its units, the index it came from |
| Redaction.CollectSpans | packages/daemon/src/agent-env.ts:179-187 | The search loop collects the spans of the leftmost non-overlapping matches in original coordinates |
| Redaction.EmitMerged | packages/daemon/src/agent-env.ts:192-210 | Merging sorted spans and emitting the pieces between markers is replacing the merged spans |
| Redaction.ReplaceExact | packages/daemon/src/agent-env.ts:270-273 | The single combined replacement: leftmost match, longest listed form first |
| Redaction.RedactTolerant | packages/daemon/src/agent-env.ts:155-211 | The separator-tolerant pass |
| Redaction.RedactNormalizedSecrets | packages/daemon/src/agent-env.ts:236-278 | The two passes in sequence, or the empty text when no safe marker exists |
| Redaction.ContainsProtectedForm | packages/daemon/src/agent-env.ts:287-291 | The matcher answers true exactly when the text is not empty and a form occurs or no safe marker exists |
| StreamCapture.CappedStream.Push | packages/daemon/src/subprocess.ts:205-237 | For any chunking, a push appends a copy of the chunk to the captured stream and keeps the capture's invariant |
| StreamCapture.CappedStream.Text | packages/daemon/src/subprocess.ts:239-247 | The text is a function of the whole stream only: the stream itself, or an aligned head and tail of it |
| StreamCapture.KeptPieces | packages/daemon/src/subprocess.ts:184-247 | Up to the cap the whole stream is kept; past it a prefix and a suffix of half the cap, each cut by at most three bytes; of well-formed UTF-8 (section 4 of RFC 3629) both pieces are well-formed |
| StreamCapture.HeadCutAligns | packages/daemon/src/subprocess.ts:151-161 | The head cut of a well-formed stream is well-formed, drops at most three bytes, and nothing from a piece that was already well-formed |
| StreamCapture.TailCutAligns | packages/daemon/src/subprocess.ts:167-182 | The tail cut of a well-formed stream with three bytes of context starts at the first scalar at or after the cut |
| StreamCapture.DropTrailingPartialSequence | packages/daemon/src/subprocess.ts:151-161 | The backwards loop computes the head cut |
| StreamCapture.AlignTailToUtf8Scalar | packages/daemon/src/subprocess.ts:167-182 | The backwards and forwards loops compute the tail cut |
| DaemonRuntime.RuntimeIsSafe | packages/daemon/src/runtime.ts:211-415 | Over every run of events: at most one run executing or unconfirmed, activity keys exactly the queued, executing and reporting runs, first come first served, and no queued run waits behind an idle pipeline |
| DaemonRuntime.NextKeeps | packages/daemon/src/runtime.ts:211-415 | No event lowers a run's step, unsays a fatal or an abort, or starts a run out of turn |
| DaemonRuntime.NothingStartsAfterFatal | packages/daemon/src/runtime.ts:211-228 | After a fatal or an abort nothing ever starts, and the started runs are a prefix of the arrived ones |
| DaemonRuntime.BusyRidesEveryPoll | packages/daemon/src/runtime.ts:424-441 | Every executing or unconfirmed run is in every progress snapshot, which never exceeds the cap |
| DaemonRuntime.QueuedRunIsReported | packages/daemon/src/runtime.ts:417-441 | While the queue stays as it is, every queued run is in one of the next ceil(queued / room) snapshots, and room is at least 19 or the whole queue |
| DaemonRuntime.WithinCeilPolls | packages/daemon/src/runtime.ts:430-439 | The rotating cursor reaches every position within ceil(n / r) polls |
| DaemonReports.ConfirmedFrees | packages/daemon/src/runtime.ts:304-317 | A confirmed report's run is forgotten and the run that has waited longest starts at once, unless a fatal is set; every other run is as it was |
| DaemonReports.FatalStops | packages/daemon/src/runtime.ts:211-228 | A fatal answer sets fatal and abort and drops every waiting run unstarted, in order; what executes or is unconfirmed stays |
| DaemonReports.StopsStop | packages/daemon/src/runtime.ts:211-228 | A fatal poll and a shutdown drop the waiting runs in the same way; an abort alone drops nothing |
| DaemonReports.UnansweredStays | packages/daemon/src/runtime.ts:304-325 | An answer to be retried, one after an abort, or one nobody waits for changes nothing |
| DaemonReports.RetrySendsOnceMore | packages/daemon/src/runtime.ts:248-260 | The retry timer sends its own pending report once more, and no other, unless the daemon is stopping |
| DaemonReports.UnconfirmedHoldsTheCapacity | packages/daemon/src/runtime.ts:262-273 | Until its report is confirmed a run holds the capacity: whatever else happens, no run starts |
| DaemonReports.SyncedIsPending | packages/daemon/src/runtime.ts:361-408 | When the final sync is over the slot is free and the report pending in one instant, nothing starts, and a process-control failure drops the queue without an abort |
| DaemonReports.SettlingKeepsTheSlot | packages/daemon/src/runtime.ts:341-361 | A settled runner keeps its slot, one step further |
| DaemonReports.ProgressCounts | packages/daemon/src/runtime.ts:334-345 | A progress event counts one step exactly while its runner is active and when it says something |
| DaemonReports.PollTakesTheNew | packages/daemon/src/runtime.ts:484-494 | A poll takes in exactly the runs it names that were not known, each once, in wire order, and none after a fatal |
| DaemonReports.EveryRunIsServed | packages/daemon/src/runtime.ts:275-415 | When the executing run and all that wait go well, each is started in the order of arrival and nothing is left |
| DaemonRuntime.Runtime.Take | packages/daemon/src/runtime.ts:211-538 | Whatever happens next, poll, progress, settled runner, finished sync, report answer, timer, abort or shutdown, the code it runs on the mutable variables leaves exactly the state of the proved machine, so that every theorem about its runs holds for the variables |
| DaemonRuntime.Runtime.HandlePoll | packages/daemon/src/runtime.ts:460-538 | Deliveries in wire order, known ones skipped; the whole new state, and the invariant |
| DaemonRuntime.Runtime.CollectProgress | packages/daemon/src/runtime.ts:424-441 | The snapshot and the moved cursor, computed by the loops |
| ClaimPlan.CheckChain | packages/server/src/claim/plan.ts:256-357 | Passes exactly when the whole resource chain of a machine is consistent, and then returns the namespace's rows and counts |
| ClaimPlan.PlanMachine | packages/server/src/claim/plan.ts:157-180 | Plans a machine exactly when it is eligible: known, not revoked, unowned or already the team's, chain consistent, no running run |
| ClaimPlan.PlanClaim | packages/server/src/claim/plan.ts:119-251 | A plan is made exactly when every machine is eligible, their rows agree on sizes, and the store has every source file; it expects every row, takes each hash from the last machine that holds it, and classifies copy and reuse with exact byte sums |
| ClaimBlobs.BlobFiles.CopyAndVerify | packages/server/src/claim/blobs.ts:48-123 | Every planned hash ends up verified in the team namespace or the copy refuses; nothing that was there changes; the counters account for every hash and byte once; with a healthy store it succeeds exactly when each hash is sound at its source or target |
| ClaimBlobs.BlobFiles.CopyOne | packages/server/src/claim/blobs.ts:72-120 | One hash is copied and verified, or found and verified; only its own target may appear |
| ClaimBlobs.BlobFiles.VerifyExisting | packages/server/src/claim/blobs.ts:126-150 | The read-back accepts exactly a file of the expected size and digest |
| ClaimApply.Database.ApplyClaim | packages/server/src/claim/apply.ts:63-180 | All or nothing: success exactly when every guard holds and nothing fails, and then the rows are the claimed ones; otherwise every row is as it was |
| ClaimApply.ClaimMovesOnlyNamespaces | packages/server/src/claim/apply.ts:78-113 | Moving the machines changes namespaces of their manifests and sessions and their owner, and nothing else |
| ClaimApply.HistoryPreserved | packages/server/src/claim/apply.ts:75-180 | After plan, copy and apply, every manifest of a claimed machine is in the team namespace with all else untouched, and each of its entries has there a verified file and a row of the size it had before, which is the entry's own when no two manifests of the machine disagree on a size |
| ClaimApply.ChainBacksIffOneSize | packages/server/src/claim/plan.ts:306-345 | The chain check remembers one size a hash; a chain it accepts backs every entry with a row of its own size exactly when no two of the machine's manifests disagree on a size |
| ClaimApply.DisagreementPasses | packages/server/src/claim/plan.ts:306-345 | A concrete chain that passes the check although one manifest misstates a size |
| ArtifactScan.WalkAttempt | packages/daemon/src/artifact-scan.ts:373-536 | Halts whatever the file system answers; what it collects the policy can refuse for capacity only; a clean attempt accounts for every listed name, as pruned, collected or a visited directory, and each directory it visited was found unchanged by a re-check made after its whole subtree; an attempt on a tree that lets itself be scanned is clean |
| ArtifactScan.VisitDirectory | packages/daemon/src/artifact-scan.ts:456-531 | One directory: everything added was found in it, and unless the attempt became dirty every name was handled |
| ArtifactScan.SteadyScanIsExact | packages/daemon/src/artifact-scan.ts:213-240 | On a tree that does not change what a scan returns lists exactly the files of the tree that may be synced, with their hashes and sizes |
| ArtifactScan.SomeTreeIsScanned | packages/daemon/src/artifact-scan.ts:213-240 | What the scanner's results assume is consistent: a sane system that does not change holds a file to list, whatever its bytes, and a scan of it may return just that file |
| ArtifactScan.SteadyWalkIsExact | packages/daemon/src/artifact-scan.ts:373-536 | The same for one finished walk, before sorting |
| ArtifactScan.CollectedIsSound | packages/daemon/src/artifact-scan.ts:373-536 | A collected list satisfies the manifest rules but for sizes that only a raised limit lets in |
| ArtifactScan.CloseOut | packages/daemon/src/artifact-scan.ts:338-353 | Under the default limits the shared policy accepts every clean walk; under any file limit within the safe integers the invariant error is never thrown |
| ArtifactScan.RejectionIsCapacity | packages/daemon/src/artifact-scan.ts:305-336 | A rejection can only be a capacity one, and only if some limit of the scan is above the shared one |
| ArtifactScan.ScanArtifactRoot | packages/daemon/src/artifact-scan.ts:213-240 | A scan returns a sorted acceptable manifest of one finished walk, whose directories were all found unchanged after their subtrees, or reports cancellation, a failure, or instability after three attempts; a tree that does not change, holds nothing but what can be synced or is pruned, and is within the limits, is scanned |
| ArtifactScan.ScannedTreeIsPlain | packages/daemon/src/artifact-scan.ts:456-531 | On a tree that does not change a successful scan skipped nothing but what is never synced: whatever its directories list is a directory or a file in the result, so a symlink or a special file fails it |
| ArtifactScan.SomeTreeIsCalm | packages/daemon/src/artifact-scan.ts:213-240 | Such trees exist: one file of any content within the limits |
| WatchRuns.OneWatcherPerLoop | packages/daemon/src/artifact-watch-manager.ts:245-255 | Over every run of apply, events, ticks, parks, throws and drain, with closes resolving in any order: a loop has at most one open watcher, across generations and objects |
| WatchRuns.SubscribesLast | packages/daemon/src/artifact-watch-manager.ts:453-457 | A watcher is opened only when no other watcher of its loop is open |
| WatchSafety.NothingOpen | packages/daemon/src/artifact-watch-manager.ts:453-457 | When the awaited close has resolved, nothing of the loop is open or closing |
| WatchRuns.AcceptedIffCovered | packages/daemon/src/artifact-watch-manager.ts:380-392 | Exactly when a change accepted while watching is waited for: no window was in force, or one of this generation or pending work with a live driver already waits |
| WatchStaleWindow.StaleWindowLosesChange | packages/daemon/src/artifact-watch-manager.ts:361-392 | A concrete run in which a re-admission outpaces the window of the generation before it: a change of the new generation is folded into the old window, which then runs out for nothing |
| WatchRuns.ChangeStaysCovered | packages/daemon/src/artifact-watch-manager.ts:307-378 | A covered change stays covered, while the loop keeps watching and no round throws, until a later round starts |
| WatchRuns.WatchesAgainInFull | packages/daemon/src/artifact-watch-manager.ts:467-468 | Whatever interrupted a loop: by the time its object watches again a full round has started, or is recorded with a driver that will start it, unless a round throws |
| WatchRuns.AcceptedIsServed | packages/daemon/src/artifact-watch-manager.ts:307-478 | A covered change is not lost to a refusal and a re-admission: whenever the loop is watching, however often it stopped in between, a round has started since or the change is still covered, unless a round throws |
| WatchRuns.WindowServes | packages/daemon/src/artifact-watch-manager.ts:367-373 | A window of the current generation that runs out starts a round or hands the work to the driver in force |
| WatchRuns.DriverServes | packages/daemon/src/artifact-watch-manager.ts:333-338 | The driver starts the round that was recorded meanwhile, in the recorded mode |
| WatchRuns.FullIsTakenUp | packages/daemon/src/artifact-watch-manager.ts:347-359 | A full request on a watching loop starts a full round or is recorded as a full one for the driver in force |
| WatchRuns.OwedUntilFull | packages/daemon/src/artifact-watch-manager.ts:305-309 | A recorded full request stays owed, and pending as a full one while watching, until a full round starts, through throws, refusals and re-admissions |
| WatchRuns.NextRoundIsFull | packages/daemon/src/artifact-watch-manager.ts:305-345 | As long as no round throws, the very next round after a recorded full request rehashes everything |
| WatchRuns.RoundsAreCurrent | packages/daemon/src/artifact-watch-manager.ts:228-240 | A round starts only for the loop's current object and generation while it is watching, never after a drain |
| LoopWatches.Watches.Take | packages/daemon/src/artifact-watch-manager.ts:228-634 | Whatever resumes the manager, an applied set, an event, an error, a round, a waiting job, a tick, a close or the drain, the code it runs on the mutable variables up to its next await leaves exactly the state of the proved machine, so that every theorem about its runs holds for the variables |
| LoopWatches.Watches.ParkAll | packages/daemon/src/artifact-watch-manager.ts:505-513 | Every current loop is parked in one go |
| WatchParked.AppliedSetIsInForce | packages/daemon/src/artifact-watch-manager.ts:534-579 | After any run an applied set that differs from the one in force and names each loop once is in force at once: exactly its loops are watched, each by an object of its very item that is neither stopped nor parked; an object whose item did not change is kept as it was; one whose item changed or left is cancelled with its watcher at the end of the close chain; a new one is `admitting` with its admission waiting |
| WatchEffects.SameSetIsSame | packages/daemon/src/artifact-watch-manager.ts:164-172 | A set counts as the one in force exactly when it names the same items, in whatever order |
| WatchParked.RunWhole | packages/daemon/src/artifact-watch-manager.ts:493-513 | Over every run until the drain, an object in force that was stopped is parked, and nothing of a parked object's generation is still under way |
| WatchJobs.MachineStopParksAll | packages/daemon/src/artifact-watch-manager.ts:281-285 | A machine-wide stop parks every loop in force, each with its watcher at the end of its close chain |
| WatchJobs.StoppedMachineStartsNothing | packages/daemon/src/artifact-watch-manager.ts:228-240 | After a machine-wide stop no round of any loop starts until a different set is applied |
| WatchJobs.OutcomeTakesEffect | packages/daemon/src/artifact-watch-manager.ts:280-304 | Any other outcome concerns its own loop only: a stop parks it, a moved configuration and an unusable root rest it, each closing its watcher; an outcome of a replaced object or generation only releases the driver |
| WatchJobs.AdmissionLands | packages/daemon/src/artifact-watch-manager.ts:420-469 | An admission whose root is usable, whose predecessors close and whose watcher gets ready lands: the loop watches, its newest watcher is open, a full round has started or is recorded |
| WatchJobs.RefusalIsReportedOnce | packages/daemon/src/artifact-watch-manager.ts:434-452 | An unusable root rests the loop, and is reported once a generation |
| WatchJobs.TickMeetsAll | packages/daemon/src/artifact-watch-manager.ts:583-584 | A tick walks through exactly the objects in force, each once |
| WatchJobs.TickServes | packages/daemon/src/artifact-watch-manager.ts:583-592 | Its turn gives a watching loop a full round, or records one, and has a refused root checked again |
| WatchJobs.RefusedIsAdmittedAgain | packages/daemon/src/artifact-watch-manager.ts:592-606 | A refused root that is usable again: the same object, one generation further, is about to be admitted and may report anew |
| WatchJobs.ErrorIsReported | packages/daemon/src/artifact-watch-manager.ts:394-416 | The first error of a watched loop opens a window, later ones in it are folded in, and it ends in one report |
| LoopWatches.Watches.ReconcileSet | packages/daemon/src/artifact-watch-manager.ts:534-567 | The two loops over the set: removals first, then an object for every item |
| LoopWatches.Watches.Apply | packages/daemon/src/artifact-watch-manager.ts:569-579 | An unchanged set changes nothing; any other is reconciled before anything else runs |
| LoopWatches.Watches.Drain | packages/daemon/src/artifact-watch-manager.ts:623-634 | Intake ends and every current generation is cancelled and closing |

## Left out

- Transport, routes, login, CLI and process wiring: plumbing over libraries that are not shown.
- Drizzle, PGlite, row locks: one SQL statement is one step; a transaction's writes are one step, its reads are steps of their own. Guard-retry is not part of this model beyond one re-run that then reports the race as lost.
- Assumed of the environment: minted ids are new, a hash is identified with the content behind it (the scanner assumes less: the contents it is given to read have hash texts, and different ones when their lengths differ), every write to a loop row bumps its revision, loop ids are not reused, sessions and manifests are not deleted, and the entries of a request arrive in the sorted order in which the server stores them, as a scan returns them.
- Attribution, clock, blob presence, storage faults and lost commit acknowledgements are arbitrary answers at each step, not computed.
- Unclassified errors inside the server (the raw throw) and the invariant errors it declares unreachable.
- The committed-replay and renewal responses carry no expiry time here; `created` and `reused` are not told apart.
- Daemon sync: one loop per world. Machine and loop stops are one flag; backoff delays, what re-reading a file finds, and the size of the request body are arbitrary answers; an exception inside a round is not modelled there. A call whose caller has aborted may go on until its next await resolves with the abort.
- DaemonSuppression.UnchangedIsTrue: speaks of moments at which no other proposer's session of the loop is committed, as the design assumes; one that is can change the manifest after the record was made.
- ArtifactSafety.UndemandedIsStored: speaks of the metadata row, which stays; that the file was present when it was looked at is PassedOverIsPresent, and files can be lost later.
- DaemonChain: the upload gate is shared by all loops and is modelled on its own, in UploadGate; here a group may start at any time.
- Undisturbed prepares, PUTs and calls take one set of answers for all steps of an operation; the commit is also stated for different ones.
- Getters, proxies, prototypes and `toJSON` of values: a value is a node of a finite graph, read once; the engine's final stringify is an arbitrary answer, and its depth limit a parameter.
- Goal, text, task-file and capability validators, and bounded JSON parsing: short case analyses.
- Numbers in the canonical printer are integers, as the payloads hold; other numbers are not printed.
- Concrete encoders of redaction (base64, hex, percent) and secret collection: the exact forms and needles are arbitrary finite lists; case folding is an arbitrary per-unit function under which the marker stays one unit.
- Decoding captured bytes to text: the kept pieces are byte sequences.
- Runtime: labels, credentials, report bodies, delays and the exit path; a final sync that throws is not modelled.
- Claim: target user and team checks, hash shapes, the resolver check inside the transaction, and the counters of its outcome.
- Claim transaction: the guards of a machine are checked before its rows are moved, where the code updates first and rolls back; the outcome is the same.
- Scan: directory identities and hash-cache bookkeeping are arbitrary answers (unchanged, changed, refused); the cap on a listing appears as a refusal of longer listings.
- WatchParked.AppliedSetIsInForce: speaks of sets that name each loop once, as the server's one row per loop does; a set that repeats a loop is reconciled item by item.
- Watch manager: watcher closes succeed; the 250 ms and 60 s delays and the drain deadline elapse at any time; the digest, logging and settle counters; more than one tick may be under way, which only adds behaviour; a sync report answers with a root failure only when it was asked to report one.
- Unix signals, spawning, hash cache, jail intersection, view mappers, config parsing, the stream parser of the agent's output and the fake server: they would add easy members only.
