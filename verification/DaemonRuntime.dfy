/**
 The daemon's execution pipeline: one run at a time, an outbox of unconfirmed
 reports that counts as occupied capacity, and a progress snapshot that rotates
 through the queue. Each method is the code between two awaits.
 */
module DaemonRuntime {
  import opened UniqueSeq

  type RunId = nat

  const PROGRESS_SEND_CAP: nat := 20
  const STEP_QUEUED: nat := 0
  const STEP_STARTING: nat := 1

  datatype Outcome = Confirmed | RetryLater | FatalOutcome

  /** Where an in-flight run stands: its runner still active, or settled and
      waiting for the final sync. */
  datatype Stage = Active | Settled(controlFailed: bool)

  // ---- The state and its steps ----

  /** `order` and `steps` are the activity map: keys in insertion order, and their
      steps. `arrived`, `started` and `dropped` remember every run in order. */
  datatype State = State(queue: seq<RunId>, inFlight: set<RunId>, pendingReports: map<RunId, nat>,
                         order: seq<RunId>, steps: map<RunId, nat>, stage: map<RunId, Stage>,
                         rotationCursor: nat, fatal: bool, aborted: bool,
                         arrived: seq<RunId>, started: seq<RunId>, dropped: seq<RunId>)

  const IDLE := State([], {}, map[], [], map[], map[], 0, false, false, [], [], [])

  predicate ExecutionIdle(s: State) { s.inFlight == {} && s.pendingReports == map[] }

  /** The capacity gate: a queued run starts only when nothing executes and no
      report is unconfirmed. */
  function StartNext(s: State): State {
    if s.fatal || s.aborted || !ExecutionIdle(s) || s.queue == [] then s
    else
      var next := s.queue[0];
      s.(queue := s.queue[1..], inFlight := {next}, stage := s.stage[next := Active],
         steps := s.steps[next := STEP_STARTING], started := s.started + [next])
  }

  function Enqueue(s: State, id: RunId): State {
    StartNext(s.(steps := s.steps[id := STEP_QUEUED], order := s.order + [id], queue := s.queue + [id],
                 arrived := s.arrived + [id]))
  }

  /** Deliveries in wire order; a run already known is skipped. */
  function Dispatch(s: State, deliveries: seq<RunId>): State {
    if s.fatal || deliveries == [] then s
    else
      var t := Dispatch(s, deliveries[..|deliveries| - 1]);
      var id := deliveries[|deliveries| - 1];
      if id in t.steps || id in deliveries[..|deliveries| - 1] then t else Enqueue(t, id)
  }

  function DropQueue(s: State): State {
    s.(queue := [], order := WithoutAll(s.order, s.queue), steps := s.steps - (set id | id in s.queue),
       dropped := s.dropped + s.queue)
  }

  function SetFatal(s: State): State { DropQueue(s.(fatal := true, aborted := true)) }

  function Progress(s: State, id: RunId, empty: bool): State {
    if id !in s.inFlight || id !in s.stage || !s.stage[id].Active? || id !in s.steps || empty then s
    else s.(steps := s.steps[id := s.steps[id] + 1])
  }

  function RunnerSettled(s: State, id: RunId, controlFailed: bool): State {
    if id !in s.inFlight || id !in s.stage || !s.stage[id].Active? then s
    else
      var step := if id in s.steps then s.steps[id] else STEP_STARTING;
      s.(steps := s.steps[id := step + 1], stage := s.stage[id := Settled(controlFailed)])
  }

  /** The final sync is over: the report becomes pending in the same instant in which
      the slot is released. A process-control failure drops the queue for good. */
  function Finish(s: State, id: RunId): State {
    if id !in s.inFlight || id !in s.stage || !s.stage[id].Settled? then s
    else
      var failed := s.stage[id].controlFailed;
      var t := s.(pendingReports := s.pendingReports[id := if s.aborted then 0 else 1],
                  inFlight := s.inFlight - {id}, stage := s.stage - {id});
      if failed then DropQueue(t.(fatal := true)) else t
  }

  /** The entries of a confirmed run are gone. */
  function Freed(s: State, id: RunId): State {
    s.(pendingReports := s.pendingReports - {id}, order := Without(s.order, id), steps := s.steps - {id})
  }

  function Reported(s: State, id: RunId, outcome: Outcome): State {
    if id !in s.pendingReports || s.aborted then s
    else
      match outcome
      case Confirmed =>
        StartNext(Freed(s, id))
      case RetryLater => s
      case FatalOutcome => SetFatal(s)
  }

  /** The retry timer of a pending report. */
  function RetryReport(s: State, id: RunId): State {
    if s.aborted || id !in s.pendingReports then s
      else s.(pendingReports := s.pendingReports[id := s.pendingReports[id] + 1])
  }

  datatype Event =
    | Poll(deliveries: seq<RunId>)
    | PollFatal
    | Collect
    | RunnerProgress(id: RunId, empty: bool)
    | RunnerDone(id: RunId, controlFailed: bool)
    | SyncDone(id: RunId)
    | ReportAnswer(id: RunId, outcome: Outcome)
    | RetryTimer(id: RunId)
    | Abort
    | Shutdown

  function Next(s: State, e: Event): State {
    match e
    case Poll(deliveries) => Dispatch(s, deliveries)
    case PollFatal => SetFatal(s)
    case Collect => s.(rotationCursor := NextCursor(s))
    case RunnerProgress(id, empty) => Progress(s, id, empty)
    case RunnerDone(id, controlFailed) => RunnerSettled(s, id, controlFailed)
    case SyncDone(id) => Finish(s, id)
    case ReportAnswer(id, outcome) => Reported(s, id, outcome)
    case RetryTimer(id) => RetryReport(s, id)
    case Abort => s.(aborted := true)
    case Shutdown => DropQueue(s.(aborted := true))
  }

  function Run(events: seq<Event>): State {
    if events == [] then IDLE else Next(Run(events[..|events| - 1]), events[|events| - 1])
  }

  // ---- What every reachable state satisfies ----

  /** At most one run executing or unconfirmed. */
  ghost predicate CapacityOk(s: State) {
    && (forall a, b :: a in Busy(s) && b in Busy(s) ==> a == b)
    && s.inFlight !! s.pendingReports.Keys && s.stage.Keys == s.inFlight
  }

  /** The runs that occupy capacity. */
  function Busy(s: State): set<RunId> { s.inFlight + s.pendingReports.Keys }

  /** The activity keys are exactly the queued, executing and reporting runs; step 0
      means queued. */
  ghost predicate ActivityOk(s: State) {
    && Distinct(s.queue) && Distinct(s.order)
    && (forall id :: id in s.order <==> id in s.steps)
    && (forall id :: id in s.steps <==> id in s.queue || id in Busy(s))
    && (forall id :: id in s.queue ==> id !in Busy(s))
    && (forall id :: id in s.steps ==> (s.steps[id] == STEP_QUEUED <==> id in s.queue))
  }

  /** Arrival order: started runs first, then those dropped unstarted, then the queue;
      and a run waits only behind one that executes or is unconfirmed. */
  ghost predicate OrderOk(s: State) {
    && s.arrived == s.started + s.dropped + s.queue && (s.dropped != [] ==> s.fatal || s.aborted)
    && (s.fatal ==> s.queue == [])
  }

  ghost predicate NoLostWakeup(s: State) { s.queue != [] && !s.fatal && !s.aborted ==> !ExecutionIdle(s) }

  ghost predicate Ok(s: State) { CapacityOk(s) && ActivityOk(s) && OrderOk(s) && NoLostWakeup(s) }

  /** What no event may do: lower a step, unsay a fatal or an abort, start anything
      after one, or start out of turn. */
  ghost predicate Continues(s: State, t: State) {
    && (forall id :: id in s.steps && id in t.steps ==> s.steps[id] <= t.steps[id])
    && (s.fatal ==> t.fatal) && (s.aborted ==> t.aborted)
    && s.started <= t.started && (s.fatal || s.aborted ==> t.started == s.started)
    && s.arrived <= t.arrived
  }

  lemma StartNextKeeps(s: State)
    requires CapacityOk(s) && ActivityOk(s) && OrderOk(s)
    ensures Ok(StartNext(s)) && Continues(s, StartNext(s))
  {
    var t := StartNext(s);
    if t != s {
      StartNextActivity(s);
      hide Distinct, ActivityOk;
      StartNextOrder(s);
      hide OrderOk;
      assert Busy(t) == {s.queue[0]};
    }
  }

  lemma StartNextOrder(s: State)
    requires OrderOk(s) && StartNext(s) != s
    ensures OrderOk(StartNext(s))
  {
    var t := StartNext(s);
    assert s.queue == [s.queue[0]] + s.queue[1..];
    assert t.arrived == t.started + t.dropped + t.queue by { assert s.dropped == []; }
  }

  lemma StartNextActivity(s: State)
    requires CapacityOk(s) && ActivityOk(s) && StartNext(s) != s
    ensures ActivityOk(StartNext(s)) && forall id :: id in s.steps ==> s.steps[id] <= StartNext(s).steps[id]
  {
    DistinctHead(s.queue);
    hide Distinct, OrderOk;
  }

  lemma EnqueueKeeps(s: State, id: RunId)
    requires Ok(s) && id !in s.steps && !s.fatal
    ensures Ok(Enqueue(s, id)) && Continues(s, Enqueue(s, id)) && !Enqueue(s, id).fatal
    ensures forall x :: x in Enqueue(s, id).steps <==> x in s.steps || x == id
    ensures Enqueue(s, id).arrived == s.arrived + [id]
  {
    var t := s.(steps := s.steps[id := STEP_QUEUED], order := s.order + [id], queue := s.queue + [id],
                arrived := s.arrived + [id]);
    QueuedActivity(s, id);
    hide Distinct, ActivityOk;
    assert t.arrived == t.started + t.dropped + t.queue;
    assert CapacityOk(t) by { assert Busy(t) == Busy(s); }
    StartNextKeeps(t);
    assert forall x :: x in StartNext(t).steps <==> x in t.steps by { QueueIsKnown(t); }
    ContinuesTransitive(s, t, StartNext(t));
  }

  lemma QueueIsKnown(s: State)
    requires ActivityOk(s)
    ensures s.queue != [] ==> s.queue[0] in s.steps
  {
  }

  lemma QueuedActivity(s: State, id: RunId)
    requires ActivityOk(s) && id !in s.steps
    ensures ActivityOk(s.(steps := s.steps[id := STEP_QUEUED], order := s.order + [id], queue := s.queue + [id],
                          arrived := s.arrived + [id]))
  {
    DistinctAppend(s.queue, id);
    DistinctAppend(s.order, id);
    hide Distinct;
  }

  lemma ContinuesTransitive(s: State, t: State, u: State)
    requires Continues(s, t) && Continues(t, u) && forall id :: id in s.steps && id in u.steps ==> id in t.steps
    ensures Continues(s, u)
  {
  }

  /** A poll adds exactly the deliveries not already known, in their order. */
  lemma {:induction false} DispatchKeeps(s: State, deliveries: seq<RunId>)
    requires Ok(s)
    ensures Ok(Dispatch(s, deliveries)) && Continues(s, Dispatch(s, deliveries))
    ensures !s.fatal ==> !Dispatch(s, deliveries).fatal
    ensures !s.fatal ==> forall x :: x in Dispatch(s, deliveries).steps <==> x in s.steps || x in deliveries
  {
    if !s.fatal && deliveries != [] {
      var before, id := deliveries[..|deliveries| - 1], deliveries[|deliveries| - 1];
      assert deliveries == before + [id];
      DispatchKeeps(s, before);
      var t := Dispatch(s, before);
      if id !in t.steps {
        EnqueueKeeps(t, id);
        ContinuesTransitive(s, t, Enqueue(t, id));
      }
    }
  }

  lemma DropQueueKeeps(s: State)
    requires CapacityOk(s) && ActivityOk(s) && s.arrived == s.started + s.dropped + s.queue && (s.fatal || s.aborted)
    ensures Ok(DropQueue(s)) && Continues(s, DropQueue(s)) && forall id :: id in DropQueue(s).steps ==> id in s.steps
  {
    WithoutAllDistinct(s.order, s.queue);
    hide Distinct;
  }

  lemma NextKeeps(s: State, e: Event)
    requires Ok(s)
    ensures Ok(Next(s, e)) && Continues(s, Next(s, e))
  {
    hide Ok, Continues, DropQueue, Dispatch, Finish, Reported, Progress, RunnerSettled, RetryReport, NextCursor;
    match e
    case Poll(deliveries) => DispatchKeeps(s, deliveries);
    case PollFatal => ShutKeeps(s, true);
    case SyncDone(id) => FinishKeeps(s, id);
    case ReportAnswer(id, outcome) => ReportedKeeps(s, id, outcome);
    case Shutdown => ShutKeeps(s, s.fatal);
    case RunnerProgress(id, empty) => ProgressKeeps(s, id, empty);
    case RunnerDone(id, controlFailed) => SettledKeeps(s, id, controlFailed);
    case Collect => QuietKeeps(s, NextCursor(s), s.pendingReports, s.aborted);
    case Abort => QuietKeeps(s, s.rotationCursor, s.pendingReports, true);
    case RetryTimer(id) => RetryKeeps(s, id);
  }

  lemma ShutKeeps(s: State, fatal: bool)
    requires Ok(s) && (s.fatal ==> fatal)
    ensures var t := DropQueue(s.(fatal := fatal, aborted := true)); Ok(t) && Continues(s, t)
  {
    hide Distinct;
    DropQueueKeeps(s.(fatal := fatal, aborted := true));
  }

  /** Cursor moves, retry timers and an abort change nothing else. */
  lemma QuietKeeps(s: State, cursor: nat, attempts: map<RunId, nat>, aborted: bool)
    requires Ok(s) && attempts.Keys == s.pendingReports.Keys && (s.aborted ==> aborted)
    ensures
      var t := s.(rotationCursor := cursor, pendingReports := attempts, aborted := aborted);
      Ok(t) && Continues(s, t)
  {
    hide Distinct;
  }

  lemma RetryKeeps(s: State, id: RunId)
    requires Ok(s)
    ensures Ok(RetryReport(s, id)) && Continues(s, RetryReport(s, id))
  {
    hide Ok, Continues;
    if s.aborted || id !in s.pendingReports {
      QuietKeeps(s, s.rotationCursor, s.pendingReports, s.aborted);
    } else {
      QuietKeeps(s, s.rotationCursor, s.pendingReports[id := s.pendingReports[id] + 1], s.aborted);
    }
  }

  lemma ProgressKeeps(s: State, id: RunId, empty: bool)
    requires Ok(s)
    ensures Ok(Progress(s, id, empty)) && Continues(s, Progress(s, id, empty))
  {
    hide Distinct;
  }

  lemma SettledKeeps(s: State, id: RunId, controlFailed: bool)
    requires Ok(s)
    ensures Ok(RunnerSettled(s, id, controlFailed)) && Continues(s, RunnerSettled(s, id, controlFailed))
  {
    hide Distinct;
  }

  lemma FinishKeeps(s: State, id: RunId)
    requires Ok(s)
    ensures Ok(Finish(s, id)) && Continues(s, Finish(s, id))
  {
    hide Distinct;
    if id in s.inFlight && id in s.stage && s.stage[id].Settled? {
      var t := s.(pendingReports := s.pendingReports[id := if s.aborted then 0 else 1],
                  inFlight := s.inFlight - {id}, stage := s.stage - {id});
      if s.stage[id].controlFailed { DropQueueKeeps(t.(fatal := true)); }
    }
  }

  lemma ConfirmFrees(s: State, id: RunId)
    requires Ok(s) && id in s.pendingReports && !s.aborted
    ensures var t := Freed(s, id); CapacityOk(t) && ActivityOk(t) && OrderOk(t) && Continues(s, t)
  {
    hide Distinct, ActivityOk;
    FreedActivity(s, id);
    assert forall a :: a in Busy(Freed(s, id)) ==> a in Busy(s);
  }

  lemma FreedActivity(s: State, id: RunId)
    requires CapacityOk(s) && ActivityOk(s) && id in s.pendingReports
    ensures ActivityOk(Freed(s, id))
  {
    WithoutDistinct(s.order, id);
    hide Distinct;
  }

  lemma StartNextKnows(s: State)
    requires ActivityOk(s)
    ensures StartNext(s).steps.Keys == s.steps.Keys
  {
    QueueIsKnown(s);
  }

  lemma ReportedKeeps(s: State, id: RunId, outcome: Outcome)
    requires Ok(s)
    ensures Ok(Reported(s, id, outcome)) && Continues(s, Reported(s, id, outcome))
  {
    if id in s.pendingReports && !s.aborted {
      if outcome.Confirmed? {
        ConfirmFrees(s, id);
        hide Ok, StartNext, OrderOk, ActivityOk, CapacityOk, Continues;
        var t := Freed(s, id);
        StartNextKeeps(t);
        StartNextKnows(t);
        ContinuesTransitive(s, t, StartNext(t));
      } else if outcome.FatalOutcome? {
        DropQueueKeeps(s.(fatal := true, aborted := true));
      }
    }
  }

  /** Over every run of events: fixed concurrency one, exact activity keys, first come
      first served, and no queued run left waiting behind an idle pipeline. */
  lemma {:induction false} RuntimeIsSafe(events: seq<Event>)
    ensures Ok(Run(events))
  {
    if events != [] {
      RuntimeIsSafe(events[..|events| - 1]);
      NextKeeps(Run(events[..|events| - 1]), events[|events| - 1]);
    }
  }

  /** From any reachable state on: once a fatal or an abort is set, nothing starts
      ever again; and runs start in the order they arrived. */
  lemma NothingStartsAfterFatal(events: seq<Event>, e: Event)
    ensures var s, t := Run(events), Run(events + [e]);
            && (s.fatal || s.aborted ==> t.started == s.started && (t.fatal || t.aborted))
            && t.started <= t.arrived && s.started <= t.started
  {
    RuntimeIsSafe(events);
    NextKeeps(Run(events), e);
    RuntimeIsSafe(events + [e]);
    assert (events + [e])[..|events|] == events;
    StartedFirst(Run(events + [e]));
  }

  lemma StartedFirst(s: State)
    requires OrderOk(s)
    ensures s.started <= s.arrived
  {
  }

  // ---- The progress snapshot ----

  function QueuedOf(s: State): seq<RunId> { Filter(s.order, s.steps, true) }
  function MustOf(s: State): seq<RunId> { Filter(s.order, s.steps, false) }

  /** Keys in map order whose step is (or is not) the queued one. */
  function Filter(order: seq<RunId>, steps: map<RunId, nat>, queued: bool): (r: seq<RunId>)
    ensures forall x :: x in r <==> x in order && x in steps && (steps[x] == STEP_QUEUED) == queued
  {
    if order == [] then []
    else
      var id := order[|order| - 1];
      var rest := Filter(order[..|order| - 1], steps, queued);
      assert order == order[..|order| - 1] + [id];
      if id in steps && (steps[id] == STEP_QUEUED) == queued then rest + [id] else rest
  }

  /** How many queued entries ride this poll. */
  function Room(must: nat, queued: nat): nat {
    var room := if must < PROGRESS_SEND_CAP then PROGRESS_SEND_CAP - must else 0;
    if room < queued then room else queued
  }

  function Position(cursor: nat, i: nat, n: nat): (p: nat)
    requires n > 0
    ensures p < n
  {
    (cursor % n + i) % n
  }

  /** The queued entries of one poll, from the cursor on, wrapping around. */
  function Slice(queued: seq<RunId>, cursor: nat, count: nat): (r: seq<RunId>)
    requires queued != [] && count <= |queued|
    ensures |r| == count
  {
    seq(count, i requires 0 <= i < count => queued[Position(cursor, i, |queued|)])
  }

  function Advance(cursor: nat, count: nat, n: nat): nat
    requires n > 0
  {
    (cursor % n + count) % n
  }

  function NextCursor(s: State): nat {
    var n, count := |QueuedOf(s)|, Room(|MustOf(s)|, |QueuedOf(s)|);
    if count == 0 || n == 0 then s.rotationCursor else Advance(s.rotationCursor, count, n)
  }

  function Snapshot(s: State): seq<RunId> {
    var queued, count := QueuedOf(s), Room(|MustOf(s)|, |QueuedOf(s)|);
    MustOf(s) + (if count == 0 || queued == [] then [] else Slice(queued, s.rotationCursor, count))
  }

  /** Every executing or unconfirmed run rides every poll, which never exceeds the cap. */
  lemma BusyRidesEveryPoll(s: State)
    requires Ok(s)
    ensures |Snapshot(s)| <= PROGRESS_SEND_CAP
    ensures forall id :: id in Busy(s) ==> id in Snapshot(s)
  {
    MustIsFew(s);
  }

  lemma FirstTwoDiffer(s: seq<RunId>)
    requires Distinct(s) && |s| >= 2
    ensures s[0] != s[1]
  {
  }

  lemma {:induction false} FilterDistinct(order: seq<RunId>, steps: map<RunId, nat>, queued: bool)
    requires Distinct(order)
    ensures Distinct(Filter(order, steps, queued))
  {
    if order != [] {
      var n := |order| - 1;
      FilterDistinct(order[..n], steps, queued);
      assert order[n] !in order[..n];
    }
  }

  /** The cursor after k polls that each send `count` of n fixed entries. */
  function CursorAfter(cursor: nat, count: nat, n: nat, k: nat): nat
    requires n > 0
  {
    if k == 0 then cursor else Advance(CursorAfter(cursor, count, n, k - 1), count, n)
  }

  /** Entry j is among those sent from the cursor on. */
  predicate Sent(cursor: nat, count: nat, n: nat, j: nat)
    requires n > 0
  {
    exists i: nat :: i < count && Position(cursor, i, n) == j
  }

  /** How far ahead of the cursor entry j lies. */
  function Ahead(cursor: nat, n: nat, j: nat): (d: nat)
    requires j < n
    ensures d < n
  {
    if j >= cursor % n then j - cursor % n else j + n - cursor % n
  }

  lemma AheadIsSent(cursor: nat, count: nat, n: nat, j: nat)
    requires j < n && Ahead(cursor, n, j) < count
    ensures Sent(cursor, count, n, j)
  {
    var d := Ahead(cursor, n, j);
    Wraps(cursor % n + d, n);
    assert Position(cursor, d, n) == j;
  }

  lemma AheadShrinks(cursor: nat, count: nat, n: nat, j: nat)
    requires j < n && count <= Ahead(cursor, n, j)
    ensures Ahead(Advance(cursor, count, n), n, j) == Ahead(cursor, n, j) - count
  {
    var c := cursor % n;
    Wraps(c + count, n);
    Wraps(Advance(cursor, count, n), n);
  }

  lemma Wraps(x: nat, n: nat)
    requires 0 < n && x < 2 * n
    ensures x % n == if x < n then x else x - n
  {
  }

  /** With n fixed queued runs and room for `count` a poll, every one of them is sent
      within the first k polls as soon as k * count >= n. */
  lemma {:induction false} RotationCovers(cursor: nat, count: nat, n: nat, k: nat, j: nat) returns (poll: nat)
    requires 0 < count && j < n && Ahead(cursor, n, j) < k * count
    ensures poll < k && Sent(CursorAfter(cursor, count, n, poll), count, n, j)
    decreases k
  {
    if Ahead(cursor, n, j) < count {
      assert k > 0;
      AheadIsSent(cursor, count, n, j);
      poll := 0;
    } else {
      AheadShrinks(cursor, count, n, j);
      assert (k - 1) * count == k * count - count;
      var rest := RotationCovers(Advance(cursor, count, n), count, n, k - 1, j);
      poll := rest + 1;
      CursorShift(cursor, count, n, rest);
    }
  }

  lemma {:induction false} CursorShift(cursor: nat, count: nat, n: nat, k: nat)
    requires n > 0
    ensures CursorAfter(Advance(cursor, count, n), count, n, k) == CursorAfter(cursor, count, n, k + 1)
  {
    if k > 0 { CursorShift(cursor, count, n, k - 1); }
  }

  /** ceil(n / count). */
  function CeilPolls(n: nat, count: nat): nat
    requires count > 0
  {
    (n + count - 1) / count
  }

  /** ceil(n / count) polls suffice. */
  lemma WithinCeilPolls(cursor: nat, count: nat, n: nat, j: nat) returns (poll: nat)
    requires 0 < count && j < n
    ensures poll < CeilPolls(n, count) && Sent(CursorAfter(cursor, count, n, poll), count, n, j)
  {
    var k := CeilPolls(n, count);
    assert k * count >= n;
    poll := RotationCovers(cursor, count, n, k, j);
  }

  /** k polls during which nothing else happens. */
  function Polls(s: State, k: nat): State {
    if k == 0 then s else Next(Polls(s, k - 1), Collect)
  }

  lemma {:induction false} PollsMoveTheCursor(s: State, k: nat)
    requires QueuedOf(s) != [] && Room(|MustOf(s)|, |QueuedOf(s)|) > 0
    ensures Polls(s, k)
      == s.(rotationCursor := CursorAfter(s.rotationCursor, Room(|MustOf(s)|, |QueuedOf(s)|), |QueuedOf(s)|, k))
  {
    if k > 0 { PollsMoveTheCursor(s, k - 1); }
  }

  function RoomOf(s: State): nat { Room(|MustOf(s)|, |QueuedOf(s)|) }

  /** While the queue stays as it is, every queued run is reported within
      ceil(queued / room) polls, and room is at least 19. */
  lemma QueuedRunIsReported(s: State, id: RunId) returns (k: nat)
    requires Ok(s) && id in QueuedOf(s)
    ensures 0 < RoomOf(s) && (RoomOf(s) == |QueuedOf(s)| || RoomOf(s) >= PROGRESS_SEND_CAP - 1)
    ensures k < CeilPolls(|QueuedOf(s)|, RoomOf(s)) && id in Snapshot(Polls(s, k))
  {
    hide *;
    var queued, room := QueuedOf(s), RoomOf(s);
    RoomIsLarge(s);
    var j: nat :| j < |queued| && queued[j] == id;
    k := WithinCeilPolls(s.rotationCursor, room, |queued|, j);
    SentIsReported(s, k, j);
  }

  lemma RoomIsLarge(s: State)
    requires Ok(s) && QueuedOf(s) != []
    ensures 0 < RoomOf(s) <= |QueuedOf(s)| && (RoomOf(s) == |QueuedOf(s)| || RoomOf(s) >= PROGRESS_SEND_CAP - 1)
  {
    MustIsFew(s);
    hide Ok, MustOf, QueuedOf;
  }

  lemma SentIsReported(s: State, k: nat, j: nat)
    requires j < |QueuedOf(s)| && 0 < RoomOf(s) <= |QueuedOf(s)|
    requires Sent(CursorAfter(s.rotationCursor, RoomOf(s), |QueuedOf(s)|, k), RoomOf(s), |QueuedOf(s)|, j)
    ensures QueuedOf(s)[j] in Snapshot(Polls(s, k))
  {
    hide Position, CursorAfter, Snapshot, MustOf, QueuedOf, Room, Polls;
    var room, n := RoomOf(s), |QueuedOf(s)|;
    var at := CursorAfter(s.rotationCursor, room, n, k);
    PollsMoveTheCursor(s, k);
    var i: nat :| i < room && Position(at, i, n) == j;
    InSnapshot(s, at, i);
  }

  lemma InSnapshot(s: State, cursor: nat, i: nat)
    requires QueuedOf(s) != [] && i < Room(|MustOf(s)|, |QueuedOf(s)|) <= |QueuedOf(s)|
    ensures QueuedOf(s)[Position(cursor, i, |QueuedOf(s)|)] in Snapshot(s.(rotationCursor := cursor))
  {
    hide Position;
    var queued, room := QueuedOf(s), Room(|MustOf(s)|, |QueuedOf(s)|);
    assert Slice(queued, cursor, room)[i] == queued[Position(cursor, i, |queued|)];
  }

  lemma MustIsFew(s: State)
    requires Ok(s)
    ensures |MustOf(s)| <= 1
  {
    FilterDistinct(s.order, s.steps, false);
    var must := MustOf(s);
    forall i, j | 0 <= i < |must| && 0 <= j < |must| ensures must[i] == must[j] {
      assert must[i] in must && must[j] in must;
      assert must[i] in Busy(s) && must[j] in Busy(s);
    }
    if |must| >= 2 { FirstTwoDiffer(must); }
  }

  ghost predicate SeenIs(seen: set<RunId>, s: seq<RunId>) { forall id :: id in seen <==> id in s }

  lemma NothingDispatched(s: State, deliveries: seq<RunId>)
    ensures Dispatch(s, deliveries[..0]) == s && SeenIs({}, deliveries[..0])
      && (s.fatal ==> Dispatch(s, deliveries) == s)
  {
  }

  lemma DispatchStep(s: State, deliveries: seq<RunId>, i: nat, seen: set<RunId>)
    requires i < |deliveries| && !s.fatal && SeenIs(seen, deliveries[..i])
    ensures
      var t := Dispatch(s, deliveries[..i]); var id := deliveries[i];
      && Dispatch(s, deliveries[..i + 1]) == (if id in t.steps || id in seen then t else Enqueue(t, id))
      && SeenIs(seen + {id}, deliveries[..i + 1])
      && (id in seen ==> seen + {id} == seen)
  {
    var more := deliveries[..i + 1];
    assert more[..i] == deliveries[..i] && more[i] == deliveries[i];
    assert more == deliveries[..i] + [deliveries[i]];
  }

  function Kept(id: RunId, steps: map<RunId, nat>, queued: bool): seq<RunId> {
    if id in steps && (steps[id] == STEP_QUEUED) == queued then [id] else []
  }

  lemma FilterStep(order: seq<RunId>, steps: map<RunId, nat>, i: nat)
    requires i < |order|
    ensures forall queued ::
      Filter(order[..i + 1], steps, queued) == Filter(order[..i], steps, queued) + Kept(order[i], steps, queued)
  {
    assert order[..i + 1][..i] == order[..i] && order[..i + 1][i] == order[i];
  }

  lemma KnownKeys(s: State)
    requires Ok(s)
    ensures forall id :: id in s.order <==> id in s.steps
  {
  }

  // ---- The variables changed in place ----

  class Runtime {
    var queue: seq<RunId>
    var inFlight: set<RunId>
    var pendingReports: map<RunId, nat>
    var order: seq<RunId>
    var steps: map<RunId, nat>
    var stage: map<RunId, Stage>
    var rotationCursor: nat
    var fatal: bool
    var aborted: bool
    ghost var arrived: seq<RunId>
    ghost var started: seq<RunId>
    ghost var dropped: seq<RunId>

    ghost function Now(): State
      reads this
    {
      State(queue, inFlight, pendingReports, order, steps, stage, rotationCursor, fatal, aborted, arrived, started,
            dropped)
    }

    constructor ()
      ensures Now() == IDLE
    {
      queue, inFlight, pendingReports, order, steps, stage := [], {}, map[], [], map[], map[];
      rotationCursor, fatal, aborted, arrived, started, dropped := 0, false, false, [], [], [];
    }

    method MaybeStartNext()
      modifies this
      ensures Now() == StartNext(old(Now()))
    {
      if fatal || aborted || inFlight != {} || pendingReports != map[] || queue == [] { return; }
      var next := queue[0];
      queue := queue[1..];
      inFlight := inFlight + {next};
      stage := stage[next := Active];
      steps := steps[next := STEP_STARTING];
      started := started + [next];
    }

    method EnqueueDelivery(id: RunId)
      requires id !in order
      modifies this
      ensures Now() == Enqueue(old(Now()), id)
    {
      steps := steps[id := STEP_QUEUED];
      order := order + [id];
      queue := queue + [id];
      arrived := arrived + [id];
      MaybeStartNext();
    }

    method HandlePoll(deliveries: seq<RunId>)
      requires Ok(Now())
      modifies this
      ensures Now() == Dispatch(old(Now()), deliveries) && Ok(Now())
    {
      hide Ok, CapacityOk, ActivityOk, OrderOk, Busy, StartNext, Enqueue, Dispatch, SeenIs, Distinct;
      ghost var was := Now();
      NothingDispatched(was, deliveries);
      if fatal { return; }
      var seen: set<RunId> := {};
      var i := 0;
      while i < |deliveries|
        invariant 0 <= i <= |deliveries| && Now() == Dispatch(was, deliveries[..i])
        invariant Ok(Now()) && !fatal && SeenIs(seen, deliveries[..i])
      {
        DispatchStep(was, deliveries, i, seen);
        KnownKeys(Now());
        var id := deliveries[i];
        if id !in seen {
          seen := seen + {id};
          if id !in steps {
            EnqueueKeeps(Now(), id);
            EnqueueDelivery(id);
          }
        }
        i := i + 1;
      }
      assert deliveries[..i] == deliveries;
    }

    method DropNeverStartedQueue()
      modifies this
      ensures Now() == DropQueue(old(Now()))
    {
      ForgetRuns(queue);
      dropped := dropped + queue;
      queue := [];
    }

    method ForgetRuns(runs: seq<RunId>)
      modifies this`order, this`steps
      ensures order == WithoutAll(old(order), runs) && steps == old(steps) - (set id | id in runs)
    {
      var i := 0;
      while i < |runs|
        invariant 0 <= i <= |runs| && order == WithoutAll(old(order), runs[..i])
        invariant steps == old(steps) - (set id | id in runs[..i])
      {
        assert runs[..i + 1][..i] == runs[..i];
        order := Without(order, runs[i]);
        steps := steps - {runs[i]};
        i := i + 1;
      }
      assert runs[..i] == runs;
    }

    method Fail()
      modifies this
      ensures Now() == SetFatal(old(Now()))
    {
      fatal := true;
      aborted := true;
      DropNeverStartedQueue();
    }

    /** The per-poll snapshot: busy runs first, then the rotating slice of the queue. */
    method CollectProgress() returns (out: seq<RunId>)
      modifies this
      ensures out == Snapshot(old(Now())) && Now() == Next(old(Now()), Collect)
    {
      var must, queued := SplitActivities();
      out := must;
      if |must| < PROGRESS_SEND_CAP && |queued| > 0 {
        var start, count := rotationCursor % |queued|, Room(|must|, |queued|);
        var slice := TakeRotating(queued, rotationCursor, count);
        out := out + slice;
        rotationCursor := (start + count) % |queued|;
      }
    }

    method SplitActivities() returns (must: seq<RunId>, queued: seq<RunId>)
      ensures queued == Filter(order, steps, true) && must == Filter(order, steps, false)
    {
      must, queued := [], [];
      var i := 0;
      while i < |order|
        invariant 0 <= i <= |order|
        invariant queued == Filter(order[..i], steps, true) && must == Filter(order[..i], steps, false)
      {
        FilterStep(order, steps, i);
        hide Filter;
        if order[i] in steps {
          if steps[order[i]] == STEP_QUEUED { queued := queued + [order[i]]; } else { must := must + [order[i]]; }
        }
        i := i + 1;
      }
      assert order[..i] == order;
    }

    method TakeRotating(queued: seq<RunId>, cursor: nat, count: nat) returns (out: seq<RunId>)
      requires queued != [] && count <= |queued|
      ensures out == Slice(queued, cursor, count)
    {
      hide Position;
      out := [];
      var k := 0;
      while k < count
        invariant 0 <= k <= count && |out| == k
        invariant forall i :: 0 <= i < k ==> out[i] == queued[Position(cursor, i, |queued|)]
      {
        out := out + [queued[Position(cursor, k, |queued|)]];
        k := k + 1;
      }
    }

    /** A progress callback: only while the runner is active, and only with a label. */
    method OnProgress(id: RunId, empty: bool)
      modifies `steps
      ensures Now() == Progress(old(Now()), id, empty)
    {
      if id !in inFlight || id !in stage || stage[id] != Active { return; }
      if id !in steps || empty { return; }
      steps := steps[id := steps[id] + 1];
    }

    method OnRunnerSettled(id: RunId, controlFailed: bool)
      modifies `steps, `stage
      ensures Now() == RunnerSettled(old(Now()), id, controlFailed)
    {
      if id !in inFlight || id !in stage || stage[id] != Active { return; }
      var current := if id in steps then steps[id] else STEP_STARTING;
      steps := steps[id := current + 1];
      stage := stage[id := Settled(controlFailed)];
    }

    /** The answer to a report. Confirmed, its entries go and the capacity it held is
        free. */
    method OnReport(id: RunId, outcome: Outcome)
      modifies this
      ensures Now() == Reported(old(Now()), id, outcome)
    {
      if id !in pendingReports || aborted { return; }
      match outcome {
        case Confirmed =>
          pendingReports := pendingReports - {id};
          order := Without(order, id);
          steps := steps - {id};
          MaybeStartNext();
        case RetryLater =>
        case FatalOutcome => Fail();
      }
    }

    /** No await between the two writes: the slot never looks free in between. */
    method FinishRun(id: RunId)
      modifies this
      ensures Now() == Finish(old(Now()), id)
    {
      if id !in inFlight || id !in stage || stage[id] == Active { return; }
      var failed := stage[id].controlFailed;
      ReleaseSlot(id);
      if failed {
        fatal := true;
        DropNeverStartedQueue();
      }
      if !aborted { pendingReports := pendingReports[id := 1]; }
    }

    method ReleaseSlot(id: RunId)
      modifies `pendingReports, `inFlight, `stage
      ensures pendingReports == old(pendingReports)[id := 0] && inFlight == old(inFlight) - {id}
        && stage == old(stage) - {id}
    {
      pendingReports := pendingReports[id := 0];
      inFlight := inFlight - {id};
      stage := stage - {id};
    }

    /** Whatever happens next, the code that it runs leaves the state of the proved
        machine. A poll's answer is a list of deliveries. */
    method Take(e: Event)
      requires Ok(Now())
      modifies this
      ensures Now() == Next(old(Now()), e) && Ok(Now())
    {
      hide Ok;
      NextKeeps(Now(), e);
      match e {
        case Poll(deliveries) => HandlePoll(deliveries);
        case PollFatal => Fail();
        case Collect => var sent := CollectProgress();
        case RunnerProgress(id, empty) => OnProgress(id, empty);
        case RunnerDone(id, controlFailed) => OnRunnerSettled(id, controlFailed);
        case SyncDone(id) => FinishRun(id);
        case ReportAnswer(id, outcome) => OnReport(id, outcome);
        case RetryTimer(id) =>
          if !aborted && id in pendingReports { pendingReports := pendingReports[id := pendingReports[id] + 1]; }
        case Abort => aborted := true;
        case Shutdown =>
          aborted := true;
          DropNeverStartedQueue();
      }
    }
  }
}
