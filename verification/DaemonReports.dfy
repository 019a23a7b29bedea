/**
 What each event of a run brings about in the daemon's pipeline, and that runs which are
 answered one after the other are all served, in the order in which they arrived.
 */
module DaemonReports {
  import opened UniqueSeq
  import opened DaemonRuntime

  // ---- The answer to a report ----

  /** Everything but one run's entries is as it was. */
  ghost predicate OnlyTouches(s: State, t: State, ids: set<RunId>) {
    && (forall x :: x !in ids ==> (x in t.steps <==> x in s.steps) && (x in t.order <==> x in s.order))
    && (forall x :: x !in ids && x in s.steps ==> t.steps[x] == s.steps[x])
    && (forall x :: x !in ids ==>
        (x in t.stage <==> x in s.stage) && (x in t.pendingReports <==> x in s.pendingReports))
    && (forall x :: x !in ids && x in s.stage ==> t.stage[x] == s.stage[x])
    && (forall x :: x !in ids && x in s.pendingReports ==> t.pendingReports[x] == s.pendingReports[x])
    && t.arrived == s.arrived && t.rotationCursor == s.rotationCursor
  }

  ghost predicate SameFlags(s: State, t: State) {
    t.fatal == s.fatal && t.aborted == s.aborted && t.dropped == s.dropped
  }

  /** The longest waiting run executes, and no other. */
  ghost predicate StartsFirst(s: State, t: State)
    requires s.queue != []
  {
    var next := s.queue[0];
    && t.queue == s.queue[1..] && t.inFlight == {next} && next in t.stage && t.stage[next] == Active
    && next in t.steps && t.steps[next] == STEP_STARTING && t.started == s.started + [next]
  }

  ghost predicate StartsNone(s: State, t: State) {
    t.queue == s.queue && t.inFlight == s.inFlight && t.started == s.started
  }

  lemma FreedIs(s: State, id: RunId)
    requires s.pendingReports.Keys == {id} && s.inFlight == {} && s.stage == map[]
    requires s.queue != [] ==> s.queue[0] in s.steps && s.queue[0] != id
    ensures
      var f := Freed(s, id);
      && id !in f.steps && id !in f.order && f.pendingReports == map[] && SameFlags(s, f) && StartsNone(s, f)
      && f.inFlight == {} && OnlyTouches(s, f, {id}) && (s.queue != [] ==> s.queue[0] in f.steps)
  {
  }

  lemma FirstIsKnown(s: State, id: RunId)
    requires Ok(s) && id in s.pendingReports && s.queue != []
    ensures s.queue[0] in s.steps && s.queue[0] != id
  {
    assert s.queue[0] in s.queue && id in Busy(s);
    hide Distinct, OrderOk, CapacityOk;
  }

  lemma StartIs(f: State)
    requires f.inFlight == {} && f.pendingReports == map[] && (f.queue != [] ==> f.queue[0] in f.steps)
    ensures
      var t := StartNext(f);
      && t.pendingReports == map[] && SameFlags(f, t) && t.order == f.order && t.steps.Keys == f.steps.Keys
      && (if f.queue == [] || f.fatal || f.aborted then t == f
          else StartsFirst(f, t) && OnlyTouches(f, t, {f.queue[0]}))
  {
  }

  /** A confirmed report's run is forgotten, the capacity it held is free, and the run
      that has waited longest takes it at once, unless the daemon is stopping. */
  lemma ConfirmedFrees(s: State, id: RunId)
    requires Ok(s) && id in s.pendingReports && !s.aborted
    ensures
      var t := Next(s, ReportAnswer(id, Confirmed));
      && id !in t.steps && id !in t.order && t.pendingReports == map[] && SameFlags(s, t)
      && (if s.queue == [] || s.fatal then StartsNone(s, t) && t.inFlight == {} && OnlyTouches(s, t, {id})
          else StartsFirst(s, t) && OnlyTouches(s, t, {id, s.queue[0]}))
  {
    var f := Freed(s, id);
    assert Next(s, ReportAnswer(id, Confirmed)) == StartNext(f);
    hide Ok, Next, Freed, StartNext, OnlyTouches;
    HoldsAlone(s, id);
    if s.queue != [] { FirstIsKnown(s, id); }
    FreedIs(s, id);
    StartIs(f);
    if s.queue != [] && !s.fatal { TouchesJoin(s, f, StartNext(f), id, s.queue[0]); }
  }

  lemma TouchesJoin(s: State, f: State, t: State, a: RunId, b: RunId)
    requires OnlyTouches(s, f, {a}) && OnlyTouches(f, t, {b})
    ensures OnlyTouches(s, t, {a, b})
  {
  }

  /** A report that must be retried changes nothing, and one that is answered after an
      abort, or that nobody waits for any more, neither. */
  lemma UnansweredStays(s: State, id: RunId)
    ensures Next(s, ReportAnswer(id, RetryLater)) == s
    ensures forall outcome :: s.aborted || id !in s.pendingReports ==> Next(s, ReportAnswer(id, outcome)) == s
  {
  }

  /** The retry timer of a waiting report sends it once more, and of no other. */
  lemma RetrySendsOnceMore(s: State, id: RunId)
    ensures
      var t := Next(s, RetryTimer(id));
      && t == s.(pendingReports := t.pendingReports) && t.pendingReports.Keys == s.pendingReports.Keys
      && forall x :: x in s.pendingReports ==>
           t.pendingReports[x] == s.pendingReports[x] + (if x == id && !s.aborted then 1 else 0)
  {
  }

  /** The daemon is stopping: every waiting run is dropped unstarted, in order, and what
      executes or is unconfirmed is left. */
  ghost predicate Stopped(s: State, t: State) {
    && t.queue == [] && t.dropped == s.dropped + s.queue && t.started == s.started && t.arrived == s.arrived
    && t.inFlight == s.inFlight && t.pendingReports == s.pendingReports && t.stage == s.stage
    && (forall x :: x in t.steps <==> x in s.steps && x !in s.queue)
    && (forall x :: x in t.steps ==> t.steps[x] == s.steps[x])
    && (forall x :: x in t.order <==> x in s.order && x !in s.queue)
  }

  lemma FatalStops(s: State, id: RunId)
    requires id in s.pendingReports && !s.aborted
    ensures var t := Next(s, ReportAnswer(id, FatalOutcome)); Stopped(s, t) && t.fatal && t.aborted
  {
  }

  lemma StopsStop(s: State)
    ensures var t := Next(s, PollFatal); Stopped(s, t) && t.fatal && t.aborted
    ensures var t := Next(s, Shutdown); Stopped(s, t) && t.fatal == s.fatal && t.aborted
    ensures Next(s, Abort) == s.(aborted := true)
  {
  }

  // ---- The run itself ----

  /** A progress event counts exactly while the runner is active and when it says something. */
  lemma ProgressCounts(s: State, id: RunId, empty: bool)
    requires Ok(s)
    ensures
      var t := Next(s, RunnerProgress(id, empty));
      && t == s.(steps := t.steps) && t.steps.Keys == s.steps.Keys
      && forall x :: x in s.steps ==>
           t.steps[x] == s.steps[x] + (if x == id && id in s.stage && s.stage[id].Active? && !empty then 1 else 0)
  {
    hide Distinct;
  }

  /** A runner that settles keeps its slot for the final sync, one step further. */
  lemma SettlingKeepsTheSlot(s: State, id: RunId, controlFailed: bool)
    requires Ok(s)
    ensures
      var t := Next(s, RunnerDone(id, controlFailed));
      if id in s.stage && s.stage[id].Active? then
        && t == s.(steps := t.steps, stage := t.stage) && t.steps.Keys == s.steps.Keys
        && id in s.steps && t.steps == s.steps[id := s.steps[id] + 1]
        && t.stage == s.stage[id := Settled(controlFailed)]
      else t == s
  {
    hide Distinct;
    if id in s.stage { assert id in Busy(s); }
  }

  /** Once the final sync is over the run's report waits, in the same instant in which its
      slot is free, so nothing starts in between; it was sent once, unless the daemon is
      stopping. After a process-control failure the daemon takes no more work. */
  lemma SyncedIsPending(s: State, id: RunId)
    requires Ok(s)
    ensures
      var t := Next(s, SyncDone(id));
      if id in s.stage && s.stage[id].Settled? then
        && t.inFlight == {} && t.pendingReports == map[id := if s.aborted then 0 else 1] && t.started == s.started
        && id in t.steps && t.steps[id] == s.steps[id] && t.aborted == s.aborted
        && t.fatal == (s.fatal || s.stage[id].controlFailed)
        && (if s.stage[id].controlFailed then t.queue == [] && t.dropped == s.dropped + s.queue
            else t.queue == s.queue && t.dropped == s.dropped && t.steps == s.steps && t.order == s.order)
      else t == s
  {
    hide Distinct;
    if id in s.stage {
      assert id in Busy(s) && forall x :: x in s.inFlight || x in s.pendingReports ==> x in Busy(s);
      assert s.inFlight == {id} && s.pendingReports == map[];
      assert id in s.steps && id !in s.queue;
    }
  }

  // ---- Deliveries ----

  /** The runs of a poll that were not known before it, each once. */
  function Fresh(s: State, deliveries: seq<RunId>): seq<RunId> {
    if deliveries == [] then []
    else
      var less, id := deliveries[..|deliveries| - 1], deliveries[|deliveries| - 1];
      Fresh(s, less) + (if id in s.steps || id in less then [] else [id])
  }

  lemma DispatchLast(s: State, deliveries: seq<RunId>)
    requires !s.fatal && deliveries != []
    ensures
      var less, id := deliveries[..|deliveries| - 1], deliveries[|deliveries| - 1];
      var t := Dispatch(s, less);
      && Dispatch(s, deliveries) == (if id in t.steps || id in less then t else Enqueue(t, id))
      && Fresh(s, deliveries) == Fresh(s, less) + (if id in s.steps || id in less then [] else [id])
  {
    hide Enqueue;
  }

  lemma DispatchKnows(s: State, deliveries: seq<RunId>, id: RunId)
    requires Ok(s) && !s.fatal
    ensures id in Dispatch(s, deliveries).steps <==> id in s.steps || id in deliveries
  {
    hide *;
    DispatchKeeps(s, deliveries);
  }

  lemma EnqueueArrives(s: State, id: RunId)
    ensures Enqueue(s, id).arrived == s.arrived + [id]
  {
  }

  lemma {:induction false} DispatchTakesTheNew(s: State, deliveries: seq<RunId>)
    requires Ok(s) && !s.fatal
    ensures Dispatch(s, deliveries).arrived == s.arrived + Fresh(s, deliveries)
  {
    if deliveries != [] {
      var less, id := deliveries[..|deliveries| - 1], deliveries[|deliveries| - 1];
      var t := Dispatch(s, less);
      DispatchLast(s, deliveries);
      hide *;
      DispatchTakesTheNew(s, less);
      DispatchKnows(s, less, id);
      EnqueueArrives(t, id);
      assert s.arrived + (Fresh(s, less) + [id]) == s.arrived + Fresh(s, less) + [id];
    }
  }

  /** A poll takes in exactly the runs it names that were not known, in wire order; after a
      fatal, none. */
  lemma PollTakesTheNew(s: State, deliveries: seq<RunId>)
    requires Ok(s)
    ensures Next(s, Poll(deliveries)).arrived == s.arrived + (if s.fatal then [] else Fresh(s, deliveries))
  {
    assert s.fatal ==> Dispatch(s, deliveries) == s;
    hide Ok, Dispatch, Fresh;
    if !s.fatal { DispatchTakesTheNew(s, deliveries); }
  }

  // ---- Whole runs ----

  function Play(s: State, events: seq<Event>): State {
    if events == [] then s else Next(Play(s, events[..|events| - 1]), events[|events| - 1])
  }

  ghost predicate NeverConfirmed(events: seq<Event>, id: RunId) {
    forall k :: 0 <= k < |events| ==> events[k] != ReportAnswer(id, Confirmed)
  }

  /** Until its report is confirmed a run holds the capacity: whatever else happens, no
      other run starts. */
  lemma {:induction false} UnconfirmedHoldsTheCapacity(s: State, events: seq<Event>, id: RunId)
    requires Ok(s) && id in s.pendingReports && NeverConfirmed(events, id)
    ensures
      var t := Play(s, events);
      Ok(t) && id in t.pendingReports && id in t.steps && t.inFlight == {} && t.started == s.started
  {
    if events == [] {
      HoldsAlone(s, id);
    } else {
      var less := events[..|events| - 1];
      UnconfirmedHoldsTheCapacity(s, less, id);
      hide Ok, Next;
      NextKeeps(Play(s, less), events[|events| - 1]);
      StillUnconfirmed(Play(s, less), events[|events| - 1], id);
      HoldsAlone(Play(s, events), id);
    }
  }

  lemma HoldsAlone(s: State, id: RunId)
    requires Ok(s) && id in s.pendingReports
    ensures id in s.steps && s.inFlight == {} && s.pendingReports.Keys == {id} && s.stage == map[]
  {
    assert id in Busy(s) && forall x :: x in s.inFlight || x in s.pendingReports ==> x in Busy(s);
    hide Distinct;
  }

  lemma StillUnconfirmed(s: State, e: Event, id: RunId)
    requires Ok(s) && id in s.pendingReports && e != ReportAnswer(id, Confirmed)
    ensures id in Next(s, e).pendingReports && Next(s, e).started == s.started
  {
    HoldsAlone(s, id);
    hide Ok, Distinct;
    if e.Poll? { DispatchWhileHeld(s, e.deliveries, id); }
  }

  lemma {:induction false} DispatchWhileHeld(s: State, deliveries: seq<RunId>, id: RunId)
    requires id in s.pendingReports
    ensures Dispatch(s, deliveries).pendingReports == s.pendingReports && Dispatch(s, deliveries).started == s.started
  {
    if !s.fatal && deliveries != [] { DispatchWhileHeld(s, deliveries[..|deliveries| - 1], id); }
  }

  /** A run that goes well: the runner settles, the final sync is over, the report is
      confirmed at once. */
  function Served(id: RunId): seq<Event> { [RunnerDone(id, false), SyncDone(id), ReportAnswer(id, Confirmed)] }

  function AllServed(runs: seq<RunId>): seq<Event> {
    if runs == [] then [] else Served(runs[0]) + AllServed(runs[1..])
  }

  lemma {:induction false} PlayJoin(s: State, a: seq<Event>, b: seq<Event>)
    ensures Play(s, a + b) == Play(Play(s, a), b)
  {
    if b == [] {
      assert a + b == a;
    } else {
      assert (a + b)[..|a + b| - 1] == a + b[..|b| - 1];
      PlayJoin(s, a, b[..|b| - 1]);
    }
  }

  lemma PlayThree(s: State, a: Event, b: Event, c: Event)
    ensures Play(s, [a, b, c]) == Next(Next(Next(s, a), b), c)
  {
    hide Next;
    assert [a, b, c][..2] == [a, b] && [a, b][..1] == [a] && [a][..0] == [];
    assert Play(s, [a]) == Next(Play(s, []), a);
    assert Play(s, [a, b]) == Next(Play(s, [a]), b);
  }

  /** A run executes while these others wait. */
  ghost predicate Executing(s: State, id: RunId, waiting: seq<RunId>) {
    Ok(s) && !s.fatal && !s.aborted && id in s.stage && s.stage[id] == Active && s.queue == waiting
  }

  /** Serving the run that executes hands the capacity to the next. */
  lemma ServedHandsOver(s: State, id: RunId, waiting: seq<RunId>)
    requires Executing(s, id, waiting)
    ensures
      var t := Play(s, Served(id));
      && Ok(t) && !t.fatal && !t.aborted && id !in t.steps && t.arrived == s.arrived
      && (if waiting == [] then t.inFlight == {} && t.pendingReports == map[] && t.queue == [] && t.started == s.started
          else Executing(t, waiting[0], waiting[1..]) && t.started == s.started + [waiting[0]])
  {
    var a := Next(s, RunnerDone(id, false));
    var b := Next(a, SyncDone(id));
    var t := Next(b, ReportAnswer(id, Confirmed));
    PlayThree(s, RunnerDone(id, false), SyncDone(id), ReportAnswer(id, Confirmed));
    hide Next, Ok, Play;
    NextKeeps(s, RunnerDone(id, false));
    SettlingKeepsTheSlot(s, id, false);
    NextKeeps(a, SyncDone(id));
    SyncedIsPending(a, id);
    SyncArrived(a, id);
    NextKeeps(b, ReportAnswer(id, Confirmed));
    ConfirmedFrees(b, id);
    hide Continues;
  }

  lemma SyncArrived(s: State, id: RunId)
    ensures Next(s, SyncDone(id)).arrived == s.arrived
  {
  }

  ghost predicate AllDone(s: State, t: State, waiting: seq<RunId>) {
    && Ok(t) && t.started == s.started + waiting == t.arrived && t.queue == [] && t.inFlight == {}
    && t.pendingReports == map[] && t.steps == map[]
  }

  /** When the run that executes and all that wait go well, each of them is started in the
      order of arrival, and in the end nothing executes, waits or is unconfirmed. */
  lemma {:induction false} EveryRunIsServed(s: State, id: RunId, waiting: seq<RunId>)
    requires Executing(s, id, waiting)
    ensures AllDone(s, Play(s, AllServed([id] + waiting)), waiting)
    decreases |waiting|
  {
    var t := Play(s, Served(id));
    PlayServed(s, id, waiting);
    hide Play, Ok, Served, AllServed;
    ServedHandsOver(s, id, waiting);
    if waiting == [] {
      NothingLeft(t);
      StartedAll(t);
    } else {
      assert [waiting[0]] + waiting[1..] == waiting;
      EveryRunIsServed(t, waiting[0], waiting[1..]);
      assert s.started + [waiting[0]] + waiting[1..] == s.started + waiting;
    }
  }

  lemma PlayServed(s: State, id: RunId, waiting: seq<RunId>)
    ensures Play(s, AllServed([id] + waiting)) == Play(Play(s, Served(id)), AllServed(waiting))
    ensures waiting == [] ==> Play(s, AllServed([id] + waiting)) == Play(s, Served(id))
  {
    var runs := [id] + waiting;
    assert runs[1..] == waiting && runs[0] == id;
    assert AllServed(runs) == Served(id) + AllServed(waiting);
    hide Next, Served;
    PlayJoin(s, Served(id), AllServed(waiting));
  }

  lemma NothingLeft(s: State)
    requires Ok(s) && s.queue == [] && s.inFlight == {} && s.pendingReports == map[]
    ensures s.steps == map[]
  {
    assert forall id :: id !in s.steps;
    hide Distinct;
  }

  lemma StartedAll(s: State)
    requires Ok(s) && s.queue == [] && !s.fatal && !s.aborted
    ensures s.started == s.arrived
  {
    hide Distinct;
  }
}
