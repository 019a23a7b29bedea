/**
 The watch manager's variables, changed in place. Each method is the code between
 two awaits, and leaves the state its step function names.
 */
module LoopWatches {
  import opened Wrappers
  import M = WatchManager

  class Watches {
    var watches: seq<M.Watch>
    var states: map<M.LoopId, M.Obj>
    var closes: map<M.LoopId, seq<M.Close>>
    var live: map<nat, M.LoopId>
    var nextWatcher: nat
    var tasks: map<nat, M.Task>
    var nextTask: nat
    var applied: seq<M.Item>
    var machineStopped: bool
    var draining: bool

    ghost function Now(): M.Manager
      reads this
    {
      M.Manager(watches, states, closes, live, nextWatcher, tasks, nextTask, applied, machineStopped, draining)
    }

    constructor ()
      ensures Now() == M.START
    {
      watches, states, closes, live, nextWatcher := [], map[], map[], map[], 0;
      tasks, nextTask, applied, machineStopped, draining := map[], 0, [], false, false;
    }

    /** Close this generation's watcher and keep the close. */
    method CloseWatcher(o: M.Obj)
      requires o < |watches|
      modifies `watches, `closes
      ensures Now() == M.CloseWatcher(old(Now()), o)
    {
      var watcher := watches[o].watcher;
      watches := watches[o := watches[o].(watcher := None)];
      var l := watches[o].item.loopId;
      var previous := if l in closes then closes[l] else [];
      closes := closes[l := previous + [M.Close(watcher, false)]];
    }

    method StopLoop(o: M.Obj)
      requires o < |watches|
      modifies `watches, `closes
      ensures Now() == M.StopLoop(old(Now()), o)
    {
      watches := watches[o := watches[o].(generation := watches[o].generation + 1)];
      watches := watches[o := watches[o].(pending := None)];
      watches := watches[o := watches[o].(aborted := true)];
      CloseWatcher(o);
    }

    /** Publish the stop before the close can suspend. */
    method ParkLoop(o: M.Obj)
      requires o < |watches|
      modifies `watches, `closes
      ensures Now() == M.ParkLoop(old(Now()), o)
    {
      watches := watches[o := watches[o].(status := M.Parked)];
      StopLoop(o);
    }

    method ParkAll()
      modifies `watches, `closes
      ensures Now() == M.StopAll(old(Now()), |old(watches)|, M.ParkEach)
    {
      var i := 0;
      while i < |watches|
        invariant i <= |watches| == |old(watches)| && Now() == M.StopAll(old(Now()), i, M.ParkEach)
      {
        var l := watches[i].item.loopId;
        if l in states && states[l] == i { ParkLoop(i); }
        i := i + 1;
      }
    }

    method HandleOutcome(o: M.Obj, outcome: M.Outcome)
      requires o < |watches|
      modifies `watches, `closes, `machineStopped
      ensures Now() == M.HandleOutcome(old(Now()), o, outcome)
    {
      if outcome.StoppedMachine? {
        machineStopped := true;
        ParkAll();
      } else if outcome.StoppedLoop? {
        ParkLoop(o);
      } else if outcome.ConfigMoved? {
        watches := watches[o := watches[o].(status := M.ConfigChanged)];
        CloseWatcher(o);
      } else if outcome.RootFailed? {
        watches := watches[o := watches[o].(status := M.Refused)];
        watches := watches[o := watches[o].(reportedRefusal := true)];
        CloseWatcher(o);
      }
    }

    method CanRun(o: M.Obj) returns (can: bool)
      requires o < |watches|
      ensures can == M.CanRun(Now(), o)
    {
      if draining || machineStopped || watches[o].aborted || watches[o].status != M.Watching { return false; }
      var l := watches[o].item.loopId;
      can := l in states && states[l] == o;
    }

    method NotePending(o: M.Obj, mode: M.Mode)
      requires o < |watches|
      modifies `watches
      ensures Now() == M.Put(old(Now()), o, M.Noted(old(watches[o]), mode))
    {
      var w := watches[o];
      var stronger := if w.pending == Some(M.FullRound) || mode == M.FullRound then M.FullRound else M.EventRound;
      watches := watches[o := w.(pending := Some(stronger), owedFull := w.owedFull || mode == M.FullRound)];
    }

    method StartRound(o: M.Obj, mode: M.Mode)
      requires o < |watches|
      modifies `watches
      ensures Now() == M.Put(old(Now()), o, M.Started(old(watches[o]), mode))
    {
      watches := watches[o := watches[o].(driver := M.InRound(watches[o].generation, mode))];
      if mode == M.FullRound { watches := watches[o := watches[o].(owedFull := false)]; }
    }

    method RunSync(o: M.Obj, mode: M.Mode)
      requires o < |watches|
      modifies `watches
      ensures Now() == M.RunSync(old(Now()), o, mode)
    {
      if watches[o].driver != M.Idle {
        NotePending(o, mode);
        return;
      }
      var can := CanRun(o);
      if can { StartRound(o, mode); }
    }

    /** The driver's loop after the effects of an outcome: take what is pending, or
        release ownership in the same instant. */
    method ResumeDriver(o: M.Obj)
      requires o < |watches| && watches[o].driver == M.Settling
      modifies `watches
      ensures Now() == M.NextRound(old(Now()), o)
    {
      var followUp := watches[o].pending;
      if followUp.Some? {
        watches := watches[o := watches[o].(pending := None)];
        var can := CanRun(o);
        if can {
          StartRound(o, followUp.value);
          return;
        }
      }
      watches := watches[o := watches[o].(driver := M.Idle)];
    }

    method RoundReturned(o: M.Obj, outcome: M.Outcome)
      requires o < |watches|
      modifies `watches, `closes, `machineStopped
      ensures Now() == M.RoundIsOver(old(Now()), o, outcome)
    {
      if !watches[o].driver.InRound? { return; }
      var l := watches[o].item.loopId;
      if watches[o].driver.generation != watches[o].generation || l !in states || states[l] != o {
        watches := watches[o := watches[o].(driver := M.Idle)];
        return;
      }
      watches := watches[o := watches[o].(driver := M.Settling)];
      HandleOutcome(o, outcome);
    }

    /** The `finally` of a round that threw. */
    method RoundThrown(o: M.Obj)
      requires o < |watches|
      modifies `watches
      ensures Now() == M.RoundThrown(old(Now()), o)
    {
      if !watches[o].driver.InRound? { return; }
      watches := watches[o := watches[o].(driver := M.Idle)];
    }

    method MarkDirty(o: M.Obj)
      requires o < |watches|
      modifies `watches, `tasks, `nextTask
      ensures Now() == M.MarkDirty(old(Now()), o)
    {
      if draining { return; }
      if watches[o].status == M.Admitting {
        NotePending(o, M.EventRound);
        return;
      }
      if watches[o].status != M.Watching || watches[o].window.Some? { return; }
      watches := watches[o := watches[o].(window := Some(nextTask))];
      Spawn(M.Window(o, watches[o].generation));
    }

    method Spawn(task: M.Task)
      modifies `tasks, `nextTask
      ensures Now() == M.Spawn(old(Now()), task)
    {
      tasks := tasks[nextTask := task];
      nextTask := nextTask + 1;
    }

    /** The rate-limited report of a watcher's error. */
    method OnWatcherError(o: M.Obj)
      requires o < |watches|
      modifies `watches, `tasks, `nextTask
      ensures Now() == M.WatcherError(old(Now()), o)
    {
      if draining || (watches[o].status != M.Watching && watches[o].status != M.Admitting) { return; }
      if watches[o].errorWindow.Some? { return; }
      watches := watches[o := watches[o].(errorWindow := Some(nextTask))];
      Spawn(M.ErrorWindow(o, watches[o].generation));
    }

    // ---- What a waiting job does when it goes on ----

    method WindowOver(t: nat, o: M.Obj, generation: nat)
      requires o < |watches|
      modifies `watches, `tasks
      ensures Now() == M.WindowOver(old(Now()), t, o, generation)
    {
      tasks := tasks - {t};
      if draining || watches[o].generation != generation {
        if watches[o].window == Some(t) { watches := watches[o := watches[o].(window := None)]; }
        return;
      }
      watches := watches[o := watches[o].(window := None)];
      RunSync(o, M.EventRound);
    }

    method ErrorDone(t: nat, o: M.Obj)
      requires o < |watches|
      modifies `watches, `tasks
      ensures Now() == M.ErrorDone(old(Now()), t, o)
    {
      tasks := tasks - {t};
      if watches[o].errorWindow == Some(t) { watches := watches[o := watches[o].(errorWindow := None)]; }
    }

    method Current(o: M.Obj) returns (current: bool)
      requires o < |watches|
      ensures current == M.IsCurrent(Now(), o)
    {
      var l := watches[o].item.loopId;
      current := l in states && states[l] == o;
    }

    method ErrorWindowOver(t: nat, o: M.Obj, generation: nat)
      requires o < |watches|
      modifies `watches, `tasks
      ensures Now() == M.ErrorWindowOver(old(Now()), t, o, generation)
    {
      var current := Current(o);
      if draining || watches[o].generation != generation || !current {
        ErrorDone(t, o);
      } else {
        tasks := tasks[t := M.ErrorReport(o, generation)];
      }
    }

    method ErrorReported(t: nat, o: M.Obj, generation: nat, outcome: M.Outcome)
      requires o < |watches|
      modifies `watches, `closes, `tasks, `machineStopped
      ensures Now() == M.ErrorReported(old(Now()), t, o, generation, outcome)
    {
      var current := Current(o);
      var void := watches[o].generation != generation || !current || outcome == M.RootFailed;
      ErrorDone(t, o);
      if !void { HandleOutcome(o, outcome); }
    }

    method Abandoned(o: M.Obj, generation: nat) returns (gone: bool)
      requires o < |watches|
      ensures gone == M.Abandoned(Now(), o, generation)
    {
      var current := Current(o);
      var w := watches[o];
      gone := draining || machineStopped || w.aborted || w.generation != generation || w.status != M.Admitting
        || !current;
    }

    /** The root was looked at: wait for the close of the watcher before, or refuse. */
    method AdmissionDone(t: nat, o: M.Obj, generation: nat, refused: bool)
      requires o < |watches|
      modifies `watches, `tasks
      ensures Now() == M.AdmissionDone(old(Now()), t, o, generation, refused)
    {
      var gone := Abandoned(o, generation);
      if gone {
        tasks := tasks - {t};
        return;
      }
      if !refused {
        var l := watches[o].item.loopId;
        tasks := tasks[t := M.AwaitClose(o, generation, if l in closes then |closes[l]| else 0)];
        return;
      }
      var reported := watches[o].reportedRefusal;
      watches := watches[o := watches[o].(status := M.Refused)];
      watches := watches[o := watches[o].(reportedRefusal := true)];
      tasks := if reported then tasks - {t} else tasks[t := M.RefusalReport(o, generation)];
    }

    method RefusalReported(t: nat, o: M.Obj, generation: nat, outcome: M.Outcome)
      requires o < |watches|
      modifies `watches, `closes, `tasks, `machineStopped
      ensures Now() == M.RefusalReported(old(Now()), t, o, generation, outcome)
    {
      tasks := tasks - {t};
      var current := Current(o);
      if draining || watches[o].generation != generation || !current { return; }
      HandleOutcome(o, outcome);
    }

    /** The awaited close has resolved: subscribe, unless somebody has replaced us. */
    method PredecessorClosed(t: nat, o: M.Obj, generation: nat, upTo: nat)
      requires o < |watches|
      modifies `watches, `live, `nextWatcher, `tasks
      ensures Now() == M.PredecessorClosed(old(Now()), t, o, generation, upTo)
    {
      var l := watches[o].item.loopId;
      if upTo > 0 && l in closes && upTo <= |closes[l]| && !closes[l][upTo - 1].done { return; }
      var gone := Abandoned(o, generation);
      if gone {
        tasks := tasks - {t};
        return;
      }
      live := live[nextWatcher := l];
      watches := watches[o := watches[o].(watcher := Some(nextWatcher))];
      nextWatcher := nextWatcher + 1;
      tasks := tasks[t := M.AwaitReady(o, generation)];
    }

    method WatcherReady(t: nat, o: M.Obj, generation: nat, ok: bool)
      requires o < |watches|
      modifies `watches, `closes, `tasks
      ensures Now() == M.WatcherReady(old(Now()), t, o, generation, ok)
    {
      tasks := tasks - {t};
      if !ok { return; }
      var gone := Abandoned(o, generation);
      if gone {
        CloseWatcher(o);
        return;
      }
      watches := watches[o := watches[o].(status := M.Watching)];
      RunSync(o, M.FullRound);
    }

    /** The objects a tick is to walk through. */
    method CurrentObjects() returns (os: seq<M.Obj>)
      ensures os == M.CurrentUpTo(Now(), |watches|)
    {
      os := [];
      var o := 0;
      while o < |watches|
        invariant o <= |watches| && os == M.CurrentUpTo(Now(), o)
      {
        var current := Current(o);
        if current { os := os + [o]; }
        o := o + 1;
      }
    }

    method TickNext(t: nat, rest: seq<M.Obj>)
      modifies `watches, `tasks
      ensures Now() == M.TickNext(old(Now()), t, rest)
    {
      if rest == [] || draining || rest[0] >= |watches| {
        tasks := tasks - {t};
        return;
      }
      var o := rest[0];
      if watches[o].status == M.Refused && !machineStopped {
        tasks := tasks[t := M.TickAdmission(o, watches[o].generation, rest[1..])];
        return;
      }
      if watches[o].status == M.Watching { RunSync(o, M.FullRound); }
      tasks := tasks[t := M.Tick(rest[1..])];
    }

    /** The root of a refused loop was looked at again by the tick. */
    method TickAdmitted(t: nat, o: M.Obj, generation: nat, rest: seq<M.Obj>, refused: bool)
      requires o < |watches|
      modifies `watches, `tasks, `nextTask
      ensures Now() == M.TickAdmitted(old(Now()), t, o, generation, rest, refused)
    {
      tasks := tasks[t := M.Tick(rest)];
      var current := Current(o);
      if refused || draining || watches[o].aborted || watches[o].generation != generation || !current { return; }
      Readmit(o);
      Launch(o);
    }

    method Readmit(o: M.Obj)
      requires o < |watches|
      modifies `watches
      ensures watches
        == old(watches)[o := old(watches[o]).(reportedRefusal := false, generation := old(watches[o]).generation + 1)]
    {
      watches := watches[o := watches[o].(reportedRefusal := false)];
      watches := watches[o := watches[o].(generation := watches[o].generation + 1)];
    }

    method Launch(o: M.Obj)
      requires o < |watches|
      modifies `watches, `tasks, `nextTask
      ensures Now() == M.Launch(old(Now()), o)
    {
      watches := watches[o := watches[o].(status := M.Admitting)];
      var generation := watches[o].generation;
      var gone := Abandoned(o, generation);
      if !gone { Spawn(M.Admission(o, generation)); }
    }

    /** A close of the chain: it takes effect only once the one before it has. */
    method CloseDone(l: M.LoopId, i: nat)
      modifies `closes, `live
      ensures Now() == M.CloseDone(old(Now()), l, i)
    {
      if l !in closes || i >= |closes[l]| || closes[l][i].done { return; }
      if i > 0 && !closes[l][i - 1].done { return; }
      var watcher := closes[l][i].watcher;
      closes := closes[l := closes[l][i := M.Close(watcher, true)]];
      if watcher.Some? { live := live - {watcher.value}; }
    }

    /** A new object for the loop's next generation. */
    method Install(item: M.Item, generation: nat)
      modifies `watches, `states, `tasks, `nextTask
      ensures Now() == M.Install(old(Now()), item, generation)
    {
      var o := |watches|;
      var w := M.Watch(item, generation, M.Admitting, false, None, false, None, None, None, M.Idle, false);
      watches := watches + [w];
      states := states[item.loopId := o];
      Launch(o);
    }

    method ReconcileItem(item: M.Item)
      modifies `watches, `states, `closes, `tasks, `nextTask
      ensures Now() == M.ReconcileItem(old(Now()), item)
    {
      if item.loopId !in states || states[item.loopId] >= |watches| {
        Install(item, 1);
        return;
      }
      var o := states[item.loopId];
      var generation := watches[o].generation + 1;
      if watches[o].item != item {
        StopLoop(o);
        Install(item, generation);
      } else if watches[o].status == M.Parked {
        Install(item, generation);
      }
    }

    /** Loops that left the set stop; then every item finds or starts its object. */
    method StopUnwanted(wanted: set<M.LoopId>)
      modifies `watches, `states, `closes
      ensures Now() == M.StopAll(old(Now()), |old(watches)|, M.Unwanted(wanted))
    {
      ghost var was := Now();
      var o := 0;
      while o < |watches|
        invariant o <= |watches| == |was.watches| && Now() == M.StopAll(was, o, M.Unwanted(wanted))
      {
        var l := watches[o].item.loopId;
        if l in states && states[l] == o && l !in wanted {
          states := states - {l};
          StopLoop(o);
        }
        o := o + 1;
      }
    }

    method ReconcileSet(items: seq<M.Item>)
      modifies `watches, `states, `closes, `tasks, `nextTask
      ensures
        var wanted := set i | i in items :: i.loopId;
        Now() == M.ReconcileItems(M.StopAll(old(Now()), |old(watches)|, M.Unwanted(wanted)), items)
    {
      var wanted := set i | i in items :: i.loopId;
      StopUnwanted(wanted);
      ReconcileItems(items);
    }

    method ReconcileItems(items: seq<M.Item>)
      modifies `watches, `states, `closes, `tasks, `nextTask
      ensures Now() == M.ReconcileItems(old(Now()), items)
    {
      ghost var stopped := Now();
      var i := 0;
      while i < |items|
        invariant 0 <= i <= |items| && Now() == M.ReconcileItems(stopped, items[..i])
      {
        assert items[..i + 1][..i] == items[..i] && items[..i + 1][i] == items[i];
        ReconcileItem(items[i]);
        i := i + 1;
      }
      assert items[..i] == items;
    }

    method Apply(items: seq<M.Item>)
      modifies this
      ensures Now() == M.Apply(old(Now()), items)
    {
      if draining || M.SameWatchSet(applied, items) { return; }
      applied := items;
      machineStopped := false;
      ReconcileSet(items);
    }

    method Drain()
      modifies this
      ensures Now() == M.Next(old(Now()), M.Drain)
    {
      draining := true;
      ghost var was := Now();
      var o := 0;
      while o < |watches|
        invariant o <= |watches| == |was.watches| && Now() == M.StopAll(was, o, M.StopEach)
      {
        var l := watches[o].item.loopId;
        if l in states && states[l] == o { StopLoop(o); }
        o := o + 1;
      }
    }

    /** A waiting job goes on; `ok` answers whether its wait succeeded. */
    method Resume(t: nat, outcome: M.Outcome, ok: bool)
      requires t in tasks
      modifies this
      ensures Now() == M.Resume(old(Now()), t, outcome, ok)
    {
      var task := tasks[t];
      if task.Tick? {
        TickNext(t, task.rest);
        return;
      }
      if task.obj >= |watches| { return; }
      match task {
        case Window(o, g) => WindowOver(t, o, g);
        case ErrorWindow(o, g) => ErrorWindowOver(t, o, g);
        case ErrorReport(o, g) => ErrorReported(t, o, g, outcome);
        case Admission(o, g) => AdmissionDone(t, o, g, !ok);
        case RefusalReport(o, g) => RefusalReported(t, o, g, outcome);
        case AwaitClose(o, g, upTo) => PredecessorClosed(t, o, g, upTo);
        case AwaitReady(o, g) => WatcherReady(t, o, g, ok);
        case TickAdmission(o, g, rest) => TickAdmitted(t, o, g, rest, !ok);
      }
    }

    /** Whatever happens next, the code that it runs leaves the state of the proved
        machine. */
    method Take(step: M.Step)
      modifies this
      ensures Now() == M.Next(old(Now()), step)
    {
      match step {
        case SetApplied(items) => Apply(items);
        case EventSeen(o) => if o < |watches| { MarkDirty(o); }
        case ErrorSeen(o) => if o < |watches| { OnWatcherError(o); }
        case RoundReturns(o, outcome) => if o < |watches| { RoundReturned(o, outcome); }
        case RoundThrows(o) => if o < |watches| { RoundThrown(o); }
        case DriverResumes(o) => if o < |watches| && watches[o].driver == M.Settling { ResumeDriver(o); }
        case TaskResumes(t, outcome, ok) => if t in tasks { Resume(t, outcome, ok); }
        case TickStarts =>
          if !draining {
            var os := CurrentObjects();
            Spawn(M.Tick(os));
          }
        case CloseResolves(l, i) => CloseDone(l, i);
        case Drain => Drain();
      }
    }
  }
}
