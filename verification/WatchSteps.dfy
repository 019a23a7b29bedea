/**
 Every step of the watch manager keeps the invariant, and moves each object only in
 the ways `Moved` allows.
 */
module WatchSteps {
  import opened Wrappers
  import opened WatchManager
  import opened WatchSafety

  /** The window in force belongs to the object's own generation. */
  predicate OwnWindow(m: Manager, o: Obj)
    requires o < |m.watches|
  {
    var w := m.watches[o];
    w.window.Some? && w.window.value in m.tasks && m.tasks[w.window.value] == Window(o, w.generation)
  }

  /** Accepted changes are waited for: by a window of this generation, or by pending
      work whose driver is alive. */
  predicate Covered(m: Manager, o: Obj)
    requires o < |m.watches|
  {
    OwnWindow(m, o) || (m.watches[o].pending.Some? && m.watches[o].driver != Idle)
  }

  predicate Active(w: Watch) { !w.aborted && w.status == Watching }

  predicate Starts(w: Watch, v: Watch) { v.driver.InRound? && !w.driver.InRound? }

  /** A recorded full request has a live driver. */
  predicate Attended(w: Watch) { w.owedFull && Active(w) ==> w.driver != Idle }

  /** What one step may do to one object, `before` and `after` telling whether its changes
      are covered. A round starts only for an active object and its own generation; a
      covered change stays covered until a round starts; a recorded full request stays
      recorded until a full round starts, and an attended one is served by the next
      round; an object becomes active only together with a full round or the recorded
      request for one. */
  predicate MovedWatch(w: Watch, v: Watch, before: bool, after: bool) {
    && v.item == w.item && v.generation >= w.generation && (w.aborted ==> v.aborted)
    && (Starts(w, v) ==> Active(v) && v.driver.generation == v.generation)
    && (Starts(w, v) && w.owedFull && Attended(w) ==> v.driver.mode == FullRound)
    && (Active(w) && Active(v) && before ==> after || Starts(w, v))
    && (w.owedFull ==> v.owedFull || (Starts(w, v) && v.driver.mode == FullRound))
    && (Attended(w) ==> Attended(v))
    && (!Active(w) && Active(v) ==>
          (Starts(w, v) && v.driver.mode == FullRound)
          || (v.owedFull && v.pending == Some(FullRound) && v.driver != Idle))
  }

  predicate Moved(m: Manager, n: Manager, o: Obj)
    requires o < |m.watches| && o < |n.watches|
  {
    MovedWatch(m.watches[o], n.watches[o], Covered(m, o), Covered(n, o))
  }

  ghost predicate Moves(m: Manager, n: Manager) {
    |m.watches| <= |n.watches| && forall o: nat :: o < |m.watches| ==> Moved(m, n, o)
  }

  ghost predicate KeepsWindows(m: Manager, n: Manager) {
    forall t :: t in m.tasks && m.tasks[t].Window? ==> t in n.tasks && n.tasks[t] == m.tasks[t]
  }

  /** At most object o changed, and no window task of another object ended. */
  ghost predicate Touches(m: Manager, n: Manager, o: Obj) {
    && |m.watches| == |n.watches|
    && (forall p: nat :: p < |m.watches| && p != o ==> n.watches[p] == m.watches[p])
    && (forall t :: t in m.tasks && m.tasks[t].Window? && m.tasks[t].obj != o ==>
        t in n.tasks && n.tasks[t] == m.tasks[t])
  }

  lemma OneMoves(m: Manager, n: Manager, o: Obj)
    requires o < |m.watches| && Touches(m, n, o) && Moved(m, n, o)
    ensures Moves(m, n)
  {
    forall p: nat | p < |m.watches| ensures Moved(m, n, p) {}
  }

  lemma SameMoves(m: Manager, n: Manager)
    requires n.watches == m.watches && KeepsWindows(m, n)
    ensures Moves(m, n)
  {
  }

  lemma QuieterMoves(m: Manager, n: Manager)
    requires Quieter(m, n)
    ensures Moves(m, n)
  {
    forall o: nat | o < |m.watches| ensures Moved(m, n, o) { assert Quieted(m.watches[o], n.watches[o]); }
  }

  /** Switching objects off after a step that started nothing. */
  lemma MovesThenQuieter(m: Manager, n: Manager, r: Manager)
    requires Moves(m, n) && Quieter(n, r)
    requires forall o: nat :: o < |m.watches| ==> !Starts(m.watches[o], n.watches[o])
    ensures Moves(m, r)
  {
    forall o: nat | o < |m.watches| ensures Moved(m, r, o) {
      assert Moved(m, n, o) && Quieted(n.watches[o], r.watches[o]);
    }
  }

  // ---- How one object may change ----

  /** An object that is not active afterwards, and that started nothing. */
  lemma PassiveMoved(w: Watch, v: Watch, before: bool, after: bool)
    requires v.item == w.item && v.generation >= w.generation && (w.aborted ==> v.aborted)
    requires !Active(v) && !Starts(w, v) && (w.owedFull ==> v.owedFull)
    ensures MovedWatch(w, v, before, after)
  {
  }

  lemma WindowMoved(w: Watch, window: Option<nat>, before: bool)
    ensures MovedWatch(w, w.(window := window), before, true)
  {
  }

  /** A round, or a record that its driver will serve. */
  lemma RanMoved(w: Watch, v: Watch, mode: Mode, before: bool, after: bool)
    requires Active(w) && v == w.(window := v.window)
    requires w.driver != Idle ==> after
    ensures MovedWatch(w, Ran(v, mode), before, after)
  {
  }

  // ---- Running a round or recording one ----

  /** RunSync on an object that may run. */
  function Ran(w: Watch, mode: Mode): Watch { if w.driver != Idle then Noted(w, mode) else Started(w, mode) }

  lemma RunSyncIs(m: Manager, o: Obj, mode: Mode)
    requires o < |m.watches| && WatchOk(m, o)
    ensures Active(m.watches[o]) ==> RunSync(m, o, mode) == Put(m, o, Ran(m.watches[o], mode))
    ensures !Active(m.watches[o]) ==>
      RunSync(m, o, mode) == m || RunSync(m, o, mode) == Put(m, o, Noted(m.watches[o], mode))
  {
  }

  lemma RanIsOk(m: Manager, o: Obj, mode: Mode)
    requires o < |m.watches| && WatchOk(m, o) && Active(m.watches[o])
    ensures WatchOk(Put(m, o, Ran(m.watches[o], mode)), o) && Steady(m.watches[o], Ran(m.watches[o], mode))
  {
  }

  lemma NotedIsOk(m: Manager, o: Obj, mode: Mode)
    requires o < |m.watches| && WatchOk(m, o) && !Active(m.watches[o])
    ensures WatchOk(Put(m, o, Noted(m.watches[o], mode)), o) && Steady(m.watches[o], Noted(m.watches[o], mode))
  {
  }

  lemma RunSyncKeeps(m: Manager, o: Obj, mode: Mode)
    requires Inv(m) && o < |m.watches|
    ensures var n := RunSync(m, o, mode); Inv(n) && Touches(m, n, o) && n.tasks == m.tasks
    ensures Active(m.watches[o]) ==> RunSync(m, o, mode).watches[o] == Ran(m.watches[o], mode)
    ensures !Active(m.watches[o]) ==>
      RunSync(m, o, mode).watches[o] == m.watches[o] || RunSync(m, o, mode).watches[o] == Noted(m.watches[o], mode)
  {
    assert WatchOk(m, o);
    hide Inv;
    RunSyncIs(m, o, mode);
    if Active(m.watches[o]) {
      RanIsOk(m, o, mode);
      hide WatchOk;
      PutKeeps(m, o, Ran(m.watches[o], mode));
    } else if RunSync(m, o, mode) != m {
      NotedIsOk(m, o, mode);
      hide WatchOk;
      PutKeeps(m, o, Noted(m.watches[o], mode));
    }
  }

  /** Fields no claim depends on. */
  lemma PlainPut(m: Manager, o: Obj, v: Watch)
    requires Inv(m) && o < |m.watches|
    requires v == m.watches[o].(window := v.window, errorWindow := v.errorWindow, reportedRefusal := v.reportedRefusal)
    ensures Inv(Put(m, o, v))
  {
    assert WatchOk(m, o);
    PutKeeps(m, o, v);
  }

  /** A step is good when it keeps the invariant and moves objects as allowed. */
  ghost predicate Good(m: Manager, n: Manager) { Inv(n) && Moves(m, n) }

  // ---- Events and windows ----

  lemma EventKeeps(m: Manager, o: Obj)
    requires Inv(m) && o < |m.watches|
    ensures Inv(MarkDirty(m, o))
  {
    var w := m.watches[o];
    assert WatchOk(m, o);
    hide Inv;
    if !m.draining && w.status == Admitting {
      NotedIsOk(m, o, EventRound);
      PutKeeps(m, o, Noted(w, EventRound));
    } else if !m.draining && w.status == Watching && w.window.None? {
      hide WatchOk;
      SpawnPlain(m, Window(o, w.generation));
      PlainPut(Spawn(m, Window(o, w.generation)), o, w.(window := Some(m.nextTask)));
    }
  }

  lemma EventMoves(m: Manager, o: Obj)
    requires o < |m.watches| && m.nextTask !in m.tasks
    ensures Moves(m, MarkDirty(m, o))
  {
    hide Moves, MovedWatch, Covered;
    var w := m.watches[o];
    if !m.draining && w.status == Admitting {
      PassiveMoved(w, Noted(w, EventRound), Covered(m, o), Covered(MarkDirty(m, o), o));
      OneMoves(m, MarkDirty(m, o), o);
    } else if !m.draining && w.status == Watching && w.window.None? {
      OpensWindow(m, o);
      WindowMoved(w, Some(m.nextTask), Covered(m, o));
      OneMoves(m, MarkDirty(m, o), o);
    } else {
      SameMoves(m, m);
    }
  }

  lemma OpensWindow(m: Manager, o: Obj)
    requires o < |m.watches|
    ensures Covered(Put(Spawn(m, Window(o, m.watches[o].generation)), o, m.watches[o].(window := Some(m.nextTask))), o)
  {
  }

  lemma EventStep(m: Manager, o: Obj)
    requires Inv(m) && o < |m.watches|
    ensures Good(m, MarkDirty(m, o))
  {
    FreshId(m);
    hide Inv, Moves, MarkDirty;
    EventKeeps(m, o);
    EventMoves(m, o);
  }

  lemma FreshId(m: Manager)
    requires Inv(m)
    ensures m.nextTask !in m.tasks
  {
    forall t | t in m.tasks ensures t < m.nextTask { assert TaskOk(m, t); }
  }

  /** Tasks that claim nothing. */
  lemma SpawnPlain(m: Manager, task: Task)
    requires Inv(m)
      && (task.Tick?
          || ((task.Window? || task.ErrorWindow?) && task.obj < |m.watches|
              && task.generation <= m.watches[task.obj].generation))
    ensures Inv(Spawn(m, task))
  {
    hide Inv;
    SpawnKeeps(m, task);
  }

  lemma WindowKeeps(m: Manager, t: nat, o: Obj, g: nat)
    requires Inv(m) && o < |m.watches|
    ensures Inv(WindowOver(m, t, o, g))
  {
    var w, e := m.watches[o], End(m, t);
    hide Inv;
    EndKeeps(m, t);
    if m.draining || w.generation != g {
      PlainPut(e, o, w.(window := if w.window == Some(t) then None else w.window));
    } else {
      hide RunSync;
      PlainPut(e, o, w.(window := None));
      RunSyncKeeps(Put(e, o, w.(window := None)), o, EventRound);
    }
  }

  /** Whatever was waited for: a round starts now, or its driver will start it. */
  lemma RunSyncMoved(m: Manager, o: Obj, mode: Mode, w: Watch, before: bool)
    requires o < |m.watches| && WatchOk(m, o) && m.watches[o] == w.(window := m.watches[o].window)
    ensures var n := RunSync(m, o, mode); MovedWatch(w, n.watches[o], before, Covered(n, o))
  {
    var n, v := RunSync(m, o, mode), m.watches[o];
    RunSyncIs(m, o, mode);
    hide MovedWatch, RunSync, Covered, WatchOk;
    PendingCovers(n, o);
    if Active(w) {
      RanMoved(w, v, mode, before, Covered(n, o));
    } else {
      PassiveMoved(w, n.watches[o], before, Covered(n, o));
    }
  }

  lemma WindowMoves(m: Manager, t: nat, o: Obj, g: nat)
    requires o < |m.watches| && t in m.tasks && m.tasks[t] == Window(o, g) && WatchOk(m, o)
    ensures Moves(m, WindowOver(m, t, o, g))
  {
    hide Moves, MovedWatch, Covered;
    if m.draining || m.watches[o].generation != g {
      StaleWindowMoved(m, t, o, g);
    } else {
      RunSyncMoved(Put(End(m, t), o, m.watches[o].(window := None)), o, EventRound, m.watches[o], Covered(m, o));
    }
    hide WatchOk;
    OneMoves(m, WindowOver(m, t, o, g), o);
  }

  lemma PendingCovers(m: Manager, o: Obj)
    requires o < |m.watches|
    ensures m.watches[o].pending.Some? && m.watches[o].driver != Idle ==> Covered(m, o)
  {
  }

  /** A window of another generation covered nothing. */
  lemma StaleWindowMoved(m: Manager, t: nat, o: Obj, g: nat)
    requires o < |m.watches| && t in m.tasks && m.tasks[t] == Window(o, g) && WatchOk(m, o)
    requires m.draining || m.watches[o].generation != g
    ensures MovedWatch(m.watches[o], WindowOver(m, t, o, g).watches[o], Covered(m, o),
                       Covered(WindowOver(m, t, o, g), o))
  {
  }

  lemma WindowStep(m: Manager, t: nat, o: Obj, g: nat)
    requires Inv(m) && o < |m.watches| && t in m.tasks && m.tasks[t] == Window(o, g)
    ensures Good(m, WindowOver(m, t, o, g))
  {
    assert WatchOk(m, o);
    hide Inv, Moves, WindowOver, WatchOk;
    WindowKeeps(m, t, o, g);
    WindowMoves(m, t, o, g);
  }

  /** Fields that nothing waits on. */
  lemma PlainMoves(m: Manager, n: Manager, o: Obj, v: Watch)
    requires o < |m.watches| && n.watches == m.watches[o := v] && KeepsWindows(m, n)
    requires v == m.watches[o].(errorWindow := v.errorWindow, reportedRefusal := v.reportedRefusal)
    ensures Moves(m, n)
    ensures forall p: nat :: p < |m.watches| ==> !Starts(m.watches[p], n.watches[p])
  {
    hide Moves;
    OneMoves(m, n, o);
  }

  // ---- Watcher errors ----

  lemma ErrorSeenStep(m: Manager, o: Obj)
    requires Inv(m) && o < |m.watches|
    ensures Good(m, WatcherError(m, o))
  {
    var w, n := m.watches[o], WatcherError(m, o);
    FreshId(m);
    hide Inv, Moves;
    if n == m {
      SameMoves(m, n);
    } else {
      SpawnPlain(m, ErrorWindow(o, w.generation));
      PlainPut(Spawn(m, ErrorWindow(o, w.generation)), o, w.(errorWindow := Some(m.nextTask)));
      PlainMoves(m, n, o, w.(errorWindow := Some(m.nextTask)));
    }
  }

  lemma ErrorDoneStep(m: Manager, t: nat, o: Obj)
    requires Inv(m) && o < |m.watches| && t in m.tasks && !m.tasks[t].Window?
    ensures Good(m, ErrorDone(m, t, o))
    ensures forall p: nat :: p < |m.watches| ==> !Starts(m.watches[p], ErrorDone(m, t, o).watches[p])
  {
    var n := ErrorDone(m, t, o);
    hide Inv, Moves;
    EndKeeps(m, t);
    PlainPut(End(m, t), o, n.watches[o]);
    PlainMoves(m, n, o, n.watches[o]);
  }

  lemma ErrorWindowStep(m: Manager, t: nat, o: Obj, g: nat)
    requires Inv(m) && o < |m.watches| && t in m.tasks && m.tasks[t] == ErrorWindow(o, g)
    ensures Good(m, ErrorWindowOver(m, t, o, g))
  {
    assert TaskOk(m, t);
    hide Inv, Moves;
    if m.draining || m.watches[o].generation != g || !IsCurrent(m, o) {
      ErrorDoneStep(m, t, o);
    } else {
      BecomeKeeps(m, t, ErrorReport(o, g));
      SameMoves(m, ErrorWindowOver(m, t, o, g));
    }
  }

  lemma ErrorReportStep(m: Manager, t: nat, o: Obj, g: nat, outcome: Outcome)
    requires Inv(m) && o < |m.watches| && t in m.tasks && m.tasks[t] == ErrorReport(o, g)
    ensures Good(m, ErrorReported(m, t, o, g, outcome))
  {
    hide Inv, Moves, HandleOutcome, Quieter;
    var n := ErrorDone(m, t, o);
    ErrorDoneStep(m, t, o);
    if m.watches[o].generation == g && IsCurrent(m, o) && outcome != RootFailed {
      HandleOutcomeKeeps(n, o, outcome);
      MovesThenQuieter(m, n, HandleOutcome(n, o, outcome));
    }
  }

  // ---- Admission ----

  lemma EndStep(m: Manager, t: nat)
    requires Inv(m) && t in m.tasks && !m.tasks[t].Window?
    ensures Good(m, End(m, t))
  {
    hide Inv, Moves;
    EndKeeps(m, t);
    SameMoves(m, End(m, t));
  }

  lemma AdmissionStep(m: Manager, t: nat, o: Obj, g: nat, refused: bool)
    requires Inv(m) && o < |m.watches| && t in m.tasks && m.tasks[t] == Admission(o, g)
    ensures Good(m, AdmissionDone(m, t, o, g, refused))
  {
    assert TaskOk(m, t) && WatchOk(m, o);
    if Abandoned(m, o, g) {
      EndStep(m, t);
    } else if !refused {
      hide Inv, Moves, WatchOk;
      var upTo := |Chain(m, m.watches[o].item.loopId)|;
      assert Emptied(Chain(m, m.watches[o].item.loopId), upTo);
      BecomeKeeps(m, t, AwaitClose(o, g, upTo));
      SameMoves(m, AdmissionDone(m, t, o, g, refused));
    } else {
      RefusedStep(m, t, o, g);
    }
  }

  lemma RefusedStep(m: Manager, t: nat, o: Obj, g: nat)
    requires Inv(m) && o < |m.watches| && t in m.tasks && m.tasks[t] == Admission(o, g) && !Abandoned(m, o, g)
    ensures Good(m, AdmissionDone(m, t, o, g, true))
  {
    var w := m.watches[o];
    var v, n := w.(status := Refused, reportedRefusal := true), AdmissionDone(m, t, o, g, true);
    assert TaskOk(m, t) && WatchOk(m, o);
    hide Inv, Moves;
    PutKeeps(m, o, v);
    hide WatchOk;
    if w.reportedRefusal { EndKeeps(Put(m, o, v), t); } else { BecomeKeeps(Put(m, o, v), t, RefusalReport(o, g)); }
    PassiveMoved(w, v, Covered(m, o), Covered(n, o));
    hide MovedWatch, Covered;
    OneMoves(m, n, o);
  }

  lemma RefusalReportStep(m: Manager, t: nat, o: Obj, g: nat, outcome: Outcome)
    requires Inv(m) && o < |m.watches| && t in m.tasks && m.tasks[t] == RefusalReport(o, g)
    ensures Good(m, RefusalReported(m, t, o, g, outcome))
  {
    assert TaskOk(m, t);
    hide Inv, Moves, HandleOutcome, Quieter;
    var n := End(m, t);
    EndStep(m, t);
    if !m.draining && m.watches[o].generation == g && IsCurrent(m, o) {
      HandleOutcomeKeeps(n, o, outcome);
      MovesThenQuieter(m, n, HandleOutcome(n, o, outcome));
    }
  }

  // ---- Rounds ----

  /** A void round only releases the driver. */
  lemma VoidRoundStep(m: Manager, o: Obj)
    requires Inv(m) && o < |m.watches| && m.watches[o].driver.InRound?
    requires m.watches[o].driver.generation != m.watches[o].generation || !IsCurrent(m, o)
    ensures Good(m, Put(m, o, m.watches[o].(driver := Idle)))
  {
    var w, v := m.watches[o], m.watches[o].(driver := Idle);
    assert WatchOk(m, o);
    hide Inv, Moves;
    PutKeeps(m, o, v);
    PassiveMoved(w, v, Covered(m, o), Covered(Put(m, o, v), o));
    hide WatchOk, MovedWatch, Covered;
    OneMoves(m, Put(m, o, v), o);
  }

  lemma SettlingStep(m: Manager, o: Obj)
    requires Inv(m) && o < |m.watches| && m.watches[o].driver.InRound?
    ensures Good(m, Put(m, o, m.watches[o].(driver := Settling)))
  {
    assert WatchOk(m, o);
    hide Inv, Moves;
    PutKeeps(m, o, m.watches[o].(driver := Settling));
    hide WatchOk;
    OneMoves(m, Put(m, o, m.watches[o].(driver := Settling)), o);
  }

  lemma RoundReturnsStep(m: Manager, o: Obj, outcome: Outcome)
    requires Inv(m) && o < |m.watches|
    ensures Good(m, RoundIsOver(m, o, outcome))
  {
    hide Inv, Moves, HandleOutcome, Quieter;
    var w := m.watches[o];
    if !w.driver.InRound? {
      SameMoves(m, m);
    } else if w.driver.generation != w.generation || !IsCurrent(m, o) {
      VoidRoundStep(m, o);
    } else {
      var n := Put(m, o, w.(driver := Settling));
      SettlingStep(m, o);
      HandleOutcomeKeeps(n, o, outcome);
      MovesThenQuieter(m, n, HandleOutcome(n, o, outcome));
    }
  }

  /** The driver releases: nothing was pending, or nothing may run. */
  lemma ReleasedMoved(w: Watch, before: bool, after: bool)
    requires w.driver == Settling && (Active(w) ==> w.pending.None? && !w.owedFull && (before ==> after))
    ensures MovedWatch(w, w.(pending := None, driver := Idle), before, after)
  {
  }

  /** The driver goes on with what was pending. */
  lemma DrivenMoved(w: Watch, before: bool, after: bool)
    requires w.driver == Settling && Active(w) && w.pending.Some? && (w.owedFull ==> w.pending == Some(FullRound))
    ensures MovedWatch(w, Started(w.(pending := None), w.pending.value), before, after)
  {
  }

  lemma ReleaseCovers(m: Manager, o: Obj)
    requires o < |m.watches| && m.watches[o].pending.None? && Covered(m, o)
    ensures Covered(Put(m, o, m.watches[o].(pending := None, driver := Idle)), o)
  {
  }

  lemma NextRoundMoved(m: Manager, o: Obj)
    requires o < |m.watches| && WatchOk(m, o) && m.watches[o].driver == Settling
    ensures MovedWatch(m.watches[o], NextRound(m, o).watches[o], Covered(m, o), Covered(NextRound(m, o), o))
  {
    var w, n := m.watches[o], NextRound(m, o);
    assert Active(w) ==> CanRun(m, o) && (w.owedFull ==> w.pending == Some(FullRound));
    hide MovedWatch, Covered, WatchOk;
    if w.pending.None? || !CanRun(m, o) {
      if w.pending.None? && Covered(m, o) { ReleaseCovers(m, o); }
      ReleasedMoved(w, Covered(m, o), Covered(n, o));
    } else {
      DrivenMoved(w, Covered(m, o), Covered(n, o));
    }
  }

  lemma NextRoundKeeps(m: Manager, o: Obj)
    requires Inv(m) && o < |m.watches| && m.watches[o].driver == Settling
    ensures Inv(NextRound(m, o))
  {
    assert WatchOk(m, o);
    hide Inv;
    PutKeeps(m, o, NextRound(m, o).watches[o]);
  }

  lemma DriverResumesStep(m: Manager, o: Obj)
    requires Inv(m) && o < |m.watches| && m.watches[o].driver == Settling
    ensures Good(m, NextRound(m, o))
  {
    assert WatchOk(m, o);
    hide Inv, Moves, MovedWatch, Covered;
    NextRoundKeeps(m, o);
    NextRoundMoved(m, o);
    hide WatchOk;
    OneMoves(m, NextRound(m, o), o);
  }

  // ---- Subscribing ----

  lemma PredecessorStep(m: Manager, t: nat, o: Obj, g: nat, upTo: nat)
    requires Inv(m) && o < |m.watches| && t in m.tasks && m.tasks[t] == AwaitClose(o, g, upTo)
    ensures Good(m, PredecessorClosed(m, t, o, g, upTo))
  {
    var w, n := m.watches[o], PredecessorClosed(m, t, o, g, upTo);
    var chain := Chain(m, w.item.loopId);
    hide Inv, Moves;
    if 0 < upTo <= |chain| && !chain[upTo - 1].done {
      SameMoves(m, m);
    } else if Abandoned(m, o, g) {
      EndStep(m, t);
    } else {
      SubscribeKeeps(m, t, o, g, upTo);
      PassiveMoved(w, w.(watcher := Some(m.nextWatcher)), Covered(m, o), Covered(n, o));
      hide MovedWatch, Covered;
      OneMoves(m, n, o);
    }
  }

  lemma ReadyStep(m: Manager, t: nat, o: Obj, g: nat, ok: bool)
    requires Inv(m) && o < |m.watches| && t in m.tasks && m.tasks[t] == AwaitReady(o, g)
    ensures Good(m, WatcherReady(m, t, o, g, ok))
  {
    hide Inv, Moves, CloseWatcher;
    if !ok {
      EndStep(m, t);
    } else if Abandoned(m, o, g) {
      EndStep(m, t);
      CloseWatcherKeeps(End(m, t), o);
      LateCloseMoves(m, t, o);
    } else {
      NowWatching(m, t, o, g);
    }
  }

  lemma LateCloseMoves(m: Manager, t: nat, o: Obj)
    requires o < |m.watches| && t in m.tasks && !m.tasks[t].Window?
    ensures Moves(m, CloseWatcher(End(m, t), o))
  {
    hide Moves;
    OneMoves(m, CloseWatcher(End(m, t), o), o);
  }

  /** The subscription is ready: the full round starts, or the driver in force will
      start it. */
  lemma NowWatching(m: Manager, t: nat, o: Obj, g: nat)
    requires Inv(m) && o < |m.watches| && t in m.tasks && m.tasks[t].AwaitReady? && !Abandoned(m, o, g)
    ensures Good(m, WatcherReady(m, t, o, g, true))
  {
    var w := m.watches[o];
    var v := Ran(w.(status := Watching), FullRound);
    var n := Put(End(m, t), o, v);
    assert WatchOk(m, o);
    hide Inv, Moves;
    assert WatcherReady(m, t, o, g, true) == n by { ReadyRuns(m, t, o, g); }
    EndKeeps(m, t);
    WatchingIsOk(m, o);
    hide WatchOk, Steady, WatcherReady;
    assert WatchOk(Put(End(m, t), o, v), o) by { SameWatchOk(Put(m, o, v), n, o); }
    PutKeeps(End(m, t), o, v);
    OneMoves(m, n, o);
  }

  lemma ReadyRuns(m: Manager, t: nat, o: Obj, g: nat)
    requires o < |m.watches| && WatchOk(m, o) && t in m.tasks && !Abandoned(m, o, g)
    ensures WatcherReady(m, t, o, g, true) == Put(End(m, t), o, Ran(m.watches[o].(status := Watching), FullRound))
  {
  }

  lemma WatchingIsOk(m: Manager, o: Obj)
    requires o < |m.watches| && WatchOk(m, o) && m.watches[o].status == Admitting && !m.watches[o].aborted
    ensures
      var v := Ran(m.watches[o].(status := Watching), FullRound);
      WatchOk(Put(m, o, v), o) && Steady(m.watches[o], v)
  {
  }

  lemma SameWatchOk(m: Manager, n: Manager, o: Obj)
    requires o < |m.watches| && WatchOk(m, o) && n == m.(tasks := n.tasks)
    ensures WatchOk(n, o)
  {
  }

  // ---- The tick ----

  lemma TickStep(m: Manager, t: nat, rest: seq<Obj>)
    requires Inv(m) && t in m.tasks && m.tasks[t] == Tick(rest)
    ensures Good(m, TickNext(m, t, rest))
  {
    assert TaskOk(m, t);
    hide Inv, Moves;
    if rest == [] || m.draining || rest[0] >= |m.watches| {
      EndStep(m, t);
    } else {
      var o, w := rest[0], m.watches[rest[0]];
      if w.status == Watching {
        TickRounds(m, t, rest);
      } else if w.status != Refused || m.machineStopped {
        BecomeKeeps(m, t, Tick(rest[1..]));
        SameMoves(m, TickNext(m, t, rest));
      } else {
        RefusedRests(m, t, o, rest[1..]);
        BecomeKeeps(m, t, TickAdmission(o, w.generation, rest[1..]));
        SameMoves(m, TickNext(m, t, rest));
      }
    }
  }

  lemma RefusedRests(m: Manager, t: nat, o: Obj, rest: seq<Obj>)
    requires Inv(m) && t in m.tasks && o < |m.watches| && m.watches[o].status == Refused
    ensures TaskOk(Become(m, t, TickAdmission(o, m.watches[o].generation, rest)), t)
  {
    assert TaskOk(m, t) && WatchOk(m, o);
  }

  lemma TickRounds(m: Manager, t: nat, rest: seq<Obj>)
    requires Inv(m) && t in m.tasks && m.tasks[t] == Tick(rest) && rest != [] && rest[0] < |m.watches|
    ensures Good(m, Become(RunSync(m, rest[0], FullRound), t, Tick(rest[1..])))
  {
    var o := rest[0];
    var r := RunSync(m, o, FullRound);
    var n := Become(r, t, Tick(rest[1..]));
    assert WatchOk(m, o);
    hide Inv, Moves, RunSync, WatchOk, MovedWatch, Ran, Noted, Covered;
    RunSyncKeeps(m, o, FullRound);
    RunSyncMoved(m, o, FullRound, m.watches[o], Covered(m, o));
    TickPlain(r, t, rest[1..]);
    TickCovers(r, t, rest[1..], o);
    OneMoves(m, n, o);
  }

  lemma TickCovers(m: Manager, t: nat, rest: seq<Obj>, o: Obj)
    requires t in m.tasks && m.tasks[t].Tick? && o < |m.watches|
    ensures Covered(Become(m, t, Tick(rest)), o) == Covered(m, o)
  {
  }

  lemma TickPlain(m: Manager, t: nat, rest: seq<Obj>)
    requires Inv(m) && t in m.tasks && m.tasks[t].Tick?
    ensures Inv(Become(m, t, Tick(rest)))
  {
    assert TaskOk(m, t);
    hide Inv;
    BecomeKeeps(m, t, Tick(rest));
  }

  lemma BumpedTasks(m: Manager, o: Obj)
    requires Inv(m) && o < |m.watches|
    ensures NoneFor(m, o, m.watches[o].generation + 1)
  {
    forall t | t in m.tasks && Subscribing(m.tasks[t]) && m.tasks[t].obj == o
      ensures m.tasks[t].generation != m.watches[o].generation + 1 {
      assert TaskOk(m, t);
    }
  }

  /** Re-admission of a refused object: the same object, a new generation. */
  lemma ReadmitKeeps(m: Manager, o: Obj)
    requires Inv(m) && o < |m.watches| && Resting(m.watches[o]) && !m.watches[o].aborted
    ensures
      var v := m.watches[o].(reportedRefusal := false, generation := m.watches[o].generation + 1, status := Admitting);
      Inv(Spawn(Put(m, o, v), Admission(o, v.generation)))
  {
    var w := m.watches[o];
    var v := w.(reportedRefusal := false, generation := w.generation + 1, status := Admitting);
    var p := Put(m, o, v);
    assert WatchOk(m, o);
    BumpedTasks(m, o);
    hide Inv;
    PutKeeps(m, o, v);
    assert NoneFor(p, o, v.generation);
    SpawnKeeps(p, Admission(o, v.generation));
  }

  lemma TickAdmittedStep(m: Manager, t: nat, o: Obj, g: nat, rest: seq<Obj>, refused: bool)
    requires Inv(m) && o < |m.watches| && t in m.tasks && m.tasks[t] == TickAdmission(o, g, rest)
    ensures Good(m, TickAdmitted(m, t, o, g, rest, refused))
  {
    var w, b, n := m.watches[o], Become(m, t, Tick(rest)), TickAdmitted(m, t, o, g, rest, refused);
    assert TaskOk(m, t) && WatchOk(m, o);
    FreshId(m);
    hide Inv, Moves;
    BecomeKeeps(m, t, Tick(rest));
    if n == b {
      SameMoves(m, n);
    } else {
      ReadmittedIs(m, t, o, g, rest);
      hide WatchOk, TickAdmitted, Launch;
      ReadmitKeeps(b, o);
      ReadmittedMoves(m, t, o, rest);
    }
  }

  lemma ReadmittedIs(m: Manager, t: nat, o: Obj, g: nat, rest: seq<Obj>)
    requires o < |m.watches| && WatchOk(m, o) && TickAdmitted(m, t, o, g, rest, false) != Become(m, t, Tick(rest))
    ensures
      var w := m.watches[o];
      var v := w.(reportedRefusal := false, generation := w.generation + 1, status := Admitting);
      TickAdmitted(m, t, o, g, rest, false) == Spawn(Put(Become(m, t, Tick(rest)), o, v), Admission(o, v.generation))
  {
  }

  lemma ReadmittedMoves(m: Manager, t: nat, o: Obj, rest: seq<Obj>)
    requires o < |m.watches| && t in m.tasks && m.tasks[t].TickAdmission? && m.nextTask !in m.tasks
    ensures
      var w := m.watches[o];
      var v := w.(reportedRefusal := false, generation := w.generation + 1, status := Admitting);
      Moves(m, Spawn(Put(Become(m, t, Tick(rest)), o, v), Admission(o, v.generation)))
  {
    var w := m.watches[o];
    var v := w.(reportedRefusal := false, generation := w.generation + 1, status := Admitting);
    var n := Spawn(Put(Become(m, t, Tick(rest)), o, v), Admission(o, v.generation));
    hide Moves;
    PassiveMoved(w, v, Covered(m, o), Covered(n, o));
    hide MovedWatch, Covered;
    OneMoves(m, n, o);
  }

  // ---- A new object ----

  /** The loop has no object, or its object was stopped. */
  predicate Vacant(m: Manager, l: LoopId) {
    l in m.states ==> m.states[l] < |m.watches| && m.watches[m.states[l]].aborted
  }

  function Added(m: Manager, w: Watch): Manager {
    m.(watches := m.watches + [w], states := m.states[w.item.loopId := |m.watches|])
  }

  function NewWatch(item: Item, generation: nat): Watch {
    Watch(item, generation, Admitting, false, None, false, None, None, None, Idle, false)
  }

  lemma AddedWatch(m: Manager, item: Item, g: nat, p: Obj)
    requires p <= |m.watches| && (p < |m.watches| ==> WatchOk(m, p))
    requires Vacant(m, item.loopId) && !m.draining && !m.machineStopped
    ensures WatchOk(Added(m, NewWatch(item, g)), p)
  {
  }

  lemma AddedTask(m: Manager, item: Item, g: nat, t: nat)
    requires t in m.tasks && TaskOk(m, t)
    ensures TaskOk(Added(m, NewWatch(item, g)), t)
  {
  }

  lemma AddKeeps(m: Manager, item: Item, g: nat)
    requires Inv(m) && Vacant(m, item.loopId) && !m.draining && !m.machineStopped
    ensures Inv(Added(m, NewWatch(item, g)))
  {
    var l := item.loopId;
    var n := Added(m, NewWatch(item, g));
    if l in m.states { assert WatchOk(m, m.states[l]); }
    forall k ensures Held(n, k) == Held(m, k) { if k in m.states { assert StateOk(m, k); } }
    forall k | k in n.states ensures StateOk(n, k) { if k in m.states { assert StateOk(m, k); } }
    forall t | t in n.tasks ensures TaskOk(n, t) { AddedTask(m, item, g, t); }
    forall t, u | t in n.tasks && u in n.tasks ensures Apart(n, t, u) { assert Apart(m, t, u); }
    hide TaskOk, Apart, StateOk, Held;
    forall p: nat | p < |n.watches| ensures WatchOk(n, p) { AddedWatch(m, item, g, p); }
    hide WatchOk, ChainOk, LiveOk;
    SameWatchersOk(m, n);
  }

  lemma InstallKeeps(m: Manager, item: Item, g: nat)
    requires Inv(m) && Vacant(m, item.loopId) && !m.draining && !m.machineStopped
    ensures var n := Install(m, item, g); Inv(n) && Quieter(m, n) && !n.draining && !n.machineStopped
  {
    var a, o := Added(m, NewWatch(item, g)), |m.watches|;
    FreshId(m);
    AddKeeps(m, item, g);
    assert NoneFor(a, o, g) by { NoTaskOfNew(m, o); }
    InstallIs(m, item, g);
    hide Inv, Install;
    SpawnKeeps(a, Admission(o, g));
  }

  lemma InstallIs(m: Manager, item: Item, g: nat)
    requires !m.draining && !m.machineStopped
    ensures Install(m, item, g) == Spawn(Added(m, NewWatch(item, g)), Admission(|m.watches|, g))
  {
    var a, o := Added(m, NewWatch(item, g)), |m.watches|;
    assert Put(a, o, NewWatch(item, g)) == a;
  }

  lemma NoTaskOfNew(m: Manager, o: Obj)
    requires Inv(m) && o == |m.watches|
    ensures forall t :: t in m.tasks && !m.tasks[t].Tick? ==> m.tasks[t].obj != o
  {
    forall t | t in m.tasks && !m.tasks[t].Tick? ensures m.tasks[t].obj != o { assert TaskOk(m, t); }
  }

  lemma CurrentFacts(m: Manager, l: LoopId)
    requires Inv(m) && l in m.states
    ensures m.states[l] < |m.watches| && (m.watches[m.states[l]].status == Parked ==> Vacant(m, l))
  {
    assert StateOk(m, l) && WatchOk(m, m.states[l]);
  }

  /** Stop the object in force, then start its successor. */
  lemma SwapKeeps(m: Manager, item: Item, o: Obj, g: nat)
    requires Inv(m) && !m.draining && !m.machineStopped
    requires item.loopId in m.states && m.states[item.loopId] == o && o < |m.watches|
    ensures var n := Install(StopLoop(m, o), item, g); Inv(n) && Quieter(m, n) && !n.draining && !n.machineStopped
  {
    hide Inv, Install, StopLoop, Quieter;
    StopLoopKeeps(m, o);
    StopKeepsFlags(m, o);
    InstallKeeps(StopLoop(m, o), item, g);
    QuieterTransitive(m, StopLoop(m, o), Install(StopLoop(m, o), item, g));
  }

  lemma ReconcileItemKeeps(m: Manager, item: Item)
    requires Inv(m) && !m.draining && !m.machineStopped
    ensures var n := ReconcileItem(m, item); Inv(n) && Quieter(m, n) && !n.draining && !n.machineStopped
  {
    hide Inv, Install, StopLoop;
    var l := item.loopId;
    if l in m.states {
      CurrentFacts(m, l);
      var o := m.states[l];
      var w := m.watches[o];
      if w.item != item {
        SwapKeeps(m, item, o, w.generation + 1);
      } else if w.status == Parked {
        InstallKeeps(m, item, w.generation + 1);
      }
    } else {
      InstallKeeps(m, item, 1);
    }
  }

  lemma StopKeepsFlags(m: Manager, o: Obj)
    requires o < |m.watches|
    ensures StopLoop(m, o).draining == m.draining && StopLoop(m, o).machineStopped == m.machineStopped
  {
  }

  lemma {:induction false} ReconcileItemsKeeps(m: Manager, items: seq<Item>)
    requires Inv(m) && !m.draining && !m.machineStopped
    ensures var n := ReconcileItems(m, items); Inv(n) && Quieter(m, n) && !n.draining && !n.machineStopped
  {
    hide Inv, ReconcileItem;
    if items != [] {
      var before, last := ReconcileItems(m, items[..|items| - 1]), items[|items| - 1];
      ReconcileItemsKeeps(m, items[..|items| - 1]);
      ReconcileItemKeeps(before, last);
      QuieterTransitive(m, before, ReconcileItem(before, last));
    }
  }

  lemma ApplyStep(m: Manager, items: seq<Item>)
    requires Inv(m)
    ensures Good(m, Apply(m, items))
  {
    hide Inv, Moves, Quieter, StopAll, ReconcileItems, SameWatchSet;
    if m.draining || SameWatchSet(m.applied, items) {
      SameMoves(m, m);
    } else {
      var reach := Unwanted(set i | i in items :: i.loopId);
      var r := StopAll(m, |m.watches|, reach);
      var n := WithFlags(r, items, false, false);
      StopAllKeeps(m, |m.watches|, reach);
      FlagsKeep(r, items, false, false);
      StopAllFlags(m, |m.watches|, reach, items, false, false);
      assert m.(applied := items, machineStopped := false) == WithFlags(m, items, false, false);
      FlagsQuieter(m, r, items, false, false);
      ReconcileItemsKeeps(n, items);
      QuieterTransitive(m, n, ReconcileItems(n, items));
      QuieterMoves(m, ReconcileItems(n, items));
    }
  }

  lemma FlagsQuieter(m: Manager, r: Manager, items: seq<Item>, stopped: bool, draining: bool)
    requires Quieter(m, r)
    ensures Quieter(m, WithFlags(r, items, stopped, draining))
  {
  }

  // ---- Every step ----

  lemma TaskStep(m: Manager, t: nat, outcome: Outcome, ok: bool)
    requires Inv(m) && t in m.tasks
    ensures Good(m, Resume(m, t, outcome, ok))
  {
    assert TaskOk(m, t);
    hide Inv, Moves, WindowOver, ErrorWindowOver, ErrorReported, AdmissionDone, RefusalReported, PredecessorClosed,
         WatcherReady, TickNext, TickAdmitted, Claim;
    match m.tasks[t]
    case Window(o, g) => WindowStep(m, t, o, g);
    case ErrorWindow(o, g) => ErrorWindowStep(m, t, o, g);
    case ErrorReport(o, g) => ErrorReportStep(m, t, o, g, outcome);
    case Admission(o, g) => AdmissionStep(m, t, o, g, !ok);
    case RefusalReport(o, g) => RefusalReportStep(m, t, o, g, outcome);
    case AwaitClose(o, g, upTo) => PredecessorStep(m, t, o, g, upTo);
    case AwaitReady(o, g) => ReadyStep(m, t, o, g, ok);
    case Tick(rest) => TickStep(m, t, rest);
    case TickAdmission(o, g, rest) => TickAdmittedStep(m, t, o, g, rest, !ok);
  }

  lemma CloseStep(m: Manager, l: LoopId, i: nat)
    requires Inv(m)
    ensures Good(m, CloseDone(m, l, i))
  {
    hide Inv, Moves;
    CloseDoneKeeps(m, l, i);
    SameMoves(m, CloseDone(m, l, i));
  }

  lemma TickStartsStep(m: Manager)
    requires Inv(m)
    ensures Good(m, Next(m, TickStarts))
  {
    FreshId(m);
    hide Inv, Moves;
    if m.draining {
      SameMoves(m, m);
    } else {
      var task := Tick(CurrentUpTo(m, |m.watches|));
      SpawnPlain(m, task);
      SameMoves(m, Spawn(m, task));
    }
  }

  lemma DrainStep(m: Manager)
    requires Inv(m)
    ensures Good(m, Next(m, Drain))
  {
    hide Inv, Moves, Quieter, StopAll;
    StopEverything(m, StopEach, m.machineStopped, true);
    var n := StopAll(WithFlags(m, m.applied, m.machineStopped, true), |m.watches|, StopEach);
    assert WithFlags(m, m.applied, m.machineStopped, true) == m.(draining := true);
    QuieterMoves(m, n);
  }

  /** A round that throws leaves nothing of its object changed but the driver. */
  lemma ThrowKeeps(m: Manager, o: Obj)
    requires Inv(m) && o < |m.watches|
    ensures
      var n := RoundThrown(m, o);
      Inv(n) && Touches(m, n, o) && n.watches[o] == m.watches[o].(driver := n.watches[o].driver)
  {
    assert WatchOk(m, o);
    hide Inv;
    if m.watches[o].driver.InRound? { PutKeeps(m, o, m.watches[o].(driver := Idle)); }
  }

  /** Every step of every task, in any order, but for rounds that throw. */
  lemma NextStep(m: Manager, step: Step)
    requires Inv(m) && !step.RoundThrows?
    ensures Good(m, Next(m, step))
  {
    hide Inv, Moves, Apply, MarkDirty, WatcherError, RoundIsOver, NextRound, Resume, CloseDone, StopAll;
    match step
    case SetApplied(items) => ApplyStep(m, items);
    case EventSeen(o) => if o < |m.watches| { EventStep(m, o); } else { SameMoves(m, m); }
    case ErrorSeen(o) => if o < |m.watches| { ErrorSeenStep(m, o); } else { SameMoves(m, m); }
    case RoundReturns(o, outcome) => if o < |m.watches| { RoundReturnsStep(m, o, outcome); } else { SameMoves(m, m); }
    case DriverResumes(o) =>
      if o < |m.watches| && m.watches[o].driver == Settling { DriverResumesStep(m, o); } else { SameMoves(m, m); }
    case TaskResumes(t, outcome, ok) => if t in m.tasks { TaskStep(m, t, outcome, ok); } else { SameMoves(m, m); }
    case TickStarts => TickStartsStep(m);
    case CloseResolves(l, i) => CloseStep(m, l, i);
    case Drain => DrainStep(m);
  }

  lemma StepKeeps(m: Manager, step: Step)
    requires Inv(m)
    ensures Inv(Next(m, step))
  {
    hide Inv, Moves;
    if step.RoundThrows? {
      if step.obj < |m.watches| { ThrowKeeps(m, step.obj); }
    } else {
      NextStep(m, step);
    }
  }

  lemma {:induction false} Reachable(steps: seq<Step>)
    ensures Inv(Run(steps))
  {
    if steps == [] {
      assert forall l :: ChainOk(START, l);
    } else {
      hide Inv, Next;
      Reachable(steps[..|steps| - 1]);
      StepKeeps(Run(steps[..|steps| - 1]), steps[|steps| - 1]);
    }
  }
}
