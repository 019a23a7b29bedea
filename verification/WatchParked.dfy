/**
 An object in force is aborted only when it is parked: a stop of the loop or of the
 machine, until the loop is applied again.
 */
module WatchParked {
  import opened Wrappers
  import opened WatchManager
  import opened WatchSafety
  import opened WatchSteps
  import opened WatchEffects

  /** Nothing of a parked object's generation is still under way. */
  ghost predicate ParkedOk(m: Manager, o: Obj)
    requires o < |m.watches|
  {
    var w := m.watches[o];
    w.status == Parked ==>
      && w.aborted && (w.driver.InRound? ==> w.driver.generation < w.generation)
      && forall t :: t in m.tasks && !m.tasks[t].Tick? && m.tasks[t].obj == o ==> m.tasks[t].generation < w.generation
  }

  predicate ForceOk(m: Manager, o: Obj)
    requires o < |m.watches|
  {
    m.watches[o].aborted && IsCurrent(m, o) ==> m.watches[o].status == Parked
  }

  ghost predicate Whole(m: Manager) {
    !m.draining ==> forall o: nat :: o < |m.watches| ==> ParkedOk(m, o) && ForceOk(m, o)
  }

  // ---- Steps that stop nothing ----

  predicate CalmWatch(w: Watch, v: Watch) {
    && v.aborted == w.aborted && v.item == w.item && (v.status == Parked <==> w.status == Parked)
    && (w.status == Parked ==> v.generation == w.generation && (v.driver.InRound? ==> v.driver == w.driver))
  }

  /** A waiting job that is an old one, or of an object that is not parked. */
  predicate CalmTask(m: Manager, t: nat, task: Task) {
    || task.Tick?
    || (t in m.tasks && !m.tasks[t].Tick? && m.tasks[t].obj == task.obj && m.tasks[t].generation == task.generation)
    || (task.obj < |m.watches| && m.watches[task.obj].status != Parked)
  }

  ghost predicate Calm(m: Manager, n: Manager) {
    && n.states == m.states && n.draining == m.draining && |n.watches| == |m.watches|
    && (forall o: nat :: o < |m.watches| ==> CalmWatch(m.watches[o], n.watches[o]))
    && (forall t :: t in n.tasks ==> CalmTask(m, t, n.tasks[t]))
  }

  lemma CalmKeeps(m: Manager, n: Manager)
    requires Whole(m) && Calm(m, n)
    ensures Whole(n)
  {
    forall o: nat | !n.draining && o < |n.watches| ensures ParkedOk(n, o) && ForceOk(n, o) {
      assert ParkedOk(m, o) && ForceOk(m, o) && CalmWatch(m.watches[o], n.watches[o]);
      forall t | t in n.tasks && !n.tasks[t].Tick? && n.tasks[t].obj == o && n.watches[o].status == Parked
        ensures n.tasks[t].generation < n.watches[o].generation
      {
        assert CalmTask(m, t, n.tasks[t]);
      }
    }
  }

  lemma CalmJoins(m: Manager, n: Manager, r: Manager)
    requires Calm(m, n) && Calm(n, r)
    ensures Calm(m, r)
  {
    forall t | t in r.tasks ensures CalmTask(m, t, r.tasks[t]) {
      assert CalmTask(n, t, r.tasks[t]);
      if t in n.tasks { assert CalmTask(m, t, n.tasks[t]); }
    }
  }

  /** One watch changed calmly, the jobs as they were or fewer. */
  lemma PutCalm(m: Manager, o: Obj, v: Watch)
    requires o < |m.watches| && CalmWatch(m.watches[o], v)
    ensures Calm(m, Put(m, o, v))
  {
  }

  lemma EndCalm(m: Manager, t: nat)
    ensures Calm(m, End(m, t))
  {
  }

  lemma SpawnCalm(m: Manager, task: Task)
    requires CalmTask(m, m.nextTask, task)
    ensures Calm(m, Spawn(m, task))
  {
  }

  lemma BecomeCalm(m: Manager, t: nat, task: Task)
    requires CalmTask(m, t, task)
    ensures Calm(m, Become(m, t, task))
  {
  }

  lemma SameCalm(m: Manager)
    ensures Calm(m, m)
  {
  }

  /** A calm step followed by a calm change of one watch. */
  lemma ThenPut(m: Manager, n: Manager, o: Obj, v: Watch)
    requires Calm(m, n) && o < |n.watches| && CalmWatch(n.watches[o], v)
    ensures Calm(m, Put(n, o, v))
  {
    hide Calm, CalmWatch;
    PutCalm(n, o, v);
    CalmJoins(m, n, Put(n, o, v));
  }

  lemma RunSyncCalm(m: Manager, o: Obj, mode: Mode)
    requires o < |m.watches|
    ensures Calm(m, RunSync(m, o, mode))
  {
    hide Calm;
    SameCalm(m);
    PutCalm(m, o, Noted(m.watches[o], mode));
    if CanRun(m, o) { PutCalm(m, o, Started(m.watches[o], mode)); }
  }

  lemma ThenRunSync(m: Manager, n: Manager, o: Obj, mode: Mode)
    requires Calm(m, n) && o < |n.watches|
    ensures Calm(m, RunSync(n, o, mode))
  {
    hide Calm, RunSync;
    RunSyncCalm(n, o, mode);
    CalmJoins(m, n, RunSync(n, o, mode));
  }

  lemma ChainsCalm(m: Manager, n: Manager)
    requires n == m.(closes := n.closes, live := n.live, nextWatcher := n.nextWatcher)
    ensures Calm(m, n)
  {
  }

  lemma ThenClose(m: Manager, n: Manager, o: Obj)
    requires Calm(m, n) && o < |n.watches|
    ensures Calm(m, CloseWatcher(n, o))
  {
    var r := CloseWatcher(n, o);
    ChainsCalm(n, n.(closes := r.closes));
    hide Calm;
    CalmJoins(m, n, n.(closes := r.closes));
    ThenPut(m, n.(closes := r.closes), o, n.watches[o].(watcher := None));
    assert r == Put(n.(closes := r.closes), o, n.watches[o].(watcher := None));
  }

  lemma ThenSpawn(m: Manager, n: Manager, task: Task)
    requires Calm(m, n) && CalmTask(n, n.nextTask, task)
    ensures Calm(m, Spawn(n, task))
  {
    hide Calm, CalmTask;
    SpawnCalm(n, task);
    CalmJoins(m, n, Spawn(n, task));
  }

  lemma ThenLaunch(m: Manager, n: Manager, o: Obj)
    requires Calm(m, n) && o < |n.watches| && n.watches[o].status != Parked
    ensures Calm(m, Launch(n, o))
  {
    hide Calm;
    var v := n.watches[o].(status := Admitting);
    ThenPut(m, n, o, v);
    if !Abandoned(Put(n, o, v), o, v.generation) { ThenSpawn(m, Put(n, o, v), Admission(o, v.generation)); }
  }

  // ---- The steps one by one ----

  lemma MarkDirtyCalm(m: Manager, o: Obj)
    requires o < |m.watches|
    ensures Calm(m, MarkDirty(m, o))
  {
    hide Calm;
    var w := m.watches[o];
    SameCalm(m);
    if !m.draining && w.status == Admitting { ThenPut(m, m, o, Noted(w, EventRound)); }
    else if !m.draining && w.status == Watching && w.window.None? {
      ThenSpawn(m, m, Window(o, w.generation));
      ThenPut(m, Spawn(m, Window(o, w.generation)), o, w.(window := Some(m.nextTask)));
    }
  }

  lemma WatcherErrorCalm(m: Manager, o: Obj)
    requires o < |m.watches|
    ensures Calm(m, WatcherError(m, o))
  {
    hide Calm;
    var w := m.watches[o];
    SameCalm(m);
    if w.status == Watching || w.status == Admitting {
      ThenSpawn(m, m, ErrorWindow(o, w.generation));
      ThenPut(m, Spawn(m, ErrorWindow(o, w.generation)), o, w.(errorWindow := Some(m.nextTask)));
    }
  }

  lemma DriverCalm(m: Manager, o: Obj)
    requires o < |m.watches|
    ensures Calm(m, NextRound(m, o)) && Calm(m, RoundThrown(m, o))
  {
    hide Calm;
    var w := m.watches[o];
    SameCalm(m);
    PutCalm(m, o, w.(pending := None, driver := Idle));
    PutCalm(m, o, w.(driver := Idle));
    if w.pending.Some? && CanRun(m, o) { PutCalm(m, o, Started(w.(pending := None), w.pending.value)); }
  }

  lemma WindowCalm(m: Manager, t: nat, o: Obj, g: nat)
    requires o < |m.watches|
    ensures Calm(m, WindowOver(m, t, o, g))
  {
    hide Calm, RunSync;
    var w, n := m.watches[o], End(m, t);
    EndCalm(m, t);
    ThenPut(m, n, o, w.(window := if w.window == Some(t) then None else w.window));
    ThenPut(m, n, o, w.(window := None));
    ThenRunSync(m, Put(n, o, w.(window := None)), o, EventRound);
  }

  lemma ErrorDoneCalm(m: Manager, t: nat, o: Obj)
    requires o < |m.watches|
    ensures Calm(m, ErrorDone(m, t, o))
  {
    hide Calm;
    EndCalm(m, t);
    ThenPut(m, End(m, t), o, m.watches[o].(errorWindow := if m.watches[o].errorWindow == Some(t) then None
                                                          else m.watches[o].errorWindow));
  }

  /** A job of object o and generation g, as it waits. */
  predicate Job(m: Manager, t: nat, o: Obj, g: nat) {
    && o < |m.watches| && t in m.tasks && !m.tasks[t].Tick? && m.tasks[t].obj == o && m.tasks[t].generation == g
  }

  lemma ErrorWindowCalm(m: Manager, t: nat, o: Obj, g: nat)
    requires Job(m, t, o, g)
    ensures Calm(m, ErrorWindowOver(m, t, o, g))
  {
    hide Calm, ErrorDone;
    ErrorDoneCalm(m, t, o);
    BecomeCalm(m, t, ErrorReport(o, g));
  }

  lemma AdmissionCalm(m: Manager, t: nat, o: Obj, g: nat, refused: bool)
    requires Job(m, t, o, g)
    ensures Calm(m, AdmissionDone(m, t, o, g, refused))
  {
    hide Calm;
    var w := m.watches[o];
    EndCalm(m, t);
    BecomeCalm(m, t, AwaitClose(o, g, |Chain(m, w.item.loopId)|));
    BecomeCalm(m, t, RefusalReport(o, g));
    if !Abandoned(m, o, g) {
      var v := w.(status := Refused, reportedRefusal := true);
      ThenPut(m, End(m, t), o, v);
      ThenPut(m, Become(m, t, RefusalReport(o, g)), o, v);
      assert End(Put(m, o, v), t) == Put(End(m, t), o, v);
      assert Become(Put(m, o, v), t, RefusalReport(o, g)) == Put(Become(m, t, RefusalReport(o, g)), o, v);
    }
  }

  lemma SubscribeCalm(m: Manager, t: nat, o: Obj, g: nat, upTo: nat)
    requires Job(m, t, o, g)
    ensures Calm(m, PredecessorClosed(m, t, o, g, upTo))
  {
    hide Calm;
    var w := m.watches[o];
    SameCalm(m);
    EndCalm(m, t);
    var n, v := m.(live := m.live[m.nextWatcher := w.item.loopId], nextWatcher := m.nextWatcher + 1),
      w.(watcher := Some(m.nextWatcher));
    ChainsCalm(m, n);
    ThenPut(m, n, o, v);
    BecomeCalm(Put(n, o, v), t, AwaitReady(o, g));
    CalmJoins(m, Put(n, o, v), Become(Put(n, o, v), t, AwaitReady(o, g)));
  }

  lemma ReadyCalm(m: Manager, t: nat, o: Obj, g: nat, ok: bool)
    requires Job(m, t, o, g)
    ensures Calm(m, WatcherReady(m, t, o, g, ok))
  {
    hide Calm, RunSync, CloseWatcher;
    EndCalm(m, t);
    ThenClose(m, End(m, t), o);
    if !Abandoned(m, o, g) {
      var n := Put(End(m, t), o, m.watches[o].(status := Watching));
      ThenPut(m, End(m, t), o, m.watches[o].(status := Watching));
      ThenRunSync(m, n, o, FullRound);
    }
  }

  lemma TickCalm(m: Manager, t: nat, rest: seq<Obj>)
    requires t in m.tasks && m.tasks[t] == Tick(rest)
    ensures Calm(m, TickNext(m, t, rest))
  {
    hide Calm, RunSync;
    EndCalm(m, t);
    if rest != [] && rest[0] < |m.watches| {
      var o, w := rest[0], m.watches[rest[0]];
      BecomeCalm(m, t, Tick(rest[1..]));
      RunSyncCalm(m, o, FullRound);
      var r := RunSync(m, o, FullRound);
      BecomeCalm(r, t, Tick(rest[1..]));
      CalmJoins(m, r, Become(r, t, Tick(rest[1..])));
      if w.status == Refused { BecomeCalm(m, t, TickAdmission(o, w.generation, rest[1..])); }
    }
  }

  lemma ReadmitCalm(m: Manager, t: nat, o: Obj, g: nat, rest: seq<Obj>, refused: bool)
    requires Job(m, t, o, g) && Whole(m)
    ensures Calm(m, TickAdmitted(m, t, o, g, rest, refused))
  {
    assert !m.draining ==> ParkedOk(m, o);
    hide Calm, Launch;
    var w, n := m.watches[o], Become(m, t, Tick(rest));
    BecomeCalm(m, t, Tick(rest));
    if !m.draining && w.status != Parked {
      var v := w.(reportedRefusal := false, generation := w.generation + 1);
      ThenPut(m, n, o, v);
      ThenLaunch(m, Put(n, o, v), o);
    }
  }

  // ---- Stops ----

  /** What is under way is of the object's generation or an earlier one. */
  ghost predicate Aged(m: Manager, o: Obj)
    requires o < |m.watches|
  {
    var w := m.watches[o];
    && (w.driver.InRound? ==> w.driver.generation <= w.generation)
    && forall t :: t in m.tasks && !m.tasks[t].Tick? && m.tasks[t].obj == o ==> m.tasks[t].generation <= w.generation
  }

  lemma InForceAged(m: Manager, o: Obj)
    requires Inv(m) && Whole(m) && !m.draining && o < |m.watches| && IsCurrent(m, o)
    ensures Aged(m, o)
  {
    assert WatchOk(m, o) && ParkedOk(m, o) && ForceOk(m, o);
    forall t | t in m.tasks && !m.tasks[t].Tick? && m.tasks[t].obj == o
      ensures m.tasks[t].generation <= m.watches[o].generation {
      assert TaskOk(m, t);
    }
  }

  lemma ParkWhole(m: Manager, o: Obj)
    requires Whole(m) && o < |m.watches| && Aged(m, o)
    ensures Whole(ParkLoop(m, o))
  {
    var n := ParkLoop(m, o);
    forall p: nat | !n.draining && p < |n.watches| ensures ParkedOk(n, p) && ForceOk(n, p) {
      assert ParkedOk(m, p) && ForceOk(m, p);
    }
  }

  lemma {:induction false} ParkAllWhole(m: Manager, k: nat)
    requires Inv(m) && Whole(m) && !m.draining && k <= |m.watches|
    ensures var r := StopAll(m, k, ParkEach); Whole(r) && r.draining == m.draining
  {
    if k > 0 {
      hide Whole, Inv, Quieter;
      ParkAllWhole(m, k - 1);
      StopAllKeeps(m, k - 1, ParkEach);
      var r := StopAll(m, k - 1, ParkEach);
      if IsCurrent(r, k - 1) {
        InForceAged(r, k - 1);
        ParkWhole(r, k - 1);
      }
    }
  }

  /** An object in force with something of its own generation under way is not parked. */
  lemma OutcomeWhole(m: Manager, o: Obj, outcome: Outcome)
    requires Inv(m) && Whole(m) && !m.draining && o < |m.watches| && IsCurrent(m, o) && m.watches[o].status != Parked
    ensures Whole(HandleOutcome(m, o, outcome))
  {
    var w := m.watches[o];
    match outcome {
      case Quiet =>
      case StoppedMachine =>
        StopAllFlags(m, |m.watches|, ParkEach, m.applied, true, m.draining);
        ParkAllWhole(m, |m.watches|);
        var r := StopAll(m, |m.watches|, ParkEach);
        assert HandleOutcome(m, o, outcome) == WithFlags(r, m.applied, true, m.draining) by { hide StopAll; }
        hide StopAll, Inv;
        WholeFlags(r, m.applied, true);
      case StoppedLoop =>
        InForceAged(m, o);
        ParkWhole(m, o);
      case ConfigMoved => ShutWhole(m, o, w.(status := ConfigChanged));
      case RootFailed => ShutWhole(m, o, w.(status := Refused, reportedRefusal := true));
    }
  }

  lemma WholeFlags(m: Manager, applied: seq<Item>, stopped: bool)
    requires Whole(m)
    ensures Whole(WithFlags(m, applied, stopped, m.draining))
  {
    var n := WithFlags(m, applied, stopped, m.draining);
    forall o: nat | !n.draining && o < |n.watches| ensures ParkedOk(n, o) && ForceOk(n, o) {
      assert ParkedOk(m, o) && ForceOk(m, o);
    }
  }

  lemma ShutWhole(m: Manager, o: Obj, v: Watch)
    requires Whole(m) && o < |m.watches| && CalmWatch(m.watches[o], v)
    ensures Whole(CloseWatcher(Put(m, o, v), o))
  {
    hide Calm, Whole;
    PutCalm(m, o, v);
    ThenClose(m, Put(m, o, v), o);
    CalmKeeps(m, CloseWatcher(Put(m, o, v), o));
  }

  /** An outcome never ends or starts a drain. */
  lemma OutcomeDrains(m: Manager, o: Obj, outcome: Outcome)
    requires o < |m.watches|
    ensures HandleOutcome(m, o, outcome).draining == m.draining
  {
    if outcome.StoppedMachine? {
      StopAllFlags(m, |m.watches|, ParkEach, m.applied, true, m.draining);
      assert WithFlags(m, m.applied, true, m.draining) == m.(machineStopped := true);
      hide StopAll;
    }
  }

  lemma CurrentOutcomeWhole(m: Manager, o: Obj, outcome: Outcome)
    requires Inv(m) && Whole(m) && o < |m.watches| && (!m.draining ==> IsCurrent(m, o) && m.watches[o].status != Parked)
    ensures Whole(HandleOutcome(m, o, outcome))
  {
    hide HandleOutcome, Inv;
    if m.draining {
      OutcomeDrains(m, o, outcome);
    } else {
      hide Whole;
      OutcomeWhole(m, o, outcome);
    }
  }

  lemma ParkedIsQuiet(m: Manager, o: Obj)
    requires Whole(m) && !m.draining && o < |m.watches| && m.watches[o].status == Parked
    ensures m.watches[o].driver.InRound? ==> m.watches[o].driver.generation < m.watches[o].generation
    ensures forall t :: t in m.tasks && !m.tasks[t].Tick? && m.tasks[t].obj == o ==>
      m.tasks[t].generation < m.watches[o].generation
  {
    assert ParkedOk(m, o);
  }

  lemma RoundWhole(m: Manager, o: Obj, outcome: Outcome)
    requires Inv(m) && Whole(m) && o < |m.watches|
    ensures Whole(RoundIsOver(m, o, outcome))
  {
    var w := m.watches[o];
    if !m.draining && w.status == Parked { ParkedIsQuiet(m, o); }
    hide Calm, HandleOutcome, Whole, Inv, Moves;
    PutCalm(m, o, w.(driver := Idle));
    CalmKeeps(m, Put(m, o, w.(driver := Idle)));
    if w.driver.InRound? && w.driver.generation == w.generation && IsCurrent(m, o) {
      var n := Put(m, o, w.(driver := Settling));
      PutCalm(m, o, w.(driver := Settling));
      CalmKeeps(m, n);
      SettlingStep(m, o);
      CurrentOutcomeWhole(n, o, outcome);
    }
  }

  lemma ErrorReportWhole(m: Manager, t: nat, o: Obj, g: nat, outcome: Outcome)
    requires Inv(m) && Whole(m) && Job(m, t, o, g) && !m.tasks[t].Window?
    ensures Whole(ErrorReported(m, t, o, g, outcome))
  {
    if !m.draining && m.watches[o].status == Parked { ParkedIsQuiet(m, o); }
    hide Calm, HandleOutcome, Whole, Inv, Moves;
    ErrorDoneCalm(m, t, o);
    CalmKeeps(m, ErrorDone(m, t, o));
    if m.watches[o].generation == g && IsCurrent(m, o) {
      ErrorDoneStep(m, t, o);
      CurrentOutcomeWhole(ErrorDone(m, t, o), o, outcome);
    }
  }

  lemma RefusalReportWhole(m: Manager, t: nat, o: Obj, g: nat, outcome: Outcome)
    requires Inv(m) && Whole(m) && Job(m, t, o, g) && !m.tasks[t].Window?
    ensures Whole(RefusalReported(m, t, o, g, outcome))
  {
    if !m.draining && m.watches[o].status == Parked { ParkedIsQuiet(m, o); }
    hide Calm, HandleOutcome, Whole, Inv, Moves;
    EndCalm(m, t);
    CalmKeeps(m, End(m, t));
    if !m.draining && m.watches[o].generation == g && IsCurrent(m, o) {
      EndStep(m, t);
      CurrentOutcomeWhole(End(m, t), o, outcome);
    }
  }

  // ---- The applied set ----

  lemma DropWhole(m: Manager, o: Obj, wanted: set<LoopId>)
    requires Whole(m) && o < |m.watches|
    ensures Whole(StopOne(m, o, Unwanted(wanted)))
  {
    var n := StopOne(m, o, Unwanted(wanted));
    forall p: nat | !n.draining && p < |n.watches| ensures ParkedOk(n, p) && ForceOk(n, p) {
      assert ParkedOk(m, p) && ForceOk(m, p);
    }
  }

  lemma {:induction false} DropAllWhole(m: Manager, k: nat, wanted: set<LoopId>)
    requires Whole(m) && k <= |m.watches|
    ensures Whole(StopAll(m, k, Unwanted(wanted)))
  {
    if k > 0 {
      DropAllWhole(m, k - 1, wanted);
      hide Whole;
      DropWhole(StopAll(m, k - 1, Unwanted(wanted)), k - 1, wanted);
    }
  }

  /** A new object takes the place of the loop's object, stopped or not. */
  lemma InstallWhole(m: Manager, item: Item, base: Manager, g: nat)
    requires Whole(m) && !m.draining && !m.machineStopped
    requires
      || base == m
      || (item.loopId in m.states && m.states[item.loopId] < |m.watches| && base == StopLoop(m, m.states[item.loopId])
          && m.watches[m.states[item.loopId]].item.loopId == item.loopId)
    requires forall t :: t in m.tasks && !m.tasks[t].Tick? ==> m.tasks[t].obj < |m.watches|
    ensures Whole(Install(base, item, g))
  {
    InstallIs(base, item, g);
    var n := Install(base, item, g);
    forall p: nat | !n.draining && p < |n.watches| ensures ParkedOk(n, p) && ForceOk(n, p) {
      if p < |m.watches| { assert ParkedOk(m, p) && ForceOk(m, p); }
    }
  }

  lemma ItemWhole(m: Manager, item: Item)
    requires Inv(m) && Whole(m) && !m.draining && !m.machineStopped
    ensures Whole(ReconcileItem(m, item))
  {
    var l := item.loopId;
    forall t | t in m.tasks && !m.tasks[t].Tick? ensures m.tasks[t].obj < |m.watches| { assert TaskOk(m, t); }
    if l in m.states { assert StateOk(m, l); }
    hide Whole, Inv, Install, StopLoop;
    if l !in m.states || m.states[l] >= |m.watches| {
      InstallWhole(m, item, m, 1);
    } else {
      var o := m.states[l];
      if m.watches[o].item != item {
        InstallWhole(m, item, StopLoop(m, o), m.watches[o].generation + 1);
      } else if m.watches[o].status == Parked {
        InstallWhole(m, item, m, m.watches[o].generation + 1);
      }
    }
  }

  lemma {:induction false} ItemsWhole(m: Manager, items: seq<Item>)
    requires Inv(m) && Whole(m) && !m.draining && !m.machineStopped
    ensures Whole(ReconcileItems(m, items))
  {
    if items != [] {
      var less := items[..|items| - 1];
      ItemsWhole(m, less);
      hide Inv, Whole, ReconcileItem, Quieter;
      ReconcileItemsKeeps(m, less);
      ItemWhole(ReconcileItems(m, less), items[|items| - 1]);
    }
  }

  lemma ApplyWhole(m: Manager, items: seq<Item>)
    requires Inv(m) && Whole(m)
    ensures Whole(Apply(m, items))
  {
    if !m.draining && !SameWatchSet(m.applied, items) {
      var reach := Unwanted(set i | i in items :: i.loopId);
      var r := StopAll(m, |m.watches|, reach);
      var n := WithFlags(r, items, false, false);
      assert m.(applied := items, machineStopped := false) == WithFlags(m, items, false, false);
      hide Inv, Whole, Quieter, StopAll, ReconcileItems, SameWatchSet;
      StopAllKeeps(m, |m.watches|, reach);
      FlagsKeep(r, items, false, false);
      StopAllFlags(m, |m.watches|, reach, m.applied, m.machineStopped, false);
      assert WithFlags(m, m.applied, m.machineStopped, false) == m;
      StopAllFlags(m, |m.watches|, reach, items, false, false);
      DropAllWhole(m, |m.watches|, reach.wanted);
      WholeFlags(r, items, false);
      ItemsWhole(n, items);
    }
  }

  // ---- Every run ----

  lemma ResumeWhole(m: Manager, t: nat, outcome: Outcome, ok: bool)
    requires Inv(m) && Whole(m) && t in m.tasks
    ensures Whole(Resume(m, t, outcome, ok))
  {
    assert TaskOk(m, t);
    hide Inv, Whole, Calm, WindowOver, ErrorWindowOver, ErrorReported, AdmissionDone, RefusalReported,
         PredecessorClosed,
         WatcherReady, TickNext, TickAdmitted, Claim;
    match m.tasks[t] {
      case Window(o, g) => WindowCalm(m, t, o, g);
      case ErrorWindow(o, g) => ErrorWindowCalm(m, t, o, g);
      case ErrorReport(o, g) => ErrorReportWhole(m, t, o, g, outcome);
      case Admission(o, g) => AdmissionCalm(m, t, o, g, !ok);
      case RefusalReport(o, g) => RefusalReportWhole(m, t, o, g, outcome);
      case AwaitClose(o, g, upTo) => SubscribeCalm(m, t, o, g, upTo);
      case AwaitReady(o, g) => ReadyCalm(m, t, o, g, ok);
      case Tick(rest) => TickCalm(m, t, rest);
      case TickAdmission(o, g, rest) => ReadmitCalm(m, t, o, g, rest, !ok);
    }
    if !m.tasks[t].ErrorReport? && !m.tasks[t].RefusalReport? { CalmKeeps(m, Resume(m, t, outcome, ok)); }
  }

  lemma CloseDoneCalm(m: Manager, l: LoopId, i: nat)
    ensures Calm(m, CloseDone(m, l, i))
  {
    ChainsCalm(m, CloseDone(m, l, i));
  }

  lemma DrainWhole(m: Manager)
    ensures Whole(Next(m, Drain))
  {
    hide StopAll;
    StopAllFlags(m, |m.watches|, StopEach, m.applied, m.machineStopped, true);
    assert WithFlags(m, m.applied, m.machineStopped, true) == m.(draining := true);
  }

  lemma NextWhole(m: Manager, step: Step)
    requires Inv(m) && Whole(m)
    ensures Whole(Next(m, step))
  {
    hide Inv, Whole, Calm, Apply, MarkDirty, WatcherError, RoundIsOver, RoundThrown, NextRound, Resume, CloseDone,
         StopAll;
    match step {
      case SetApplied(items) => ApplyWhole(m, items);
      case EventSeen(o) => if o < |m.watches| { MarkDirtyCalm(m, o); CalmKeeps(m, MarkDirty(m, o)); }
      case ErrorSeen(o) => if o < |m.watches| { WatcherErrorCalm(m, o); CalmKeeps(m, WatcherError(m, o)); }
      case RoundReturns(o, outcome) => if o < |m.watches| { RoundWhole(m, o, outcome); }
      case RoundThrows(o) => if o < |m.watches| { DriverCalm(m, o); CalmKeeps(m, RoundThrown(m, o)); }
      case DriverResumes(o) => if o < |m.watches| { DriverCalm(m, o); CalmKeeps(m, NextRound(m, o)); }
      case TaskResumes(t, outcome, ok) => if t in m.tasks { ResumeWhole(m, t, outcome, ok); }
      case TickStarts =>
        SpawnCalm(m, Tick(CurrentUpTo(m, |m.watches|)));
        CalmKeeps(m, Spawn(m, Tick(CurrentUpTo(m, |m.watches|))));
      case CloseResolves(l, i) => CloseDoneCalm(m, l, i); CalmKeeps(m, CloseDone(m, l, i));
      case Drain => DrainWhole(m);
    }
  }

  lemma {:induction false} RunWhole(steps: seq<Step>)
    ensures Whole(Run(steps))
  {
    if steps != [] {
      var less := steps[..|steps| - 1];
      RunWhole(less);
      Reachable(less);
      hide Inv, Whole, Next;
      NextWhole(Run(less), steps[|steps| - 1]);
    }
  }

  // ---- What an applied set leaves in force ----

  /** The loop's object in force carries the item, admits and syncs, and is not parked. */
  predicate Watched(n: Manager, item: Item) {
    && item.loopId in n.states && n.states[item.loopId] < |n.watches|
    && var w := n.watches[n.states[item.loopId]];
    w.item == item && !w.aborted && w.status != Parked
  }

  lemma InForceIsWatched(m: Manager, n: Manager, item: Item)
    requires Inv(m) && Whole(m) && !m.draining && InForce(m, n, item)
    ensures Watched(n, item)
  {
    var l := item.loopId;
    if Stays(m, item) {
      assert StateOk(m, l) && ForceOk(m, m.states[l]);
    }
  }

  /** After any run, a set that names each loop once and is not the one in force is in force
      at once: exactly its loops are watched, each by an object of its item that is neither
      stopped nor parked; what need not change is kept as it was, what changed or left is
      stopped with its watcher in the close chain, and what is new is about to be admitted. */
  lemma AppliedSetIsInForce(steps: seq<Step>, items: seq<Item>)
    requires OnePerLoop(items) && !Run(steps).draining && !SameWatchSet(Run(steps).applied, items)
    ensures
      var m, n := Run(steps), Run(steps + [SetApplied(items)]);
      Reconciled(m, n, items) && forall i :: 0 <= i < |items| ==> Watched(n, items[i])
  {
    var m, n := Run(steps), Run(steps + [SetApplied(items)]);
    assert n == Apply(m, items) by { assert (steps + [SetApplied(items)])[..|steps|] == steps; }
    Reachable(steps);
    RunWhole(steps);
    assert StatesOk(m) && TasksBelow(m) by { forall t | t in m.tasks ensures t < m.nextTask { assert TaskOk(m, t); } }
    hide Run, Apply, Inv, Whole, InForce, SameWatchSet, OnePerLoop, Watched;
    ApplyReconciles(m, items);
    forall i | 0 <= i < |items| ensures Watched(n, items[i]) { InForceIsWatched(m, n, items[i]); }
  }
}
