/**
 What every reachable state of the watch manager satisfies, one primitive change
 at a time.
 */
module WatchSafety {
  import opened Wrappers
  import opened WatchManager

  // ---- The invariant: per object, per task, per loop, per watcher ----

  ghost predicate WatchOk(m: Manager, o: Obj)
    requires o < |m.watches|
  {
    var w := m.watches[o];
    && (!w.aborted ==> IsCurrent(m, o) && !m.draining && !m.machineStopped)
    && (w.status == Parked ==> w.aborted)
    && (w.watcher.Some? ==>
        !w.aborted && (w.status == Admitting || w.status == Watching) && Open(m, w.watcher.value, w.item.loopId))
    && (w.driver.InRound? && !w.aborted ==>
        w.driver.generation == w.generation && (w.status == Watching || w.status == ConfigChanged))
    && (w.owedFull && !w.aborted && w.status == Watching ==> w.pending == Some(FullRound))
  }

  predicate Open(m: Manager, x: nat, l: LoopId) { x in m.live && m.live[x] == l }

  predicate Resting(w: Watch) { (w.status == Refused || w.status == ConfigChanged) && !w.driver.InRound? }

  /** What a task of the object's own generation may count on. */
  ghost predicate Claim(m: Manager, task: Task)
    requires !task.Tick? && task.obj < |m.watches|
  {
    var w := m.watches[task.obj];
    var chain := Chain(m, w.item.loopId);
    match task
    case RefusalReport(_, _) => Resting(w)
    case TickAdmission(_, _, _) => Resting(w)
    case Admission(_, _) => w.status == Admitting ==> w.watcher.None?
    case AwaitClose(_, _, upTo) => w.status == Admitting ==> w.watcher.None? && Emptied(chain, upTo)
    case _ => true
  }

  /** No close from `upTo` on still has a watcher to close. */
  ghost predicate Emptied(chain: seq<Close>, upTo: nat) {
    forall i: nat :: upTo <= i < |chain| ==> !Closing(chain, i)
  }

  /** The i-th close still has a watcher to close. */
  predicate Closing(chain: seq<Close>, i: nat) { i < |chain| && !chain[i].done && chain[i].watcher.Some? }

  ghost predicate TaskOk(m: Manager, t: nat)
    requires t in m.tasks
  {
    var task := m.tasks[t];
    && t < m.nextTask
    && (!task.Tick? ==> task.obj < |m.watches| && task.generation <= m.watches[task.obj].generation)
    && (task.AwaitClose? ==> task.upTo <= |Chain(m, m.watches[task.obj].item.loopId)|)
    && (!task.Tick? && task.generation == m.watches[task.obj].generation && !m.watches[task.obj].aborted ==>
        Claim(m, task))
  }

  predicate Subscribing(task: Task) { task.Admission? || task.AwaitClose? }

  /** One admission per generation. */
  ghost predicate Apart(m: Manager, t: nat, u: nat)
    requires t in m.tasks && u in m.tasks
  {
    var a, b := m.tasks[t], m.tasks[u];
    t != u && Subscribing(a) && Subscribing(b) && a.obj == b.obj ==> a.generation != b.generation
  }

  /** The watcher of the loop's current object. */
  function Held(m: Manager, l: LoopId): Option<nat> {
    if l in m.states && m.states[l] < |m.watches| then m.watches[m.states[l]].watcher else None
  }

  ghost predicate IsClosing(chain: seq<Close>, x: nat) {
    exists i: nat :: Closing(chain, i) && chain[i].watcher.value == x
  }

  ghost predicate ChainOk(m: Manager, l: LoopId) {
    var c := Chain(m, l);
    && (forall i: nat, j: nat :: i < j < |c| && c[j].done ==> c[i].done)
    && (forall i: nat :: Closing(c, i) ==> Open(m, c[i].watcher.value, l))
    && (forall i: nat, j: nat :: Closing(c, i) && Closing(c, j) ==> i == j)
    && (Held(m, l).Some? ==> forall i: nat :: !Closing(c, i))
  }

  /** An open watcher is held by its loop's current object, or is being closed. */
  ghost predicate LiveOk(m: Manager, x: nat)
    requires x in m.live
  {
    x < m.nextWatcher && (Held(m, m.live[x]) == Some(x) || IsClosing(Chain(m, m.live[x]), x))
  }

  ghost predicate StateOk(m: Manager, l: LoopId)
    requires l in m.states
  {
    m.states[l] < |m.watches| && m.watches[m.states[l]].item.loopId == l
  }

  ghost predicate WatchersOk(m: Manager) {
    (forall l :: ChainOk(m, l)) && (forall x :: x in m.live ==> LiveOk(m, x))
  }

  ghost predicate Inv(m: Manager) {
    && (forall l :: l in m.states ==> StateOk(m, l))
    && (forall o: nat :: o < |m.watches| ==> WatchOk(m, o))
    && (forall t :: t in m.tasks ==> TaskOk(m, t))
    && (forall t, u :: t in m.tasks && u in m.tasks ==> Apart(m, t, u))
    && WatchersOk(m)
  }

  // ---- Changing one object's own fields ----

  /** The change breaks no task's claim. */
  ghost predicate Steady(w: Watch, v: Watch) {
    && v.item == w.item && v.watcher == w.watcher && v.generation >= w.generation
    && (v.generation == w.generation && !v.aborted ==>
          !w.aborted && (v.status == Admitting ==> w.status == Admitting) && (Resting(w) ==> Resting(v)))
  }

  /** Watchers and closes are as before. */
  ghost predicate SameWatchers(m: Manager, n: Manager) {
    && n.closes == m.closes && n.live == m.live && n.nextWatcher == m.nextWatcher
    && forall l :: Held(n, l) == Held(m, l)
  }

  lemma SameWatchersOk(m: Manager, n: Manager)
    requires WatchersOk(m) && SameWatchers(m, n)
    ensures WatchersOk(n)
  {
    forall l ensures ChainOk(n, l) { assert ChainOk(m, l); }
    forall x | x in n.live ensures LiveOk(n, x) {
      assert LiveOk(m, x) && Held(n, m.live[x]) == Held(m, m.live[x]) && Chain(n, m.live[x]) == Chain(m, m.live[x]);
    }
  }

  lemma PutTask(m: Manager, o: Obj, v: Watch, t: nat)
    requires o < |m.watches| && Steady(m.watches[o], v) && t in m.tasks && TaskOk(m, t)
    ensures TaskOk(Put(m, o, v), t)
  {
  }

  lemma PutKeeps(m: Manager, o: Obj, v: Watch)
    requires Inv(m) && o < |m.watches| && Steady(m.watches[o], v) && WatchOk(Put(m, o, v), o)
    ensures Inv(Put(m, o, v))
  {
    var n := Put(m, o, v);
    forall p: nat | p < |n.watches| ensures WatchOk(n, p) { assert WatchOk(m, p); }
    forall l | l in n.states ensures StateOk(n, l) { assert StateOk(m, l); }
    forall t | t in n.tasks ensures TaskOk(n, t) { PutTask(m, o, v, t); }
    forall t, u | t in n.tasks && u in n.tasks ensures Apart(n, t, u) { assert Apart(m, t, u); }
    hide ChainOk, LiveOk, WatchOk, TaskOk, Apart;
    SameWatchersOk(m, n);
  }

  // ---- Changing what waits ----

  lemma TasksKeep(m: Manager, n: Manager)
    requires Inv(m) && n == m.(tasks := n.tasks, nextTask := n.nextTask)
    requires forall t :: t in n.tasks ==> TaskOk(n, t)
    requires forall t, u :: t in n.tasks && u in n.tasks ==> Apart(n, t, u)
    ensures Inv(n)
  {
    forall p: nat | p < |n.watches| ensures WatchOk(n, p) { assert WatchOk(m, p); }
    forall l | l in n.states ensures StateOk(n, l) { assert StateOk(m, l); }
    hide ChainOk, LiveOk, WatchOk, TaskOk, Apart;
    SameWatchersOk(m, n);
  }

  lemma EndKeeps(m: Manager, t: nat)
    requires Inv(m)
    ensures Inv(End(m, t))
  {
    var n := End(m, t);
    forall u | u in n.tasks ensures TaskOk(n, u) { assert TaskOk(m, u); }
    forall u, v | u in n.tasks && v in n.tasks ensures Apart(n, u, v) { assert Apart(m, u, v); }
    hide Inv, TaskOk, Apart;
    TasksKeep(m, n);
  }

  lemma BecomeKeeps(m: Manager, t: nat, task: Task)
    requires Inv(m) && t in m.tasks && TaskOk(Become(m, t, task), t)
    requires Subscribing(task) ==>
      Subscribing(m.tasks[t]) && task.obj == m.tasks[t].obj && task.generation == m.tasks[t].generation
    ensures Inv(Become(m, t, task))
  {
    var n := Become(m, t, task);
    forall u | u in n.tasks ensures TaskOk(n, u) { assert TaskOk(m, u); }
    forall u, v | u in n.tasks && v in n.tasks ensures Apart(n, u, v) { assert Apart(m, u, v); }
    hide Inv, TaskOk, Apart;
    TasksKeep(m, n);
  }

  /** No admission of this generation is under way. */
  ghost predicate NoneFor(m: Manager, o: Obj, generation: nat) {
    forall t :: t in m.tasks && Subscribing(m.tasks[t]) && m.tasks[t].obj == o ==> m.tasks[t].generation != generation
  }

  lemma SpawnKeeps(m: Manager, task: Task)
    requires Inv(m) && TaskOk(Spawn(m, task), m.nextTask)
    requires Subscribing(task) ==> NoneFor(m, task.obj, task.generation)
    ensures Inv(Spawn(m, task))
  {
    var n := Spawn(m, task);
    forall u | u in n.tasks ensures TaskOk(n, u) { if u in m.tasks { assert TaskOk(m, u); } }
    forall u, v | u in n.tasks && v in n.tasks ensures Apart(n, u, v) {
      if u in m.tasks { assert TaskOk(m, u); }
      if v in m.tasks { assert TaskOk(m, v); }
      if u in m.tasks && v in m.tasks { assert Apart(m, u, v); }
    }
    hide Inv, TaskOk, Apart;
    TasksKeep(m, n);
  }

  // ---- Closing a watcher ----

  lemma ClosedWatch(m: Manager, o: Obj, p: Obj)
    requires o < |m.watches| && p < |m.watches| && WatchOk(m, p)
    ensures WatchOk(CloseWatcher(m, o), p)
  {
  }

  lemma EmptyClose(chain: seq<Close>, upTo: nat)
    ensures Emptied(chain, upTo) ==> Emptied(chain + [Close(None, false)], upTo)
  {
    var now := chain + [Close(None, false)];
    if Emptied(chain, upTo) {
      forall i: nat | upTo <= i < |now| ensures !Closing(now, i) { if i < |chain| { assert !Closing(chain, i); } }
    }
  }

  lemma ClosedTask(m: Manager, o: Obj, t: nat)
    requires o < |m.watches| && t in m.tasks && TaskOk(m, t)
    requires forall p: nat :: p < |m.watches| ==> WatchOk(m, p)
    ensures TaskOk(CloseWatcher(m, o), t)
  {
    var task := m.tasks[t];
    if !task.Tick? {
      assert WatchOk(m, task.obj) && WatchOk(m, o);
      if task.AwaitClose? && m.watches[o].watcher.None? {
        EmptyClose(Chain(m, m.watches[task.obj].item.loopId), task.upTo);
      }
    }
  }

  lemma ClosedChain(m: Manager, o: Obj, l: LoopId)
    requires o < |m.watches| && ChainOk(m, l) && WatchOk(m, o)
    ensures ChainOk(CloseWatcher(m, o), l)
  {
    var w, was, now := m.watches[o], Chain(m, l), Chain(CloseWatcher(m, o), l);
    if l == w.item.loopId {
      forall i: nat | Closing(now, i) ensures if i < |was| then Closing(was, i) else i == |was| && w.watcher.Some? {}
      if w.watcher.Some? { assert forall i: nat :: i < |was| ==> !Closing(was, i); }
    }
  }

  lemma ClosedLive(m: Manager, o: Obj, x: nat)
    requires o < |m.watches| && WatchOk(m, o) && x in m.live && LiveOk(m, x)
    ensures LiveOk(CloseWatcher(m, o), x)
  {
    var n, l := CloseWatcher(m, o), m.live[x];
    var was, now := Chain(m, l), Chain(n, l);
    if IsClosing(was, x) {
      var i: nat :| Closing(was, i) && was[i].watcher.value == x;
      assert Closing(now, i) && now[i].watcher.value == x;
    } else if l in m.states && m.states[l] == o {
      assert Closing(now, |was|) && now[|was|].watcher.value == x;
    }
  }

  lemma CloseWatcherKeeps(m: Manager, o: Obj)
    requires Inv(m) && o < |m.watches|
    ensures Inv(CloseWatcher(m, o))
  {
    var n := CloseWatcher(m, o);
    forall p: nat | p < |n.watches| ensures WatchOk(n, p) { ClosedWatch(m, o, p); }
    forall l | l in n.states ensures StateOk(n, l) { assert StateOk(m, l); }
    forall t | t in n.tasks ensures TaskOk(n, t) { ClosedTask(m, o, t); }
    forall t, u | t in n.tasks && u in n.tasks ensures Apart(n, t, u) { assert Apart(m, t, u); }
    hide WatchOk, TaskOk, Apart;
    forall l ensures ChainOk(n, l) { ClosedChain(m, o, l); }
    forall x | x in n.live ensures LiveOk(n, x) { ClosedLive(m, o, x); }
  }

  // ---- Stopping loops ----

  predicate Off(w: Watch) { w.aborted || (w.status != Watching && w.status != Admitting) }

  /** The object is as it was, or it was switched off. */
  predicate Quieted(w: Watch, v: Watch) {
    v == w
    || (Off(v) && v.driver == w.driver && v.owedFull == w.owedFull && v.item == w.item
        && v.generation >= w.generation && (w.aborted ==> v.aborted))
  }

  /** Nothing happened but switching objects off. */
  ghost predicate Quieter(m: Manager, n: Manager) {
    && |m.watches| <= |n.watches|
    && (forall t :: t in m.tasks ==> t in n.tasks && n.tasks[t] == m.tasks[t])
    && forall p: nat :: p < |m.watches| ==> Quieted(m.watches[p], n.watches[p])
  }

  lemma QuieterTransitive(m: Manager, n: Manager, r: Manager)
    requires Quieter(m, n) && Quieter(n, r)
    ensures Quieter(m, r)
  {
    forall p: nat | p < |m.watches| ensures Quieted(m.watches[p], r.watches[p]) {
      assert Quieted(m.watches[p], n.watches[p]) && Quieted(n.watches[p], r.watches[p]);
    }
  }

  lemma StopLoopKeeps(m: Manager, o: Obj)
    requires Inv(m) && o < |m.watches|
    ensures Inv(StopLoop(m, o)) && Quieter(m, StopLoop(m, o)) && StopLoop(m, o).watches[o].aborted
    ensures StopLoop(m, o).states == m.states
  {
    hide Inv;
    CloseWatcherKeeps(m, o);
    var n := CloseWatcher(m, o);
    var v := n.watches[o].(generation := n.watches[o].generation + 1, pending := None, aborted := true);
    PutKeeps(n, o, v);
    assert StopLoop(m, o) == Put(n, o, v);
  }

  lemma ParkLoopKeeps(m: Manager, o: Obj)
    requires Inv(m) && o < |m.watches|
    ensures Inv(ParkLoop(m, o)) && Quieter(m, ParkLoop(m, o)) && ParkLoop(m, o).watches[o].aborted
    ensures ParkLoop(m, o).states == m.states
  {
    hide Inv;
    StopLoopKeeps(m, o);
    var n := StopLoop(m, o);
    var v := n.watches[o].(status := Parked);
    PutKeeps(n, o, v);
    assert ParkLoop(m, o) == Put(n, o, v);
  }

  /** A stopped loop leaves the map. */
  lemma ForgetKeeps(m: Manager, l: LoopId)
    requires Inv(m) && l in m.states && m.states[l] < |m.watches| && m.watches[m.states[l]].aborted
    ensures Inv(m.(states := m.states - {l}))
  {
    var n := m.(states := m.states - {l});
    assert StateOk(m, l) && WatchOk(m, m.states[l]);
    forall p: nat | p < |n.watches| ensures WatchOk(n, p) { assert WatchOk(m, p); }
    forall k | k in n.states ensures StateOk(n, k) { assert StateOk(m, k); }
    forall t | t in n.tasks ensures TaskOk(n, t) { assert TaskOk(m, t); }
    forall t, u | t in n.tasks && u in n.tasks ensures Apart(n, t, u) { assert Apart(m, t, u); }
    assert forall k :: Held(n, k) == Held(m, k);
    hide ChainOk, LiveOk, WatchOk, TaskOk, Apart;
    SameWatchersOk(m, n);
  }

  lemma InvWatch(m: Manager, o: Obj)
    requires Inv(m) && o < |m.watches|
    ensures !m.watches[o].aborted ==> IsCurrent(m, o)
  {
    assert WatchOk(m, o);
  }

  lemma StopOneKeeps(m: Manager, o: Obj, reach: Reach)
    requires Inv(m) && o < |m.watches|
    ensures var n := StopOne(m, o, reach); Inv(n) && Quieter(m, n)
    ensures !reach.Unwanted? ==> StopOne(m, o, reach).watches[o].aborted
    ensures forall l :: l in StopOne(m, o, reach).states ==>
      l in m.states && StopOne(m, o, reach).states[l] == m.states[l]
  {
    var l := m.watches[o].item.loopId;
    InvWatch(m, o);
    hide Inv, WatchOk, Quieter;
    if IsCurrent(m, o) {
      match reach {
        case ParkEach => ParkLoopKeeps(m, o);
        case StopEach => StopLoopKeeps(m, o);
        case Unwanted(wanted) =>
          StopLoopKeeps(m, o);
          ForgetKeeps(StopLoop(m, o), l);
          assert StopLoop(m.(states := m.states - {l}), o) == StopLoop(m, o).(states := m.states - {l});
      }
    }
  }

  lemma {:induction false} StopAllKeeps(m: Manager, n: nat, reach: Reach)
    requires Inv(m) && n <= |m.watches|
    ensures var r := StopAll(m, n, reach); Inv(r) && Quieter(m, r)
    ensures !reach.Unwanted? ==> forall p: nat :: p < n ==> StopAll(m, n, reach).watches[p].aborted
    ensures forall l :: l in StopAll(m, n, reach).states ==>
      l in m.states && StopAll(m, n, reach).states[l] == m.states[l]
  {
    hide Inv, StopOne;
    if n > 0 {
      StopAllKeeps(m, n - 1, reach);
      var before := StopAll(m, n - 1, reach);
      StopOneKeeps(before, n - 1, reach);
      QuieterTransitive(m, before, StopOne(before, n - 1, reach));
    }
  }

  /** The manager's flags, which stopping loops never reads. */
  function WithFlags(m: Manager, applied: seq<Item>, stopped: bool, draining: bool): Manager {
    m.(applied := applied, machineStopped := stopped, draining := draining)
  }

  lemma StopOneFlags(m: Manager, o: Obj, reach: Reach, applied: seq<Item>, stopped: bool, draining: bool)
    requires o < |m.watches|
    ensures StopOne(WithFlags(m, applied, stopped, draining), o, reach)
      == WithFlags(StopOne(m, o, reach), applied, stopped, draining)
  {
    hide StopLoop, ParkLoop;
    if IsCurrent(m, o) {
      match reach {
        case ParkEach => ParkLoopFlags(m, o, applied, stopped, draining);
        case StopEach => StopLoopFlags(m, o, applied, stopped, draining);
        case Unwanted(_) =>
          StopLoopFlags(m.(states := m.states - {m.watches[o].item.loopId}), o, applied, stopped, draining);
      }
    }
  }

  lemma ParkLoopFlags(m: Manager, o: Obj, applied: seq<Item>, stopped: bool, draining: bool)
    requires o < |m.watches|
    ensures ParkLoop(WithFlags(m, applied, stopped, draining), o)
      == WithFlags(ParkLoop(m, o), applied, stopped, draining)
  {
    hide StopLoop;
    StopLoopFlags(Put(m, o, m.watches[o].(status := Parked)), o, applied, stopped, draining);
  }

  lemma StopLoopFlags(m: Manager, o: Obj, applied: seq<Item>, stopped: bool, draining: bool)
    requires o < |m.watches|
    ensures StopLoop(WithFlags(m, applied, stopped, draining), o)
      == WithFlags(StopLoop(m, o), applied, stopped, draining)
  {
  }

  lemma {:induction false} StopAllFlags(m: Manager, n: nat, reach: Reach, applied: seq<Item>, stopped: bool,
                                        draining: bool)
    requires n <= |m.watches|
    ensures StopAll(WithFlags(m, applied, stopped, draining), n, reach)
      == WithFlags(StopAll(m, n, reach), applied, stopped, draining)
  {
    hide StopOne;
    if n > 0 {
      StopAllFlags(m, n - 1, reach, applied, stopped, draining);
      StopOneFlags(StopAll(m, n - 1, reach), n - 1, reach, applied, stopped, draining);
    }
  }

  /** A flag that stops everything may rise only when everything has stopped. */
  lemma FlagsKeep(m: Manager, applied: seq<Item>, stopped: bool, draining: bool)
    requires Inv(m)
    requires stopped || draining ==> forall p: nat :: p < |m.watches| ==> m.watches[p].aborted
    ensures Inv(WithFlags(m, applied, stopped, draining))
  {
    var n := WithFlags(m, applied, stopped, draining);
    forall p: nat | p < |n.watches| ensures WatchOk(n, p) { assert WatchOk(m, p); }
    forall k | k in n.states ensures StateOk(n, k) { assert StateOk(m, k); }
    forall t | t in n.tasks ensures TaskOk(n, t) { assert TaskOk(m, t); }
    forall t, u | t in n.tasks && u in n.tasks ensures Apart(n, t, u) { assert Apart(m, t, u); }
    hide ChainOk, LiveOk, WatchOk, TaskOk, Apart;
    SameWatchersOk(m, n);
  }

  lemma StopEverything(m: Manager, reach: Reach, stopped: bool, draining: bool)
    requires Inv(m) && !reach.Unwanted?
    ensures var r := StopAll(WithFlags(m, m.applied, stopped, draining), |m.watches|, reach); Inv(r) && Quieter(m, r)
  {
    hide Inv, StopAll;
    StopAllKeeps(m, |m.watches|, reach);
    StopAllFlags(m, |m.watches|, reach, m.applied, stopped, draining);
    FlagsKeep(StopAll(m, |m.watches|, reach), m.applied, stopped, draining);
  }

  lemma HandleOutcomeKeeps(m: Manager, o: Obj, outcome: Outcome)
    requires Inv(m) && o < |m.watches|
      && (outcome == RootFailed ==> m.watches[o].aborted || !m.watches[o].driver.InRound?)
    ensures var n := HandleOutcome(m, o, outcome); Inv(n) && Quieter(m, n)
  {
    hide Inv, StopAll;
    match outcome
    case StoppedMachine =>
      StopEverything(m, ParkEach, true, m.draining);
      assert WithFlags(m, m.applied, true, m.draining) == m.(machineStopped := true);
    case StoppedLoop => ParkLoopKeeps(m, o);
    case ConfigMoved => ClosedWith(m, o, m.watches[o].(status := ConfigChanged));
    case RootFailed => ClosedWith(m, o, m.watches[o].(status := Refused, reportedRefusal := true));
    case Quiet =>
  }

  lemma ClosedWith(m: Manager, o: Obj, v: Watch)
    requires Inv(m) && o < |m.watches|
      && (v.status == ConfigChanged || (v.status == Refused && (v.aborted || !v.driver.InRound?)))
    requires v == m.watches[o].(status := v.status, reportedRefusal := v.reportedRefusal)
    ensures var n := CloseWatcher(Put(m, o, v), o); Inv(n) && Quieter(m, n)
  {
    hide Inv, Steady, WatchOk;
    CloseWatcherKeeps(m, o);
    var n := CloseWatcher(m, o);
    OffWatch(n, o, v.(watcher := None));
    PutKeeps(n, o, v.(watcher := None));
    assert CloseWatcher(Put(m, o, v), o) == Put(n, o, v.(watcher := None));
  }

  lemma OffWatch(m: Manager, o: Obj, v: Watch)
    requires Inv(m) && o < |m.watches|
      && (v.status == ConfigChanged || (v.status == Refused && (v.aborted || !v.driver.InRound?)))
    requires m.watches[o].watcher.None? && v == m.watches[o].(status := v.status, reportedRefusal := v.reportedRefusal)
    ensures WatchOk(Put(m, o, v), o) && Steady(m.watches[o], v)
  {
    assert WatchOk(m, o);
  }

  // ---- Subscribing, and closing for good ----

  /** The state right after the watcher was created. */
  function Subscribed(m: Manager, o: Obj): Manager
    requires o < |m.watches|
  {
    Put(m.(live := m.live[m.nextWatcher := m.watches[o].item.loopId], nextWatcher := m.nextWatcher + 1), o,
        m.watches[o].(watcher := Some(m.nextWatcher)))
  }

  /** Nothing of the loop is still open when its admission subscribes. */
  lemma NothingOpen(m: Manager, t: nat, o: Obj, g: nat, upTo: nat)
    requires Inv(m) && o < |m.watches| && t in m.tasks && m.tasks[t] == AwaitClose(o, g, upTo) && !Abandoned(m, o, g)
    requires var c := Chain(m, m.watches[o].item.loopId); upTo == 0 || upTo > |c| || c[upTo - 1].done
    ensures m.watches[o].watcher.None? && forall i: nat :: !Closing(Chain(m, m.watches[o].item.loopId), i)
    ensures forall x :: x in m.live ==> m.live[x] != m.watches[o].item.loopId && x < m.nextWatcher
  {
    var l := m.watches[o].item.loopId;
    assert TaskOk(m, t) && ChainOk(m, l);
    forall x | x in m.live ensures m.live[x] != l && x < m.nextWatcher { assert LiveOk(m, x); }
  }

  /** Only this admission may count on the object having no watcher. */
  lemma SubscribedTask(m: Manager, t: nat, o: Obj, g: nat, upTo: nat, u: nat)
    requires o < |m.watches| && t in m.tasks && m.tasks[t] == AwaitClose(o, g, upTo) && m.watches[o].generation == g
    requires u in m.tasks && u != t && TaskOk(m, u) && Apart(m, t, u)
    ensures TaskOk(Subscribed(m, o), u)
  {
  }

  lemma SubscribedChain(m: Manager, o: Obj, l: LoopId)
    requires o < |m.watches| && IsCurrent(m, o) && ChainOk(m, l) && m.nextWatcher !in m.live
    requires forall i: nat :: !Closing(Chain(m, m.watches[o].item.loopId), i)
    requires l in m.states ==> StateOk(m, l)
    ensures ChainOk(Subscribed(m, o), l)
  {
    assert Chain(Subscribed(m, o), l) == Chain(m, l);
  }

  lemma SubscribedLive(m: Manager, o: Obj, x: nat)
    requires o < |m.watches| && IsCurrent(m, o) && x in m.live && LiveOk(m, x) && m.live[x] != m.watches[o].item.loopId
    requires m.live[x] in m.states ==> StateOk(m, m.live[x])
    ensures x != m.nextWatcher && LiveOk(Subscribed(m, o), x)
  {
    assert Chain(Subscribed(m, o), m.live[x]) == Chain(m, m.live[x]);
  }

  lemma SubscribedWatch(m: Manager, o: Obj, p: Obj)
    requires o < |m.watches| && p < |m.watches| && WatchOk(m, p) && m.nextWatcher !in m.live
    requires !m.watches[o].aborted && m.watches[o].status == Admitting
    ensures WatchOk(Subscribed(m, o), p)
  {
  }

  lemma SubscribeKeeps(m: Manager, t: nat, o: Obj, g: nat, upTo: nat)
    requires Inv(m) && o < |m.watches| && t in m.tasks && m.tasks[t] == AwaitClose(o, g, upTo) && !Abandoned(m, o, g)
    requires var c := Chain(m, m.watches[o].item.loopId); upTo == 0 || upTo > |c| || c[upTo - 1].done
    ensures Inv(Become(Subscribed(m, o), t, AwaitReady(o, g)))
  {
    var s := Subscribed(m, o);
    var n := Become(s, t, AwaitReady(o, g));
    NothingOpen(m, t, o, g, upTo);
    hide Closing;
    forall u | u in n.tasks ensures TaskOk(n, u) {
      assert TaskOk(m, u) && Apart(m, t, u);
      if u != t { SubscribedTask(m, t, o, g, upTo, u); }
    }
    forall u, v | u in n.tasks && v in n.tasks ensures Apart(n, u, v) { assert Apart(m, u, v); }
    hide TaskOk, Apart, Chain;
    forall p: nat | p < |n.watches| ensures WatchOk(n, p) { SubscribedWatch(m, o, p); }
    forall l | l in n.states ensures StateOk(n, l) { assert StateOk(m, l); }
    hide WatchOk, StateOk;
    forall l ensures ChainOk(s, l) { SubscribedChain(m, o, l); }
    forall x | x in s.live ensures LiveOk(s, x) { if x in m.live { SubscribedLive(m, o, x); } }
    hide ChainOk, LiveOk;
    SameWatchersOk(s, n);
  }

  lemma DoneChain(m: Manager, l: LoopId, i: nat, k: LoopId)
    requires ChainOk(m, l) && ChainOk(m, k)
    ensures ChainOk(CloseDone(m, l, i), k)
  {
    var was, now := Chain(m, k), Chain(CloseDone(m, l, i), k);
    forall j: nat | Closing(now, j) ensures Closing(was, j) && now[j] == was[j] {}
    assert Closing(Chain(m, l), i) ==> Open(m, Chain(m, l)[i].watcher.value, l);
  }

  lemma DoneWatch(m: Manager, l: LoopId, i: nat, p: Obj)
    requires ChainOk(m, l) && p < |m.watches| && WatchOk(m, p)
    ensures WatchOk(CloseDone(m, l, i), p)
  {
    var c, w := Chain(m, l), m.watches[p];
    if w.watcher.Some? && w.item.loopId == l {
      assert Held(m, l) == w.watcher;
      assert !Closing(c, i);
    }
  }

  lemma DoneTask(m: Manager, l: LoopId, i: nat, t: nat)
    requires t in m.tasks && TaskOk(m, t)
    ensures TaskOk(CloseDone(m, l, i), t)
  {
    var task := m.tasks[t];
    if !task.Tick? {
      var k := m.watches[task.obj].item.loopId;
      var was, now := Chain(m, k), Chain(CloseDone(m, l, i), k);
      assert forall j: nat :: Closing(now, j) ==> Closing(was, j);
    }
  }

  lemma DoneLive(m: Manager, l: LoopId, i: nat, x: nat)
    requires ChainOk(m, l) && x in m.live && LiveOk(m, x) && x in CloseDone(m, l, i).live
    ensures LiveOk(CloseDone(m, l, i), x)
  {
    var n, k := CloseDone(m, l, i), m.live[x];
    var was, now := Chain(m, k), Chain(n, k);
    if IsClosing(was, x) {
      var j: nat :| Closing(was, j) && was[j].watcher.value == x;
      assert Closing(now, j) && now[j].watcher.value == x;
    }
  }

  lemma CloseDoneKeeps(m: Manager, l: LoopId, i: nat)
    requires Inv(m)
    ensures Inv(CloseDone(m, l, i))
  {
    var n := CloseDone(m, l, i);
    assert ChainOk(m, l);
    forall p: nat | p < |n.watches| ensures WatchOk(n, p) { DoneWatch(m, l, i, p); }
    forall k | k in n.states ensures StateOk(n, k) { assert StateOk(m, k); }
    forall t | t in n.tasks ensures TaskOk(n, t) { DoneTask(m, l, i, t); }
    forall t, u | t in n.tasks && u in n.tasks ensures Apart(n, t, u) { assert Apart(m, t, u); }
    hide WatchOk, TaskOk, Apart, StateOk;
    forall k ensures ChainOk(n, k) { DoneChain(m, l, i, k); }
    hide ChainOk;
    forall x | x in n.live ensures LiveOk(n, x) { DoneLive(m, l, i, x); }
  }
}
