/**
 What holds over every run of the watch manager, and the one corner where an
 accepted change is not covered.
 */
module WatchRuns {
  import opened Wrappers
  import opened WatchManager
  import opened WatchSafety
  import opened WatchSteps

  /** A loop never has two open watchers, whatever its objects and generations. */
  lemma OneWatcherPerLoop(steps: seq<Step>, x: nat, y: nat)
    requires x in Run(steps).live && y in Run(steps).live && Run(steps).live[x] == Run(steps).live[y]
    ensures x == y
  {
    Reachable(steps);
    var m := Run(steps);
    assert LiveOk(m, x) && LiveOk(m, y) && ChainOk(m, m.live[x]);
  }

  /** An admission subscribes only when every watcher its loop ever had is closed. */
  lemma SubscribesLast(steps: seq<Step>, step: Step, x: nat)
    requires x in Next(Run(steps), step).live && x !in Run(steps).live
    ensures forall y :: y in Run(steps).live && y in Next(Run(steps), step).live ==>
      Next(Run(steps), step).live[y] != Next(Run(steps), step).live[x]
  {
    RunAppend(steps, step);
    forall y | y in Run(steps).live && y in Next(Run(steps), step).live
      ensures Next(Run(steps), step).live[y] != Next(Run(steps), step).live[x]
    {
      if Next(Run(steps), step).live[y] == Next(Run(steps), step).live[x] { OneWatcherPerLoop(steps + [step], x, y); }
    }
  }

  lemma RunAppend(steps: seq<Step>, step: Step)
    ensures Run(steps + [step]) == Next(Run(steps), step)
  {
    assert (steps + [step])[..|steps|] == steps;
  }

  // ---- One object along a run ----

  predicate Exists(m: Manager, o: Obj) { o < |m.watches| }

  /** The step starts a round for the object. */
  predicate StartsRound(m: Manager, step: Step, o: Obj) {
    Exists(m, o) && Exists(Next(m, step), o) && Starts(m.watches[o], Next(m, step).watches[o])
  }

  /** No round of the object starts in the steps that follow. */
  ghost predicate NoRound(steps: seq<Step>, more: seq<Step>, o: Obj) {
    forall k: nat :: k < |more| ==> !StartsRound(Run(steps + more[..k]), more[k], o)
  }

  /** The object stays active throughout. */
  ghost predicate StaysActive(steps: seq<Step>, more: seq<Step>, o: Obj) {
    forall k: nat :: k <= |more| ==> ActiveAt(steps + more[..k], o)
  }

  predicate ActiveAt(steps: seq<Step>, o: Obj) { Exists(Run(steps), o) && Active(Run(steps).watches[o]) }

  /** One step, one object: any step but a throw of its own round. */
  lemma StepMoves(m: Manager, step: Step, o: Obj)
    requires Inv(m) && Exists(m, o) && step != RoundThrows(o)
    ensures var n := Next(m, step); Inv(n) && Exists(n, o) && Moved(m, n, o)
  {
    hide Inv, MovedWatch;
    if step.RoundThrows? {
      if step.obj < |m.watches| { ThrowKeeps(m, step.obj); }
      SameWatchMoved(m, Next(m, step), o);
    } else {
      hide Next, Moved;
      NextStep(m, step);
    }
  }

  lemma SameWatchMoved(m: Manager, n: Manager, o: Obj)
    requires Exists(m, o) && Exists(n, o) && n.watches[o] == m.watches[o] && n.tasks == m.tasks
    ensures Moved(m, n, o)
  {
  }

  /** A throw forgets no request. */
  lemma ThrowOwes(m: Manager, o: Obj)
    requires Exists(m, o)
    ensures
      var n := Next(m, RoundThrows(o));
      Exists(n, o) && n.watches[o].owedFull == m.watches[o].owedFull && !StartsRound(m, RoundThrows(o), o)
  {
  }

  /** A round that starts, given how the object moved. */
  lemma StartFacts(w: Watch, v: Watch, before: bool, after: bool)
    requires MovedWatch(w, v, before, after) && Starts(w, v)
    ensures Active(v) && !w.aborted && v.driver.generation == v.generation
      && (w.owedFull && Attended(w) ==> v.driver.mode == FullRound)
  {
  }

  lemma StepAlong(steps: seq<Step>, more: seq<Step>)
    requires more != []
    ensures var m := Run(steps + more[..|more| - 1]); Inv(m) && Run(steps + more) == Next(m, more[|more| - 1])
  {
    hide Inv, Next;
    var before, last := steps + more[..|more| - 1], more[|more| - 1];
    assert steps + more == before + [last];
    RunAppend(before, last);
    Reachable(before);
  }

  lemma ShorterNoRound(steps: seq<Step>, more: seq<Step>, o: Obj)
    requires more != [] && NoRound(steps, more, o)
    ensures NoRound(steps, more[..|more| - 1], o) && !StartsRound(Run(steps + more[..|more| - 1]), more[|more| - 1], o)
  {
    var less := more[..|more| - 1];
    forall k: nat | k < |less| ensures !StartsRound(Run(steps + less[..k]), less[k], o) {
      assert less[..k] == more[..k] && less[k] == more[k];
    }
  }

  lemma ShorterActive(steps: seq<Step>, more: seq<Step>, o: Obj)
    requires more != [] && StaysActive(steps, more, o)
    ensures var less := more[..|more| - 1];
      StaysActive(steps, less, o) && ActiveAt(steps + less, o) && ActiveAt(steps + more, o)
  {
    hide Run;
    var less := more[..|more| - 1];
    forall k: nat | k <= |less| ensures ActiveAt(steps + less[..k], o) { assert less[..k] == more[..k]; }
    assert more[..|more|] == more && more[..|less|] == less;
  }

  lemma StillCovered(m: Manager, n: Manager, o: Obj)
    requires Exists(m, o) && Exists(n, o) && Moved(m, n, o) && !Starts(m.watches[o], n.watches[o])
    requires Active(m.watches[o]) && Active(n.watches[o]) && Covered(m, o)
    ensures Covered(n, o)
  {
  }

  /** No round of the object throws. */
  predicate NoThrow(more: seq<Step>, o: Obj) { forall k :: 0 <= k < |more| ==> more[k] != RoundThrows(o) }

  lemma ShorterNoThrow(more: seq<Step>, o: Obj)
    requires more != [] && NoThrow(more, o)
    ensures NoThrow(more[..|more| - 1], o) && more[|more| - 1] != RoundThrows(o)
  {
  }

  /** An accepted change that is covered stays covered, for as long as the object is
      active and its rounds do not throw, until a round of it starts. */
  lemma {:induction false} ChangeStaysCovered(steps: seq<Step>, more: seq<Step>, o: Obj)
    requires Exists(Run(steps), o) && Covered(Run(steps), o)
    requires StaysActive(steps, more, o) && NoRound(steps, more, o) && NoThrow(more, o)
    ensures Exists(Run(steps + more), o) && Covered(Run(steps + more), o)
  {
    hide Inv, Next, Run, Covered, NoRound, NoThrow, StaysActive, Moved, Starts, Active;
    if more == [] {
      assert steps + more == steps;
    } else {
      var less, last := more[..|more| - 1], more[|more| - 1];
      ShorterNoRound(steps, more, o);
      ShorterNoThrow(more, o);
      ShorterActive(steps, more, o);
      ChangeStaysCovered(steps, less, o);
      StepAlong(steps, more);
      StepMoves(Run(steps + less), last, o);
      StillCovered(Run(steps + less), Run(steps + more), o);
    }
  }

  /** Exactly what a throw leaves covered: what a window of this generation waits for.
      Pending work loses its driver until the next window, tick or request. */
  lemma ThrownIffWindow(steps: seq<Step>, o: Obj)
    requires ActiveAt(steps, o) && Run(steps).watches[o].driver.InRound?
    ensures var n := Next(Run(steps), RoundThrows(o)); Exists(n, o) && (Covered(n, o) <==> OwnWindow(Run(steps), o))
  {
  }

  predicate StartsFullRound(m: Manager, step: Step, o: Obj) {
    StartsRound(m, step, o) && Next(m, step).watches[o].driver.mode == FullRound
  }

  /** No full round of the object starts in the steps that follow. */
  ghost predicate NoFullRound(steps: seq<Step>, more: seq<Step>, o: Obj) {
    forall k: nat :: k < |more| ==> !StartsFullRound(Run(steps + more[..k]), more[k], o)
  }

  lemma ShorterNoFullRound(steps: seq<Step>, more: seq<Step>, o: Obj)
    requires more != [] && NoFullRound(steps, more, o)
    ensures NoFullRound(steps, more[..|more| - 1], o)
      && !StartsFullRound(Run(steps + more[..|more| - 1]), more[|more| - 1], o)
  {
    hide Run, StartsFullRound;
    var less := more[..|more| - 1];
    forall k: nat | k < |less| ensures !StartsFullRound(Run(steps + less[..k]), less[k], o) {
      assert less[..k] == more[..k] && less[k] == more[k];
    }
  }

  lemma StillOwed(m: Manager, step: Step, o: Obj)
    requires Inv(m) && Exists(m, o) && m.watches[o].owedFull
    requires !StartsFullRound(m, step, o)
    ensures Exists(Next(m, step), o) && Next(m, step).watches[o].owedFull
  {
    hide Inv, Next, Covered;
    if step == RoundThrows(o) { ThrowOwes(m, o); } else { StepMoves(m, step, o); }
  }

  /** A recorded full rehash is never served by cached-hash rounds only: it stays owed,
      and while the loop is watching it stays pending as a full one, until a full round
      of the object starts, through throws, refusals and re-admissions alike. */
  lemma {:induction false} OwedUntilFull(steps: seq<Step>, more: seq<Step>, o: Obj)
    requires Exists(Run(steps), o) && Run(steps).watches[o].owedFull && NoFullRound(steps, more, o)
    ensures Exists(Run(steps + more), o) && Run(steps + more).watches[o].owedFull
    ensures ActiveAt(steps + more, o) ==> Run(steps + more).watches[o].pending == Some(FullRound)
  {
    hide Inv, Next, Run, NoFullRound, StartsFullRound;
    Reachable(steps + more);
    if more == [] {
      assert steps + more == steps;
    } else {
      ShorterNoFullRound(steps, more, o);
      OwedUntilFull(steps, more[..|more| - 1], o);
      StepAlong(steps, more);
      StillOwed(Run(steps + more[..|more| - 1]), more[|more| - 1], o);
    }
    WatchIsOk(Run(steps + more), o);
  }

  /** And as long as no round throws, the very next round is the full one. */
  lemma NextRoundIsFull(steps: seq<Step>, more: seq<Step>, step: Step, o: Obj)
    requires Exists(Run(steps), o) && Run(steps).watches[o].owedFull && Run(steps).watches[o].driver != Idle
    requires NoRound(steps, more, o) && NoThrow(more, o) && StartsRound(Run(steps + more), step, o)
    ensures Next(Run(steps + more), step).watches[o].driver.mode == FullRound
  {
    AttendedAlong(steps, more, o);
    hide Inv, Next, Run, Moved, MovedWatch, Starts, NoRound, Attended;
    Reachable(steps + more);
    StepIsMove(Run(steps + more), step, o);
  }

  lemma StepIsMove(m: Manager, step: Step, o: Obj)
    requires Inv(m) && StartsRound(m, step, o)
    ensures
      var w, v := m.watches[o], Next(m, step).watches[o];
      && Active(v) && !w.aborted && v.driver.InRound? && v.driver.generation == v.generation
      && (w.owedFull && Attended(w) ==> v.driver.mode == FullRound)
  {
    if step == RoundThrows(o) { ThrowOwes(m, o); }
    hide Inv, Next, MovedWatch, Covered, Attended;
    StepMoves(m, step, o);
    StartFacts(m.watches[o], Next(m, step).watches[o], Covered(m, o), Covered(Next(m, step), o));
  }

  lemma StillAttended(m: Manager, step: Step, o: Obj)
    requires Inv(m) && Exists(m, o) && m.watches[o].owedFull && Attended(m.watches[o]) && step != RoundThrows(o)
      && !StartsRound(m, step, o)
    ensures Exists(Next(m, step), o) && Next(m, step).watches[o].owedFull && Attended(Next(m, step).watches[o])
  {
    hide Inv, Next, Covered;
    StepMoves(m, step, o);
  }

  lemma {:induction false} AttendedAlong(steps: seq<Step>, more: seq<Step>, o: Obj)
    requires Exists(Run(steps), o) && Run(steps).watches[o].owedFull && Attended(Run(steps).watches[o])
    requires NoRound(steps, more, o) && NoThrow(more, o)
    ensures Exists(Run(steps + more), o) && Run(steps + more).watches[o].owedFull
      && Attended(Run(steps + more).watches[o])
  {
    hide Inv, Next, Run, NoRound, NoThrow, Attended, StartsRound;
    if more == [] {
      assert steps + more == steps;
    } else {
      ShorterNoRound(steps, more, o);
      ShorterNoThrow(more, o);
      AttendedAlong(steps, more[..|more| - 1], o);
      StepAlong(steps, more);
      StillAttended(Run(steps + more[..|more| - 1]), more[|more| - 1], o);
    }
  }

  // ---- A loop that stops watching and watches again ----

  /** Once the object watches, a full round has started or is recorded for a driver. */
  predicate FullIsDue(w: Watch) { Active(w) ==> w.owedFull && w.pending == Some(FullRound) && w.driver != Idle }

  lemma StillDue(m: Manager, step: Step, o: Obj)
    requires Inv(m) && Exists(m, o) && FullIsDue(m.watches[o]) && step != RoundThrows(o) && !StartsFullRound(m, step, o)
    ensures Exists(Next(m, step), o) && FullIsDue(Next(m, step).watches[o])
  {
    hide Inv, Next, Covered;
    StepMoves(m, step, o);
    WatchIsOk(Next(m, step), o);
  }

  /** Whatever interrupted the loop, by the time it watches again a full round has started,
      or is recorded and has a driver that will start it. */
  lemma {:induction false} WatchesAgainInFull(steps: seq<Step>, more: seq<Step>, o: Obj)
    requires Exists(Run(steps), o) && !ActiveAt(steps, o) && NoFullRound(steps, more, o) && NoThrow(more, o)
    ensures Exists(Run(steps + more), o) && FullIsDue(Run(steps + more).watches[o])
  {
    hide Inv, Next, Run, NoFullRound, NoThrow, StartsFullRound;
    if more == [] {
      assert steps + more == steps;
    } else {
      ShorterNoFullRound(steps, more, o);
      ShorterNoThrow(more, o);
      WatchesAgainInFull(steps, more[..|more| - 1], o);
      StepAlong(steps, more);
      StillDue(Run(steps + more[..|more| - 1]), more[|more| - 1], o);
    }
  }

  /** What follows the first k of the steps that follow. */
  lemma LaterSteps(steps: seq<Step>, more: seq<Step>, k: nat, o: Obj)
    requires k <= |more|
    ensures (steps + more[..k]) + more[k..] == steps + more
    ensures NoRound(steps, more, o) ==> NoFullRound(steps + more[..k], more[k..], o)
    ensures NoThrow(more, o) ==> NoThrow(more[k..], o)
  {
    hide Run, StartsRound;
    assert more[..k] + more[k..] == more;
    if NoRound(steps, more, o) {
      forall j: nat | j < |more[k..]|
        ensures !StartsFullRound(Run((steps + more[..k]) + more[k..][..j]), more[k..][j], o) {
        assert (steps + more[..k]) + more[k..][..j] == steps + more[..k + j];
      }
    }
  }

  /** An accepted change that is covered is not lost to a refusal and a re-admission of its
      loop: whenever the loop is watching, however often it stopped in between, a round
      has started since or the change is covered. Only a throw of a round can end that. */
  lemma AcceptedIsServed(steps: seq<Step>, more: seq<Step>, o: Obj)
    requires Exists(Run(steps), o) && Covered(Run(steps), o) && ActiveAt(steps + more, o) && NoThrow(more, o)
    ensures NoRound(steps, more, o) ==> Covered(Run(steps + more), o)
  {
    if NoRound(steps, more, o) {
      if k: nat :| k <= |more| && !ActiveAt(steps + more[..k], o) {
        LaterSteps(steps, more, k, o);
        StaysThere(steps, more[..k], o);
        WatchesAgainInFull(steps + more[..k], more[k..], o);
        hide Inv, Run, OwnWindow;
      } else {
        hide Inv, Run, Covered, ActiveAt, NoRound, NoThrow;
        ChangeStaysCovered(steps, more, o);
      }
    }
  }

  lemma {:induction false} StaysThere(steps: seq<Step>, more: seq<Step>, o: Obj)
    requires Exists(Run(steps), o)
    ensures Exists(Run(steps + more), o)
  {
    hide Inv, Next, Run;
    if more == [] {
      assert steps + more == steps;
    } else {
      var less, last := more[..|more| - 1], more[|more| - 1];
      StaysThere(steps, less, o);
      StepAlong(steps, more);
      if last == RoundThrows(o) { ThrowOwes(Run(steps + less), o); } else { StepMoves(Run(steps + less), last, o); }
    }
  }

  /** A reconcile request on an active object starts a full round, or is recorded as
      one for the driver in force. */
  lemma FullIsTakenUp(steps: seq<Step>, o: Obj)
    requires ActiveAt(steps, o)
    ensures
      var w, v := Run(steps).watches[o], RunSync(Run(steps), o, FullRound).watches[o];
      if w.driver == Idle then v.driver == InRound(w.generation, FullRound)
      else v.driver == w.driver && v.pending == Some(FullRound) && v.owedFull
  {
    Reachable(steps);
    assert WatchOk(Run(steps), o);
    RunSyncIs(Run(steps), o, FullRound);
  }

  /** Rounds start only for the loop's current object, while it is watching, and for
      its own generation; none starts after a drain. */
  lemma RoundsAreCurrent(steps: seq<Step>, step: Step, o: Obj)
    requires StartsRound(Run(steps), step, o)
    ensures
      var m, n := Run(steps), Next(Run(steps), step);
      && CanRun(n, o) && n.watches[o].driver.generation == n.watches[o].generation
      && !m.watches[o].aborted && !m.draining
  {
    hide Inv, Next, Run, Starts;
    Reachable(steps);
    var m := Run(steps);
    WatchIsOk(m, o);
    StepIsMove(m, step, o);
    StepKeeps(m, step);
    WatchIsOk(Next(m, step), o);
  }

  lemma WatchIsOk(m: Manager, o: Obj)
    requires Inv(m) && Exists(m, o)
    ensures WatchOk(m, o)
  {
  }

  // ---- Accepting a change ----

  /** Exactly when an accepted change is covered: no window was in force, or one that
      covers it already was. The window left over from the generation before a
      re-admission covers nothing. */
  lemma AcceptedIffCovered(steps: seq<Step>, o: Obj)
    requires ActiveAt(steps, o)
    ensures
      var m := Run(steps); var n := Next(m, EventSeen(o));
      Covered(n, o) <==> m.watches[o].window.None? || Covered(m, o)
  {
    Reachable(steps);
    assert WatchOk(Run(steps), o);
    hide Inv, Run;
    var m := Run(steps);
    if m.watches[o].window.None? { OpensWindow(m, o); }
  }

  /** A window of the object's generation that runs out starts a round, or hands the
      work to the driver in force. */
  lemma WindowServes(steps: seq<Step>, o: Obj, outcome: Outcome, ok: bool)
    requires ActiveAt(steps, o) && OwnWindow(Run(steps), o)
    ensures
      var m := Run(steps); var n := Next(m, TaskResumes(m.watches[o].window.value, outcome, ok));
      && Exists(n, o) && n.watches[o].window.None?
      && (Starts(m.watches[o], n.watches[o]) || (n.watches[o].pending.Some? && n.watches[o].driver != Idle))
  {
    hide Inv, Run, Next, WatchOk, OwnWindow, Starts;
    Reachable(steps);
    WatchIsOk(Run(steps), o);
    WindowServed(Run(steps), o, outcome, ok);
  }

  lemma WindowServed(m: Manager, o: Obj, outcome: Outcome, ok: bool)
    requires Exists(m, o) && Active(m.watches[o]) && OwnWindow(m, o) && WatchOk(m, o)
    ensures
      var n := Next(m, TaskResumes(m.watches[o].window.value, outcome, ok));
      && Exists(n, o) && n.watches[o].window.None?
      && (Starts(m.watches[o], n.watches[o]) || (n.watches[o].pending.Some? && n.watches[o].driver != Idle))
  {
    RunSyncIs(Put(End(m, m.watches[o].window.value), o, m.watches[o].(window := None)), o, EventRound);
  }

  /** The driver of an active object starts the round that was recorded meanwhile, in
      the mode that was recorded. */
  lemma DriverServes(steps: seq<Step>, o: Obj)
    requires ActiveAt(steps, o)
    requires Run(steps).watches[o].driver == Settling && Run(steps).watches[o].pending.Some?
    ensures
      var w := Run(steps).watches[o]; var n := Next(Run(steps), DriverResumes(o));
      Exists(n, o) && n.watches[o].driver == InRound(w.generation, w.pending.value) && n.watches[o].pending.None?
  {
    hide Inv, Run, Next, WatchOk;
    Reachable(steps);
    WatchIsOk(Run(steps), o);
    DriverServed(Run(steps), o);
  }

  lemma DriverServed(m: Manager, o: Obj)
    requires Exists(m, o) && Active(m.watches[o]) && WatchOk(m, o) && m.watches[o].driver == Settling
      && m.watches[o].pending.Some?
    ensures
      var w := m.watches[o]; var n := Next(m, DriverResumes(o));
      Exists(n, o) && n.watches[o].driver == InRound(w.generation, w.pending.value) && n.watches[o].pending.None?
  {
  }
}
