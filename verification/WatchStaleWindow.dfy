/**
 A run of the watch manager in which an accepted change is lost until the next tick,
 step by step.
 */
module WatchStaleWindow {
  import opened Wrappers
  import opened WatchManager
  import opened WatchSteps
  import opened WatchRuns

  const ITEM := Item(0, 0)

  function Seen(generation: nat, status: Status, watcher: Option<nat>, reported: bool, window: Option<nat>,
                driver: Driver): Watch {
    Watch(ITEM, generation, status, false, watcher, reported, None, window, None, driver, false)
  }

  function At(w: Watch, closes: map<LoopId, seq<Close>>, live: map<nat, LoopId>, nextWatcher: nat,
              tasks: map<nat, Task>, nextTask: nat): Manager
  {
    Manager([w], map[0 := 0], closes, live, nextWatcher, tasks, nextTask, [ITEM], false, false)
  }

  /** A change opens a window; the round under way fails on its root; the tick
      re-admits the loop before the window runs out; a change of the new generation is
      folded into the old window, which then runs out for nothing. */
  const LOST: seq<Step> := [
    SetApplied([ITEM]),
    TaskResumes(0, Quiet, true),
    TaskResumes(0, Quiet, true),
    TaskResumes(0, Quiet, true),
    EventSeen(0),
    RoundReturns(0, RootFailed),
    DriverResumes(0),
    TickStarts,
    TaskResumes(2, Quiet, true),
    TaskResumes(2, Quiet, true),
    CloseResolves(0, 0),
    TaskResumes(3, Quiet, true),
    TaskResumes(3, Quiet, true),
    TaskResumes(3, Quiet, true),
    EventSeen(0),
    TaskResumes(1, Quiet, true),
    RoundReturns(0, Quiet),
    DriverResumes(0)]

  function Trace(k: nat): Manager
    requires k <= |LOST|
  {
    if k == 0 then START
    else if k == 1 then At(Seen(1, Admitting, None, false, None, Idle), map[], map[], 0, map[0 := Admission(0, 1)], 1)
    else if k == 2
      then At(Seen(1, Admitting, None, false, None, Idle), map[], map[], 0, map[0 := AwaitClose(0, 1, 0)], 1)
    else if k == 3
      then At(Seen(1, Admitting, Some(0), false, None, Idle), map[], map[0 := 0], 1, map[0 := AwaitReady(0, 1)], 1)
    else if k == 4
      then At(Seen(1, Watching, Some(0), false, None, InRound(1, FullRound)), map[], map[0 := 0], 1, map[], 1)
    else if k == 5
      then At(Seen(1, Watching, Some(0), false, Some(1), InRound(1, FullRound)), map[], map[0 := 0], 1,
              map[1 := Window(0, 1)], 2)
    else if k == 6
      then At(Seen(1, Refused, None, true, Some(1), Settling), map[0 := [Close(Some(0), false)]], map[0 := 0], 1,
              map[1 := Window(0, 1)], 2)
    else if k == 7
      then At(Seen(1, Refused, None, true, Some(1), Idle), map[0 := [Close(Some(0), false)]], map[0 := 0], 1,
              map[1 := Window(0, 1)], 2)
    else if k == 8
      then At(Seen(1, Refused, None, true, Some(1), Idle), map[0 := [Close(Some(0), false)]], map[0 := 0], 1,
              map[1 := Window(0, 1), 2 := Tick([0])], 3)
    else if k == 9
      then At(Seen(1, Refused, None, true, Some(1), Idle), map[0 := [Close(Some(0), false)]], map[0 := 0], 1,
              map[1 := Window(0, 1), 2 := TickAdmission(0, 1, [])], 3)
    else if k == 10
      then At(Seen(2, Admitting, None, false, Some(1), Idle), map[0 := [Close(Some(0), false)]], map[0 := 0], 1,
              map[1 := Window(0, 1), 2 := Tick([]), 3 := Admission(0, 2)], 4)
    else if k == 11
      then At(Seen(2, Admitting, None, false, Some(1), Idle), map[0 := [Close(Some(0), true)]], map[], 1,
              map[1 := Window(0, 1), 2 := Tick([]), 3 := Admission(0, 2)], 4)
    else if k == 12
      then At(Seen(2, Admitting, None, false, Some(1), Idle), map[0 := [Close(Some(0), true)]], map[], 1,
              map[1 := Window(0, 1), 2 := Tick([]), 3 := AwaitClose(0, 2, 1)], 4)
    else if k == 13
      then At(Seen(2, Admitting, Some(1), false, Some(1), Idle), map[0 := [Close(Some(0), true)]], map[1 := 0], 2,
              map[1 := Window(0, 1), 2 := Tick([]), 3 := AwaitReady(0, 2)], 4)
    else if k == 14
      then At(Seen(2, Watching, Some(1), false, Some(1), InRound(2, FullRound)), map[0 := [Close(Some(0), true)]],
              map[1 := 0], 2, map[1 := Window(0, 1), 2 := Tick([])], 4)
    else if k == 15
      then At(Seen(2, Watching, Some(1), false, Some(1), InRound(2, FullRound)), map[0 := [Close(Some(0), true)]],
              map[1 := 0], 2, map[1 := Window(0, 1), 2 := Tick([])], 4)
    else if k == 16
      then At(Seen(2, Watching, Some(1), false, None, InRound(2, FullRound)), map[0 := [Close(Some(0), true)]],
              map[1 := 0], 2, map[2 := Tick([])], 4)
    else if k == 17
      then At(Seen(2, Watching, Some(1), false, None, Settling), map[0 := [Close(Some(0), true)]], map[1 := 0], 2,
              map[2 := Tick([])], 4)
    else At(Seen(2, Watching, Some(1), false, None, Idle), map[0 := [Close(Some(0), true)]], map[1 := 0], 2,
            map[2 := Tick([])], 4)
  }


  /** Equal when equal field by field. */
  predicate Alike(m: Manager, n: Manager) {
    && m.watches == n.watches && m.states == n.states && m.closes == n.closes && m.live == n.live && m.tasks == n.tasks
    && m.nextWatcher == n.nextWatcher && m.nextTask == n.nextTask && m.applied == n.applied
    && m.machineStopped == n.machineStopped && m.draining == n.draining
  }

  lemma AlikeIsEqual(m: Manager, n: Manager)
    requires Alike(m, n)
    ensures m == n
  {
  }

  lemma Trace0()
    ensures Alike(Next(Trace(0), LOST[0]), Trace(1))
  {
    var m := START.(applied := [ITEM]);
    assert StopAll(m, 0, Unwanted({0})) == m;
    assert [ITEM][..0] == [] && ReconcileItems(m, []) == m;
    assert ReconcileItems(m, [ITEM]) == ReconcileItem(m, ITEM);
  }

  lemma Trace1()
    ensures Alike(Next(Trace(1), LOST[1]), Trace(2))
  {
  }

  lemma Trace2()
    ensures Alike(Next(Trace(2), LOST[2]), Trace(3))
  {
  }

  lemma Trace3()
    ensures Alike(Next(Trace(3), LOST[3]), Trace(4))
  {
  }

  lemma Trace4()
    ensures Alike(Next(Trace(4), LOST[4]), Trace(5))
  {
  }

  lemma Trace5()
    ensures Alike(Next(Trace(5), LOST[5]), Trace(6))
  {
    assert Chain(Trace(5), 0) == [] && [] + [Close(Some(0), false)] == [Close(Some(0), false)];
    assert IsCurrent(Trace(5), 0);
  }

  lemma Trace6()
    ensures Alike(Next(Trace(6), LOST[6]), Trace(7))
  {
  }

  lemma Trace7()
    ensures Alike(Next(Trace(7), LOST[7]), Trace(8))
  {
    assert CurrentUpTo(Trace(7), 0) == [] && CurrentUpTo(Trace(7), 1) == [0];
  }

  lemma Trace8()
    ensures Alike(Next(Trace(8), LOST[8]), Trace(9))
  {
    assert [0][1..] == [];
  }

  lemma Trace9()
    ensures Alike(Next(Trace(9), LOST[9]), Trace(10))
  {
  }

  lemma Trace10()
    ensures Alike(Next(Trace(10), LOST[10]), Trace(11))
  {
    assert Chain(Trace(10), 0) == [Close(Some(0), false)];
    assert [Close(Some(0), false)][0 := Close(Some(0), true)] == [Close(Some(0), true)];
  }

  lemma Trace11()
    ensures Alike(Next(Trace(11), LOST[11]), Trace(12))
  {
  }

  lemma Trace12()
    ensures Alike(Next(Trace(12), LOST[12]), Trace(13))
  {
  }

  lemma Trace13()
    ensures Alike(Next(Trace(13), LOST[13]), Trace(14))
  {
  }

  lemma Trace14()
    ensures Alike(Next(Trace(14), LOST[14]), Trace(15))
  {
  }

  lemma Trace15()
    ensures Alike(Next(Trace(15), LOST[15]), Trace(16))
  {
  }

  lemma Trace16()
    ensures Alike(Next(Trace(16), LOST[16]), Trace(17))
  {
  }

  lemma Trace17()
    ensures Alike(Next(Trace(17), LOST[17]), Trace(18))
  {
  }

  lemma TraceSteps(k: nat)
    requires k < |LOST|
    ensures Next(Trace(k), LOST[k]) == Trace(k + 1)
  {
    hide Next, Trace, Alike;
    match k {
      case 0 => Trace0();
      case 1 => Trace1();
      case 2 => Trace2();
      case 3 => Trace3();
      case 4 => Trace4();
      case 5 => Trace5();
      case 6 => Trace6();
      case 7 => Trace7();
      case 8 => Trace8();
      case 9 => Trace9();
      case 10 => Trace10();
      case 11 => Trace11();
      case 12 => Trace12();
      case 13 => Trace13();
      case 14 => Trace14();
      case 15 => Trace15();
      case 16 => Trace16();
      case 17 => Trace17();
    }
    AlikeIsEqual(Next(Trace(k), LOST[k]), Trace(k + 1));
  }

  lemma {:induction false} TraceIsRun(k: nat)
    requires k <= |LOST|
    ensures Run(LOST[..k]) == Trace(k)
  {
    if k > 0 {
      TraceIsRun(k - 1);
      TraceSteps(k - 1);
      assert LOST[..k] == LOST[..k - 1] + [LOST[k - 1]];
      hide Trace, Next;
      RunAppend(LOST[..k - 1], LOST[k - 1]);
    }
  }

  lemma NoRoundFollows(k: nat)
    requires k < 4
    ensures !StartsRound(Run(LOST[..14] + LOST[14..][..k]), LOST[14..][k], 0)
  {
    assert LOST[..14] + LOST[14..][..k] == LOST[..14 + k];
    TraceIsRun(14 + k);
    TraceSteps(14 + k);
  }

  lemma NoRoundStarts()
    ensures NoRound(LOST[..14], LOST[14..], 0)
  {
    hide Run, StartsRound;
    assert |LOST[14..]| == 4;
    forall k: nat | k < 4 ensures !StartsRound(Run(LOST[..14] + LOST[14..][..k]), LOST[14..][k], 0) {
      NoRoundFollows(k);
    }
  }

  lemma WatchingBefore()
    ensures ActiveAt(LOST[..14], 0) && LOST[14] == EventSeen(0)
  {
    TraceIsRun(14);
    hide Run;
  }

  lemma NothingAfter()
    ensures
      var m := Run(LOST);
      && ActiveAt(LOST, 0) && !Covered(m, 0) && m.watches[0].window.None? && m.watches[0].driver == Idle
      && forall t :: t in m.tasks ==> m.tasks[t] == Tick([])
  {
    TraceIsRun(18);
    assert LOST[..18] == LOST;
    hide Run;
  }

  /** The change is accepted while the loop is watching and its round is under way; no
      round starts afterwards, and nothing is left that would start one before the
      next tick. */
  lemma StaleWindowLosesChange()
    ensures ActiveAt(LOST[..14], 0) && LOST[14] == EventSeen(0)
    ensures NoRound(LOST[..14], LOST[14..], 0)
    ensures
      var m := Run(LOST);
      && ActiveAt(LOST, 0) && !Covered(m, 0) && m.watches[0].window.None? && m.watches[0].driver == Idle
      && forall t :: t in m.tasks ==> m.tasks[t] == Tick([])
  {
    hide *;
    WatchingBefore();
    NoRoundStarts();
    NothingAfter();
  }
}
