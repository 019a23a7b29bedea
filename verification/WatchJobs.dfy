/**
 What the outcome of a round, an admission, a tick and a watcher's error bring about.
 */
module WatchJobs {
  import opened Wrappers
  import opened WatchManager
  import opened WatchSafety
  import opened WatchSteps
  import opened WatchEffects
  import opened WatchRuns

  // ---- The outcome of a round ----

  /** A round of the object's own generation is over. */
  predicate Returns(m: Manager, o: Obj) {
    && o < |m.watches| && IsCurrent(m, o)
    && m.watches[o].driver.InRound? && m.watches[o].driver.generation == m.watches[o].generation
  }

  /** What the outcome makes of the object itself. */
  function After(w: Watch, outcome: Outcome): Watch {
    var v := w.(driver := Settling);
    match outcome
    case Quiet => v
    case StoppedMachine => Halted(v.(status := Parked))
    case StoppedLoop => Halted(v.(status := Parked))
    case ConfigMoved => v.(status := ConfigChanged, watcher := None)
    case RootFailed => v.(status := Refused, reportedRefusal := true, watcher := None)
  }

  /** The loop's chain ends in one more close; no other chain is touched. */
  ghost predicate OneMoreClose(m: Manager, n: Manager, l: LoopId, watcher: Option<nat>) {
    && (forall k :: k != l ==> Chain(n, k) == Chain(m, k))
    && Chain(n, l) == Chain(m, l) + [Close(watcher, false)]
  }

  ghost predicate SameChains(m: Manager, n: Manager) { forall k :: Chain(n, k) == Chain(m, k) }

  lemma PutTwice(m: Manager, o: Obj, v: Watch, u: Watch)
    requires o < |m.watches|
    ensures Put(Put(m, o, v), o, u) == Put(m, o, u)
  {
    assert m.watches[o := v][o := u] == m.watches[o := u];
  }

  /** Closing a watcher: the object has none any more. */
  lemma CloseIs(m: Manager, o: Obj)
    requires o < |m.watches|
    ensures
      var n, w := CloseWatcher(m, o), m.watches[o];
      && n == Put(m, o, w.(watcher := None)).(closes := n.closes) && OneMoreClose(m, n, w.item.loopId, w.watcher)
  {
  }

  lemma CloseAfterPut(m: Manager, o: Obj, v: Watch)
    requires o < |m.watches| && v.item == m.watches[o].item
    ensures
      var n := CloseWatcher(Put(m, o, v), o);
      && n == Put(m, o, v.(watcher := None)).(closes := n.closes) && OneMoreClose(m, n, v.item.loopId, v.watcher)
  {
    CloseIs(Put(m, o, v), o);
    PutTwice(m, o, v, v.(watcher := None));
    assert SameChains(m, Put(m, o, v));
    hide CloseWatcher, Chain;
  }

  lemma ParkIs(m: Manager, o: Obj)
    requires o < |m.watches|
    ensures
      var n, w := ParkLoop(m, o), m.watches[o];
      && n == Put(m, o, Halted(w.(status := Parked))).(closes := n.closes)
      && OneMoreClose(m, n, w.item.loopId, w.watcher)
  {
    var u := m.watches[o].(status := Parked);
    var v := u.(generation := u.generation + 1, pending := None, aborted := true);
    PutTwice(m, o, u, v);
    assert ParkLoop(m, o) == CloseWatcher(Put(m, o, v), o) by { hide CloseWatcher; }
    CloseAfterPut(m, o, v);
    hide CloseWatcher, ParkLoop, OneMoreClose, Put;
  }

  /** The objects in force are parked, their watchers are being closed. */
  ghost predicate ParkedUpTo(m: Manager, k: nat, n: Manager) {
    && |n.watches| == |m.watches|
    && forall p: nat :: p < |m.watches| ==>
         n.watches[p] == if p < k && IsCurrent(m, p) then Halted(m.watches[p].(status := Parked)) else m.watches[p]
  }

  ghost predicate ChainsParked(m: Manager, k: nat, n: Manager) {
    forall l :: ChainParked(m, k, n, l)
  }

  ghost predicate ChainParked(m: Manager, k: nat, n: Manager, l: LoopId) {
    Chain(n, l) == if l in m.states && m.states[l] < k && m.states[l] < |m.watches|
                   then Chain(m, l) + [Close(m.watches[m.states[l]].watcher, false)] else Chain(m, l)
  }

  lemma {:induction false} ParkAllIs(m: Manager, k: nat)
    requires StatesOk(m) && k <= |m.watches|
    ensures
      var n := StopAll(m, k, ParkEach);
      && n == m.(watches := n.watches, closes := n.closes) && ParkedUpTo(m, k, n) && ChainsParked(m, k, n)
  {
    if k > 0 {
      ParkAllIs(m, k - 1);
      var r := StopAll(m, k - 1, ParkEach);
      ParkOneMore(m, k, r);
    }
  }

  lemma ParkOneMore(m: Manager, k: nat, r: Manager)
    requires StatesOk(m) && 0 < k <= |m.watches|
    requires r == m.(watches := r.watches, closes := r.closes) && ParkedUpTo(m, k - 1, r) && ChainsParked(m, k - 1, r)
    ensures
      var n := StopOne(r, k - 1, ParkEach);
      && n == m.(watches := n.watches, closes := n.closes) && ParkedUpTo(m, k, n) && ChainsParked(m, k, n)
  {
    var o := k - 1;
    var n := StopOne(r, o, ParkEach);
    assert IsCurrent(r, o) == IsCurrent(m, o);
    assert n == if IsCurrent(m, o) then ParkLoop(r, o) else r;
    hide StopOne, ParkLoop;
    if IsCurrent(m, o) { ParkIs(r, o); }
    hide OneMoreClose, ChainsParked, StatesOk, Halted;
    ChainsGrow(m, k, r, n);
  }

  lemma ChainsGrow(m: Manager, k: nat, r: Manager, n: Manager)
    requires StatesOk(m) && 0 < k <= |m.watches| && ChainsParked(m, k - 1, r)
    requires
      var o := k - 1; var own := m.watches[o].item.loopId;
      if IsCurrent(m, o) then OneMoreClose(r, n, own, m.watches[o].watcher) else SameChains(r, n)
    ensures ChainsParked(m, k, n)
  {
    hide Chain;
    forall l ensures ChainParked(m, k, n, l) {
      assert ChainParked(m, k - 1, r, l);
      if l in m.states { assert StateOk(m, l); }
    }
  }

  /** A machine-wide stop parks every loop in force. */
  lemma MachineStopParksAll(m: Manager, o: Obj)
    requires StatesOk(m) && Returns(m, o)
    ensures
      var n := Next(m, RoundReturns(o, StoppedMachine));
      && n.machineStopped && n.states == m.states && n.applied == m.applied && |n.watches| == |m.watches|
      && (forall p: nat :: p < |m.watches| ==>
            n.watches[p] == if p == o then After(m.watches[p], StoppedMachine)
                            else if IsCurrent(m, p) then Halted(m.watches[p].(status := Parked)) else m.watches[p])
      && ChainsParked(m, |m.watches|, n)
  {
    var s := Put(m, o, m.watches[o].(driver := Settling)).(machineStopped := true);
    assert StatesOk(s) by { forall l | l in s.states ensures StateOk(s, l) { assert StateOk(m, l); } }
    var n := StopAll(s, |s.watches|, ParkEach);
    assert Next(m, RoundReturns(o, StoppedMachine)) == n by { hide StopAll; }
    hide StopAll;
    ParkAllIs(s, |s.watches|);
    assert forall p: nat :: p < |m.watches| ==> IsCurrent(s, p) == IsCurrent(m, p);
    hide IsCurrent;
    forall l ensures ChainParked(m, |m.watches|, n, l) {
      assert ChainParked(s, |m.watches|, n, l) && Chain(s, l) == Chain(m, l);
      if l in m.states { assert StateOk(m, l); }
      hide Chain;
    }
  }

  /** Any other outcome concerns its own loop only; a round of a replaced object or
      generation concerns nobody. */
  lemma OutcomeTakesEffect(m: Manager, o: Obj, outcome: Outcome)
    requires o < |m.watches| && m.watches[o].driver.InRound? && !outcome.StoppedMachine?
    ensures
      var n, w, l := Next(m, RoundReturns(o, outcome)), m.watches[o], m.watches[o].item.loopId;
      if !Returns(m, o) then n == Put(m, o, w.(driver := Idle))
      else
        && n == Put(m, o, After(w, outcome)).(closes := n.closes)
        && if outcome.Quiet? then SameChains(m, n) else OneMoreClose(m, n, l, w.watcher)
  {
    var w, v := m.watches[o], m.watches[o].(driver := Settling);
    var s := Put(m, o, v);
    if Returns(m, o) {
      assert Next(m, RoundReturns(o, outcome)) == HandleOutcome(s, o, outcome) by { hide HandleOutcome; }
      assert SameChains(m, s);
      hide Next, StopAll, CloseWatcher, ParkLoop, Chain, IsCurrent;
      match outcome {
        case Quiet =>
        case StoppedLoop =>
          ParkIs(s, o);
          PutTwice(m, o, v, After(w, outcome));
        case ConfigMoved => EffectOf(m, o, v, v.(status := ConfigChanged));
        case RootFailed => EffectOf(m, o, v, v.(status := Refused, reportedRefusal := true));
      }
    }
  }

  lemma EffectOf(m: Manager, o: Obj, v: Watch, u: Watch)
    requires o < |m.watches| && v.item == u.item == m.watches[o].item
    ensures
      var n := CloseWatcher(Put(Put(m, o, v), o, u), o);
      && n == Put(m, o, u.(watcher := None)).(closes := n.closes) && OneMoreClose(m, n, u.item.loopId, u.watcher)
  {
    PutTwice(m, o, v, u);
    CloseAfterPut(m, o, u);
    hide CloseWatcher, OneMoreClose, Put;
  }

  ghost predicate NoSets(more: seq<Step>) { forall k :: 0 <= k < |more| ==> !more[k].SetApplied? }

  lemma FlagStays(m: Manager, step: Step)
    requires m.machineStopped && !step.SetApplied?
    ensures Next(m, step).machineStopped
  {
    hide StopAll;
    match step {
      case RoundReturns(o,
                        outcome) => if o < |m.watches| { OutcomeFlag(Put(m, o, m.watches[o].(driver := Settling)), o,
                        outcome); }
      case TaskResumes(t, outcome, ok) => if t in m.tasks { ResumeFlag(m, t, outcome, ok); }
      case Drain =>
        StopAllFlags(m, |m.watches|, StopEach, m.applied, m.machineStopped, true);
        assert WithFlags(m, m.applied, m.machineStopped, true) == m.(draining := true);
      case _ =>
    }
  }

  lemma OutcomeFlag(m: Manager, o: Obj, outcome: Outcome)
    requires o < |m.watches| && m.machineStopped
    ensures HandleOutcome(m, o, outcome).machineStopped
  {
    hide StopAll;
    StopAllFlags(m, |m.watches|, ParkEach, m.applied, true, m.draining);
    assert WithFlags(m, m.applied, true, m.draining) == m.(machineStopped := true);
  }

  lemma JobFlag(m: Manager, t: nat, o: Obj, g: nat, outcome: Outcome)
    requires m.machineStopped && o < |m.watches|
    ensures ErrorReported(m, t, o, g, outcome).machineStopped && RefusalReported(m, t, o, g, outcome).machineStopped
  {
    hide HandleOutcome;
    OutcomeFlag(ErrorDone(m, t, o), o, outcome);
    OutcomeFlag(End(m, t), o, outcome);
  }

  lemma TickFlag(m: Manager, t: nat, o: Obj, g: nat, rest: seq<Obj>, refused: bool)
    requires m.machineStopped && o < |m.watches|
    ensures TickAdmitted(m, t, o, g, rest, refused).machineStopped
  {
  }

  lemma AdmissionFlag(m: Manager, t: nat, o: Obj, g: nat, upTo: nat, ok: bool)
    requires m.machineStopped && o < |m.watches|
    ensures AdmissionDone(m, t, o, g, !ok).machineStopped && PredecessorClosed(m, t, o, g, upTo).machineStopped
    ensures WatcherReady(m, t, o, g, ok).machineStopped
  {
    hide Chain;
  }

  lemma ResumeFlag(m: Manager, t: nat, outcome: Outcome, ok: bool)
    requires m.machineStopped && t in m.tasks
    ensures Resume(m, t, outcome, ok).machineStopped
  {
    hide ErrorReported, RefusalReported, TickNext, TickAdmitted, AdmissionDone, PredecessorClosed, WatcherReady;
    match m.tasks[t] {
      case Window(o, g) =>
      case ErrorWindow(o, g) =>
      case ErrorReport(o, g) => if o < |m.watches| { JobFlag(m, t, o, g, outcome); }
      case Admission(o, g) => if o < |m.watches| { AdmissionFlag(m, t, o, g, 0, ok); }
      case RefusalReport(o, g) => if o < |m.watches| { JobFlag(m, t, o, g, outcome); }
      case AwaitClose(o, g, upTo) => if o < |m.watches| { AdmissionFlag(m, t, o, g, upTo, ok); }
      case AwaitReady(o, g) => if o < |m.watches| { AdmissionFlag(m, t, o, g, 0, ok); }
      case Tick(rest) => TickNextFlag(m, t, rest);
      case TickAdmission(o, g, rest) => if o < |m.watches| { TickFlag(m, t, o, g, rest, !ok); }
    }
  }

  lemma TickNextFlag(m: Manager, t: nat, rest: seq<Obj>)
    requires m.machineStopped
    ensures TickNext(m, t, rest).machineStopped
  {
  }

  /** After a machine-wide stop no round of any loop starts until a different set is
      applied. */
  lemma {:induction false} StoppedMachineStartsNothing(steps: seq<Step>, more: seq<Step>, o: Obj)
    requires Run(steps).machineStopped && NoSets(more)
    ensures Run(steps + more).machineStopped && NoRound(steps, more, o)
  {
    if more == [] {
      assert steps + more == steps;
    } else {
      var less, last := more[..|more| - 1], more[|more| - 1];
      hide Inv, Next, Run;
      StoppedMachineStartsNothing(steps, less, o);
      StepAlong(steps, more);
      FlagStays(Run(steps + less), last);
      StartsNoRound(steps + less, last, o);
      LongerNoRound(steps, more, o);
    }
  }

  lemma StartsNoRound(steps: seq<Step>, step: Step, o: Obj)
    requires Next(Run(steps), step).machineStopped
    ensures !StartsRound(Run(steps), step, o)
  {
    hide Run, Next;
    if StartsRound(Run(steps), step, o) { RoundsAreCurrent(steps, step, o); }
  }

  lemma LongerNoRound(steps: seq<Step>, more: seq<Step>, o: Obj)
    requires more != [] && NoRound(steps, more[..|more| - 1], o)
    requires !StartsRound(Run(steps + more[..|more| - 1]), more[|more| - 1], o)
    ensures NoRound(steps, more, o)
  {
    forall k: nat | k < |more| ensures !StartsRound(Run(steps + more[..k]), more[k], o) {
      NoRoundAt(steps, more, k, o);
    }
  }

  lemma NoRoundAt(steps: seq<Step>, more: seq<Step>, k: nat, o: Obj)
    requires k < |more| && NoRound(steps, more[..|more| - 1], o)
    requires !StartsRound(Run(steps + more[..|more| - 1]), more[|more| - 1], o)
    ensures !StartsRound(Run(steps + more[..k]), more[k], o)
  {
    var less := more[..|more| - 1];
    if k < |less| {
      assert less[..k] == more[..k] && less[k] == more[k];
      assert !StartsRound(Run(steps + less[..k]), less[k], o);
    }
  }

  // ---- An admission ----

  /** The closes of the loop resolve one after the other. */
  function Closings(l: LoopId, n: nat): seq<Step> {
    if n == 0 then [] else Closings(l, n - 1) + [CloseResolves(l, n - 1)]
  }

  function Play(m: Manager, steps: seq<Step>): Manager {
    if steps == [] then m else Next(Play(m, steps[..|steps| - 1]), steps[|steps| - 1])
  }

  ghost predicate ClosedUpTo(m: Manager, l: LoopId, k: nat, n: Manager) {
    && n == m.(closes := n.closes, live := n.live) && |Chain(n, l)| == |Chain(m, l)|
    && (forall i :: 0 <= i < k && i < |Chain(n, l)| ==> Chain(n, l)[i].done)
    && (forall i :: k <= i < |Chain(n, l)| ==> Chain(n, l)[i] == Chain(m, l)[i])
  }

  lemma PlayClosings(m: Manager, l: LoopId, k: nat)
    requires k > 0
    ensures Play(m, Closings(l, k)) == CloseDone(Play(m, Closings(l, k - 1)), l, k - 1)
  {
    var steps := Closings(l, k);
    assert steps[..|steps| - 1] == Closings(l, k - 1) && steps[|steps| - 1] == CloseResolves(l, k - 1);
    hide CloseDone, Closings;
  }

  lemma {:induction false} ClosingsClose(m: Manager, l: LoopId, k: nat)
    requires k <= |Chain(m, l)|
    ensures ClosedUpTo(m, l, k, Play(m, Closings(l, k)))
  {
    if k > 0 {
      hide ClosedUpTo, CloseDone, Closings, Play;
      ClosingsClose(m, l, k - 1);
      PlayClosings(m, l, k);
      OneCloses(m, l, k, Play(m, Closings(l, k - 1)));
    } else {
      assert Play(m, Closings(l, 0)) == m;
    }
  }

  lemma OneCloses(m: Manager, l: LoopId, k: nat, n: Manager)
    requires 0 < k <= |Chain(m, l)| && ClosedUpTo(m, l, k - 1, n)
    ensures ClosedUpTo(m, l, k, CloseDone(n, l, k - 1))
  {
  }

  /** The admission of an object waits, and nothing speaks against it. */
  predicate Waits(m: Manager, t: nat, o: Obj, g: nat) {
    o < |m.watches| && t in m.tasks && m.tasks[t] == Admission(o, g) && !Abandoned(m, o, g)
  }

  /** What an admission comes to: the object watches, its watcher is the newest one and is
      open, and a full round has started or is recorded for the driver in force. */
  ghost predicate Landed(m: Manager, n: Manager, t: nat, o: Obj) {
    && o < |m.watches| && |n.watches| == |m.watches| && t !in n.tasks
    && var w, v := m.watches[o], n.watches[o];
    && v.status == Watching && v.watcher == Some(m.nextWatcher) && Open(n, m.nextWatcher, w.item.loopId)
    && v.item == w.item && v.generation == w.generation && !v.aborted
    && (if w.driver == Idle then v.driver == InRound(w.generation, FullRound)
        else v.driver == w.driver && v.pending == Some(FullRound))
    && forall p: nat :: p < |m.watches| && p != o ==> n.watches[p] == m.watches[p]
  }

  /** An admission whose root is found usable, whose predecessors' watchers close and whose
      own watcher gets ready lands, whatever the loop's history was. */
  lemma AdmissionLands(m: Manager, t: nat, o: Obj, g: nat)
    requires Waits(m, t, o, g)
    ensures
      var l := m.watches[o].item.loopId;
      var admitted := Next(m, TaskResumes(t, Quiet, true));
      var closed := Play(admitted, Closings(l, |Chain(m, l)|));
      var subscribed := Next(closed, TaskResumes(t, Quiet, true));
      Landed(m, Next(subscribed, TaskResumes(t, Quiet, true)), t, o)
  {
    var l := m.watches[o].item.loopId;
    var admitted := Next(m, TaskResumes(t, Quiet, true));
    var closed := Play(admitted, Closings(l, |Chain(m, l)|));
    assert admitted == Become(m, t, AwaitClose(o, g, |Chain(m, l)|));
    ClosingsClose(admitted, l, |Chain(m, l)|);
    Subscribes(m, t, o, g, closed);
    hide Play, Closings, Chain, ClosedUpTo, Become, Abandoned;
    ReadyLands(Next(closed, TaskResumes(t, Quiet, true)), t, o, g);
  }

  /** Every close before it has resolved. */
  lemma Subscribes(m: Manager, t: nat, o: Obj, g: nat, closed: Manager)
    requires Waits(m, t, o, g)
    requires var l := m.watches[o].item.loopId;
      ClosedUpTo(Become(m, t, AwaitClose(o, g, |Chain(m, l)|)), l, |Chain(m, l)|, closed)
    ensures
      var s, l := Next(closed, TaskResumes(t, Quiet, true)), m.watches[o].item.loopId;
      && s.watches == m.watches[o := m.watches[o].(watcher := Some(m.nextWatcher))] && t in s.tasks
      && s.tasks[t] == AwaitReady(o, g) && !Abandoned(s, o, g) && Open(s, m.nextWatcher, l)
  {
    var l := m.watches[o].item.loopId;
    var v := m.watches[o].(watcher := Some(m.nextWatcher));
    assert Next(closed, TaskResumes(t, Quiet, true))
        == Become(Put(closed.(live := closed.live[m.nextWatcher := l], nextWatcher := m.nextWatcher + 1), o, v),
                  t, AwaitReady(o, g));
    hide Chain, ClosedUpTo, Next;
  }

  lemma ReadyLands(m: Manager, t: nat, o: Obj, g: nat)
    requires o < |m.watches| && t in m.tasks && m.tasks[t] == AwaitReady(o, g) && !Abandoned(m, o, g)
    ensures
      var n, w := Next(m, TaskResumes(t, Quiet, true)), m.watches[o];
      && |n.watches| == |m.watches| && t !in n.tasks && n.live == m.live
      && var v := n.watches[o];
      && v.status == Watching && v.watcher == w.watcher && v.item == w.item && v.generation == w.generation
      && v.aborted == w.aborted
      && (if w.driver == Idle then v.driver == InRound(w.generation, FullRound)
          else v.driver == w.driver && v.pending == Some(FullRound))
      && forall p: nat :: p < |m.watches| && p != o ==> n.watches[p] == m.watches[p]
  {
  }

  /** A root that is found unusable: the object rests until a tick, and the refusal is
      reported, once a generation. */
  lemma RefusalIsReportedOnce(m: Manager, t: nat, o: Obj, g: nat)
    requires Waits(m, t, o, g)
    ensures
      var n, w := Next(m, TaskResumes(t, Quiet, false)), m.watches[o];
      && |n.watches| == |m.watches| && n.watches[o] == w.(status := Refused, reportedRefusal := true)
      && (if w.reportedRefusal then t !in n.tasks else t in n.tasks && n.tasks[t] == RefusalReport(o, g))
      && n.live == m.live && forall p: nat :: p < |m.watches| && p != o ==> n.watches[p] == m.watches[p]
  {
  }

  // ---- A tick ----

  /** A tick walks through every object in force, each once. */
  lemma {:induction false} TickMeetsAll(m: Manager, k: nat)
    requires k <= |m.watches|
    ensures forall o: nat :: o in CurrentUpTo(m, k) <==> o < k && IsCurrent(m, o)
    ensures forall i, j :: 0 <= i < j < |CurrentUpTo(m, k)| ==> CurrentUpTo(m, k)[i] < CurrentUpTo(m, k)[j]
  {
    if k > 0 {
      TickMeetsAll(m, k - 1);
      var less := CurrentUpTo(m, k - 1);
      forall i | 0 <= i < |less| ensures less[i] < k - 1 { assert less[i] in less; }
      hide IsCurrent;
    }
  }

  /** The object whose turn it is: one that watches gets a full round, or has it recorded;
      one whose root was refused is checked again. */
  lemma TickServes(m: Manager, t: nat, rest: seq<Obj>, outcome: Outcome, ok: bool)
    requires t in m.tasks && m.tasks[t] == Tick(rest) && rest != [] && rest[0] < |m.watches| && !m.draining
    ensures
      var n, o, w := Next(m, TaskResumes(t, outcome, ok)), rest[0], m.watches[rest[0]];
      && |n.watches| == |m.watches| && t in n.tasks
      && (forall p: nat :: p < |m.watches| && p != o ==> n.watches[p] == m.watches[p])
      && (CanRun(m, o) ==>
            if w.driver == Idle then n.watches[o].driver == InRound(w.generation, FullRound)
            else n.watches[o].driver == w.driver && n.watches[o].pending == Some(FullRound))
      && (if w.status == Refused && !m.machineStopped
          then n.tasks[t] == TickAdmission(o, w.generation, rest[1..]) && n.watches[o] == w
          else n.tasks[t] == Tick(rest[1..]))
  {
    var o := rest[0];
    FullTaken(m, o);
    hide RunSync, CanRun;
  }

  lemma FullTaken(m: Manager, o: Obj)
    requires o < |m.watches|
    ensures
      var n, w := RunSync(m, o, FullRound), m.watches[o];
      && n == m.(watches := n.watches) && (forall p: nat :: p < |m.watches| && p != o ==> n.watches[p] == m.watches[p])
      && (CanRun(m, o) ==> w.status == Watching)
      && (CanRun(m, o) ==>
            if w.driver == Idle then n.watches[o].driver == InRound(w.generation, FullRound)
            else n.watches[o].driver == w.driver && n.watches[o].pending == Some(FullRound))
  {
  }

  /** A refused root that is usable again: the same object starts a new generation, which
      is about to be admitted and may report a refusal anew. */
  lemma RefusedIsAdmittedAgain(m: Manager, t: nat, o: Obj, g: nat, rest: seq<Obj>, outcome: Outcome)
    requires o < |m.watches| && t in m.tasks && m.tasks[t] == TickAdmission(o, g, rest) && TasksBelow(m)
    requires m.watches[o].generation == g && IsCurrent(m, o) && !m.draining && !m.machineStopped
      && !m.watches[o].aborted
    ensures
      var n, w := Next(m, TaskResumes(t, outcome, true)), m.watches[o];
      && |n.watches| == |m.watches| && t in n.tasks && n.tasks[t] == Tick(rest)
      && n.watches[o] == w.(status := Admitting, generation := g + 1, reportedRefusal := false)
      && Admitted(m, n, o, g + 1)
  {
    var n := Next(m, TaskResumes(t, outcome, true));
    assert m.nextTask in n.tasks && n.tasks[m.nextTask] == Admission(o, g + 1);
  }

  // ---- A watcher's error ----

  /** The first error of a watched object opens a window, which ends in one report. */
  lemma ErrorIsReported(m: Manager, o: Obj, outcome: Outcome, ok: bool)
    requires o < |m.watches| && (m.watches[o].status == Watching || m.watches[o].status == Admitting)
    requires !m.draining && m.watches[o].errorWindow.None?
    ensures
      var n, w := Next(m, ErrorSeen(o)), m.watches[o];
      && |n.watches| == |m.watches| && n.watches[o] == w.(errorWindow := Some(m.nextTask))
      && m.nextTask in n.tasks && n.tasks[m.nextTask] == ErrorWindow(o, w.generation)
      && Next(n, ErrorSeen(o)) == n
      && (IsCurrent(m, o) ==>
            var r := Next(n, TaskResumes(m.nextTask, outcome, ok));
            r == n.(tasks := n.tasks[m.nextTask := ErrorReport(o, w.generation)]))
  {
  }
}
