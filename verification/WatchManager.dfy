/**
 The watch manager: one LoopWatch object per generation of a watched loop, the
 chain of watcher closes per loop, and the jobs that wait on timers, on the sync
 client or on a watcher. One step is what runs between two awaits; the environment
 picks which waiting task resumes, in any order.
 */
module WatchManager {
  import opened Wrappers

  type LoopId = nat

  /** Index of a LoopWatch object. */
  type Obj = nat

  /** A watch item: its loop, and its remaining fields as one value. */
  datatype Item = Item(loopId: LoopId, fields: nat)

  datatype Status = Admitting | Watching | Refused | ConfigChanged | Parked

  datatype Mode = EventRound | FullRound

  /** `inFlight`: nothing, a round of some generation, or waiting for the effects of
      a round's outcome. */
  datatype Driver = Idle | InRound(generation: nat, mode: Mode) | Settling

  /** The sync client's answers, as far as the manager tells them apart. */
  datatype Outcome = Quiet | StoppedMachine | StoppedLoop | ConfigMoved | RootFailed

  /** `owedFull` is history: a full rehash was recorded and no full round started since. */
  datatype Watch = Watch(item: Item, generation: nat, status: Status, aborted: bool, watcher: Option<nat>,
                         reportedRefusal: bool, pending: Option<Mode>, window: Option<nat>, errorWindow: Option<nat>,
                         driver: Driver, owedFull: bool)

  /** One retained close: it awaits the one before it, then closes its watcher. */
  datatype Close = Close(watcher: Option<nat>, done: bool)

  datatype Task =
    | Window(obj: Obj, generation: nat)
    | ErrorWindow(obj: Obj, generation: nat)
    | ErrorReport(obj: Obj, generation: nat)
    | Admission(obj: Obj, generation: nat)
    | RefusalReport(obj: Obj, generation: nat)
    | AwaitClose(obj: Obj, generation: nat, upTo: nat)
    | AwaitReady(obj: Obj, generation: nat)
    | Tick(rest: seq<Obj>)
    | TickAdmission(obj: Obj, generation: nat, rest: seq<Obj>)

  datatype Manager = Manager(watches: seq<Watch>, states: map<LoopId, Obj>, closes: map<LoopId, seq<Close>>,
                             live: map<nat, LoopId>, nextWatcher: nat, tasks: map<nat, Task>, nextTask: nat,
                             applied: seq<Item>, machineStopped: bool, draining: bool)

  const START := Manager([], map[], map[], map[], 0, map[], 0, [], false, false)

  predicate IsCurrent(m: Manager, o: Obj)
    requires o < |m.watches|
  {
    var l := m.watches[o].item.loopId;
    l in m.states && m.states[l] == o
  }

  predicate CanRun(m: Manager, o: Obj)
    requires o < |m.watches|
  {
    !m.draining && !m.machineStopped && !m.watches[o].aborted && m.watches[o].status == Watching && IsCurrent(m, o)
  }

  function Put(m: Manager, o: Obj, w: Watch): Manager
    requires o < |m.watches|
  {
    m.(watches := m.watches[o := w])
  }

  /** The loop's closes so far; its newest is the one a successor awaits. */
  function Chain(m: Manager, l: LoopId): seq<Close> { if l in m.closes then m.closes[l] else [] }

  function CloseWatcher(m: Manager, o: Obj): (r: Manager)
    requires o < |m.watches|
    ensures |r.watches| == |m.watches|
  {
    var w := m.watches[o];
    var l := w.item.loopId;
    m.(watches := m.watches[o := w.(watcher := None)], closes := m.closes[l := Chain(m, l) + [Close(w.watcher, false)]])
  }

  /** Cancel a generation for good and start closing its watcher. Its open windows are
      aborted too: the generation they carry is no longer the object's. */
  function StopLoop(m: Manager, o: Obj): (r: Manager)
    requires o < |m.watches|
    ensures |r.watches| == |m.watches|
  {
    var w := m.watches[o];
    CloseWatcher(Put(m, o, w.(generation := w.generation + 1, pending := None, aborted := true)), o)
  }

  function ParkLoop(m: Manager, o: Obj): (r: Manager)
    requires o < |m.watches|
    ensures |r.watches| == |m.watches|
  {
    StopLoop(Put(m, o, m.watches[o].(status := Parked)), o)
  }

  /** What stopping every current loop does to one object. */
  datatype Reach = ParkEach | StopEach | Unwanted(wanted: set<LoopId>)

  function StopOne(m: Manager, o: Obj, reach: Reach): (r: Manager)
    requires o < |m.watches|
    ensures |r.watches| == |m.watches|
  {
    var l := m.watches[o].item.loopId;
    if !IsCurrent(m, o) then m
    else
      match reach
      case ParkEach => ParkLoop(m, o)
      case StopEach => StopLoop(m, o)
      case Unwanted(wanted) => if l in wanted then m else StopLoop(m.(states := m.states - {l}), o)
  }

  /** The synchronous prefix of parkAll, of drain, and of the removals of one apply. */
  function StopAll(m: Manager, n: nat, reach: Reach): (r: Manager)
    requires n <= |m.watches|
    ensures |r.watches| == |m.watches|
  {
    if n == 0 then m else StopOne(StopAll(m, n - 1, reach), n - 1, reach)
  }

  function HandleOutcome(m: Manager, o: Obj, outcome: Outcome): (r: Manager)
    requires o < |m.watches|
    ensures |r.watches| == |m.watches|
  {
    var w := m.watches[o];
    match outcome
    case StoppedMachine => StopAll(m.(machineStopped := true), |m.watches|, ParkEach)
    case StoppedLoop => ParkLoop(m, o)
    case ConfigMoved => CloseWatcher(Put(m, o, w.(status := ConfigChanged)), o)
    case RootFailed => CloseWatcher(Put(m, o, w.(status := Refused, reportedRefusal := true)), o)
    case Quiet => m
  }

  /** A recorded request keeps the stronger of the two modes. */
  function Noted(w: Watch, mode: Mode): Watch {
    w.(pending := Some(if w.pending == Some(FullRound) || mode == FullRound then FullRound else EventRound),
       owedFull := w.owedFull || mode == FullRound)
  }

  function Started(w: Watch, mode: Mode): Watch {
    w.(driver := InRound(w.generation, mode), owedFull := w.owedFull && mode == EventRound)
  }

  function RunSync(m: Manager, o: Obj, mode: Mode): (r: Manager)
    requires o < |m.watches|
    ensures |r.watches| == |m.watches|
  {
    var w := m.watches[o];
    if w.driver != Idle then Put(m, o, Noted(w, mode))
    else if !CanRun(m, o) then m
    else Put(m, o, Started(w, mode))
  }

  /** The driver's loop: the round that was requested meanwhile, or release. */
  function NextRound(m: Manager, o: Obj): Manager
    requires o < |m.watches|
  {
    var w := m.watches[o];
    if w.pending.None? || !CanRun(m, o) then Put(m, o, w.(pending := None, driver := Idle))
    else Put(m, o, Started(w.(pending := None), w.pending.value))
  }

  function RoundIsOver(m: Manager, o: Obj, outcome: Outcome): Manager
    requires o < |m.watches|
  {
    var w := m.watches[o];
    if !w.driver.InRound? then m
    else if w.driver.generation != w.generation || !IsCurrent(m, o) then Put(m, o, w.(driver := Idle))
    else HandleOutcome(Put(m, o, w.(driver := Settling)), o, outcome)
  }

  /** The sync client threw: the driver is released, and what is pending stays. */
  function RoundThrown(m: Manager, o: Obj): Manager
    requires o < |m.watches|
  {
    var w := m.watches[o];
    if w.driver.InRound? then Put(m, o, w.(driver := Idle)) else m
  }

  // ---- Tasks ----

  function Spawn(m: Manager, task: Task): Manager {
    m.(tasks := m.tasks[m.nextTask := task], nextTask := m.nextTask + 1)
  }

  function Become(m: Manager, t: nat, task: Task): Manager { m.(tasks := m.tasks[t := task]) }

  function End(m: Manager, t: nat): Manager { m.(tasks := m.tasks - {t}) }

  predicate Abandoned(m: Manager, o: Obj, generation: nat)
    requires o < |m.watches|
  {
    var w := m.watches[o];
    m.draining || m.machineStopped || w.aborted || w.generation != generation || w.status != Admitting
      || !IsCurrent(m, o)
  }

  function Launch(m: Manager, o: Obj): Manager
    requires o < |m.watches|
  {
    var w := m.watches[o];
    var n := Put(m, o, w.(status := Admitting));
    if Abandoned(n, o, w.generation) then n else Spawn(n, Admission(o, w.generation))
  }

  /** An event of the object's watcher. */
  function MarkDirty(m: Manager, o: Obj): Manager
    requires o < |m.watches|
  {
    var w := m.watches[o];
    if m.draining then m
    else if w.status == Admitting then Put(m, o, Noted(w, EventRound))
    else if w.status != Watching || w.window.Some? then m
    else Put(Spawn(m, Window(o, w.generation)), o, w.(window := Some(m.nextTask)))
  }

  function WindowOver(m: Manager, t: nat, o: Obj, generation: nat): Manager
    requires o < |m.watches|
  {
    var w, n := m.watches[o], End(m, t);
    if m.draining || w.generation != generation then
      Put(n, o, w.(window := if w.window == Some(t) then None else w.window))
    else RunSync(Put(n, o, w.(window := None)), o, EventRound)
  }

  function WatcherError(m: Manager, o: Obj): Manager
    requires o < |m.watches|
  {
    var w := m.watches[o];
    if m.draining || (w.status != Watching && w.status != Admitting) || w.errorWindow.Some? then m
    else Put(Spawn(m, ErrorWindow(o, w.generation)), o, w.(errorWindow := Some(m.nextTask)))
  }

  function ErrorDone(m: Manager, t: nat, o: Obj): (r: Manager)
    requires o < |m.watches|
    ensures |r.watches| == |m.watches|
  {
    var w := m.watches[o];
    Put(End(m, t), o, w.(errorWindow := if w.errorWindow == Some(t) then None else w.errorWindow))
  }

  function ErrorWindowOver(m: Manager, t: nat, o: Obj, generation: nat): Manager
    requires o < |m.watches|
  {
    if m.draining || m.watches[o].generation != generation || !IsCurrent(m, o) then ErrorDone(m, t, o)
    else Become(m, t, ErrorReport(o, generation))
  }

  /** A failure report never answers with a root failure it was not given. */
  function ErrorReported(m: Manager, t: nat, o: Obj, generation: nat, outcome: Outcome): Manager
    requires o < |m.watches|
  {
    if m.watches[o].generation != generation || !IsCurrent(m, o) || outcome == RootFailed then ErrorDone(m, t, o)
    else HandleOutcome(ErrorDone(m, t, o), o, outcome)
  }

  function AdmissionDone(m: Manager, t: nat, o: Obj, generation: nat, refused: bool): Manager
    requires o < |m.watches|
  {
    var w := m.watches[o];
    if Abandoned(m, o, generation) then End(m, t)
    else if !refused then Become(m, t, AwaitClose(o, generation, |Chain(m, w.item.loopId)|))
    else
      var n := Put(m, o, w.(status := Refused, reportedRefusal := true));
      if w.reportedRefusal then End(n, t) else Become(n, t, RefusalReport(o, generation))
  }

  function RefusalReported(m: Manager, t: nat, o: Obj, generation: nat, outcome: Outcome): Manager
    requires o < |m.watches|
  {
    if m.draining || m.watches[o].generation != generation || !IsCurrent(m, o) then End(m, t)
    else HandleOutcome(End(m, t), o, outcome)
  }

  /** The close this admission awaits has resolved: subscribe. */
  function PredecessorClosed(m: Manager, t: nat, o: Obj, generation: nat, upTo: nat): Manager
    requires o < |m.watches|
  {
    var w := m.watches[o];
    var chain := Chain(m, w.item.loopId);
    if 0 < upTo <= |chain| && !chain[upTo - 1].done then m
    else if Abandoned(m, o, generation) then End(m, t)
    else
      Become(Put(m.(live := m.live[m.nextWatcher := w.item.loopId], nextWatcher := m.nextWatcher + 1), o,
                 w.(watcher := Some(m.nextWatcher))),
             t, AwaitReady(o, generation))
  }

  function WatcherReady(m: Manager, t: nat, o: Obj, generation: nat, ok: bool): Manager
    requires o < |m.watches|
  {
    if !ok then End(m, t)
    else if Abandoned(m, o, generation) then CloseWatcher(End(m, t), o)
    else RunSync(Put(End(m, t), o, m.watches[o].(status := Watching)), o, FullRound)
  }

  /** The objects a tick walks through. */
  function CurrentUpTo(m: Manager, n: nat): (r: seq<Obj>)
    requires n <= |m.watches|
    ensures forall o :: o in r ==> o < n
  {
    if n == 0 then [] else CurrentUpTo(m, n - 1) + (if IsCurrent(m, n - 1) then [n - 1] else [])
  }

  function TickNext(m: Manager, t: nat, rest: seq<Obj>): Manager {
    if rest == [] || m.draining || rest[0] >= |m.watches| then End(m, t)
    else
      var o, w := rest[0], m.watches[rest[0]];
      if w.status == Watching then Become(RunSync(m, o, FullRound), t, Tick(rest[1..]))
      else if w.status != Refused || m.machineStopped then Become(m, t, Tick(rest[1..]))
      else Become(m, t, TickAdmission(o, w.generation, rest[1..]))
  }

  /** The root is usable again: the same object starts a new generation. */
  function TickAdmitted(m: Manager, t: nat, o: Obj, generation: nat, rest: seq<Obj>, refused: bool): Manager
    requires o < |m.watches|
  {
    var w, n := m.watches[o], Become(m, t, Tick(rest));
    if refused || m.draining || w.aborted || w.generation != generation || !IsCurrent(m, o) then n
    else Launch(Put(n, o, w.(reportedRefusal := false, generation := w.generation + 1)), o)
  }

  // ---- The applied set ----

  function LastItem(items: seq<Item>, l: LoopId): Option<Item> {
    if items == [] then None
    else if items[|items| - 1].loopId == l then Some(items[|items| - 1])
    else LastItem(items[..|items| - 1], l)
  }

  predicate SameWatchSet(a: seq<Item>, b: seq<Item>) {
    |a| == |b| && forall i :: 0 <= i < |b| ==> LastItem(a, b[i].loopId) == Some(b[i])
  }

  function Install(m: Manager, item: Item, generation: nat): (r: Manager)
    ensures |r.watches| == |m.watches| + 1
  {
    var w := Watch(item, generation, Admitting, false, None, false, None, None, None, Idle, false);
    Launch(m.(watches := m.watches + [w], states := m.states[item.loopId := |m.watches|]), |m.watches|)
  }

  function ReconcileItem(m: Manager, item: Item): Manager {
    if item.loopId !in m.states || m.states[item.loopId] >= |m.watches| then Install(m, item, 1)
    else
      var o := m.states[item.loopId];
      var w := m.watches[o];
      if w.item != item then Install(StopLoop(m, o), item, w.generation + 1)
      else if w.status == Parked then Install(m, item, w.generation + 1)
      else m
  }

  function ReconcileItems(m: Manager, items: seq<Item>): Manager {
    if items == [] then m else ReconcileItem(ReconcileItems(m, items[..|items| - 1]), items[|items| - 1])
  }

  /** Synchronous: the whole set is reconciled before anything else runs. */
  function Apply(m: Manager, items: seq<Item>): Manager {
    if m.draining || SameWatchSet(m.applied, items) then m
    else
      var n := StopAll(m.(applied := items, machineStopped := false), |m.watches|,
                       Unwanted(set i | i in items :: i.loopId));
      ReconcileItems(n, items)
  }

  /** A close resolves once the one before it has. */
  function CloseDone(m: Manager, l: LoopId, i: nat): Manager {
    var chain := Chain(m, l);
    if i >= |chain| || chain[i].done || (i > 0 && !chain[i - 1].done) then m
    else
      m.(closes := m.closes[l := chain[i := chain[i].(done := true)]],
         live := if chain[i].watcher.Some? then m.live - {chain[i].watcher.value} else m.live)
  }

  datatype Step =
    | SetApplied(items: seq<Item>)
    | EventSeen(obj: Obj)
    | ErrorSeen(obj: Obj)
    | RoundReturns(obj: Obj, outcome: Outcome)
    | RoundThrows(obj: Obj)
    | DriverResumes(obj: Obj)
    | TaskResumes(task: nat, outcome: Outcome, ok: bool)
    | TickStarts
    | CloseResolves(loop: LoopId, index: nat)
    | Drain

  /** A waiting job goes on; `ok` answers whether its wait succeeded. */
  function Resume(m: Manager, t: nat, outcome: Outcome, ok: bool): Manager
    requires t in m.tasks
  {
    var task := m.tasks[t];
    if task.Tick? then TickNext(m, t, task.rest)
    else if task.obj >= |m.watches| then m
    else
      match task
      case Window(o, g) => WindowOver(m, t, o, g)
      case ErrorWindow(o, g) => ErrorWindowOver(m, t, o, g)
      case ErrorReport(o, g) => ErrorReported(m, t, o, g, outcome)
      case Admission(o, g) => AdmissionDone(m, t, o, g, !ok)
      case RefusalReport(o, g) => RefusalReported(m, t, o, g, outcome)
      case AwaitClose(o, g, upTo) => PredecessorClosed(m, t, o, g, upTo)
      case AwaitReady(o, g) => WatcherReady(m, t, o, g, ok)
      case TickAdmission(o, g, rest) => TickAdmitted(m, t, o, g, rest, !ok)
  }

  function Next(m: Manager, step: Step): Manager {
    match step
    case SetApplied(items) => Apply(m, items)
    case EventSeen(o) => if o < |m.watches| then MarkDirty(m, o) else m
    case ErrorSeen(o) => if o < |m.watches| then WatcherError(m, o) else m
    case RoundReturns(o, outcome) => if o < |m.watches| then RoundIsOver(m, o, outcome) else m
    case RoundThrows(o) => if o < |m.watches| then RoundThrown(m, o) else m
    case DriverResumes(o) => if o < |m.watches| && m.watches[o].driver == Settling then NextRound(m, o) else m
    case TaskResumes(t, outcome, ok) => if t in m.tasks then Resume(m, t, outcome, ok) else m
    case TickStarts => if m.draining then m else Spawn(m, Tick(CurrentUpTo(m, |m.watches|)))
    case CloseResolves(l, i) => CloseDone(m, l, i)
    case Drain => StopAll(m.(draining := true), |m.watches|, StopEach)
  }

  function Run(steps: seq<Step>): Manager {
    if steps == [] then START else Next(Run(steps[..|steps| - 1]), steps[|steps| - 1])
  }
}
