/**
 Several calls of one loop at once. Each call has its own continuation; they share
 the loop's state and hang in the chain of `CallQueue`. Nothing here stops two calls
 from running together but the chain, and yet every interleaving of the calls is a
 run of the one daemon of `DaemonSync`.
 */
module DaemonChain {
  import opened Wrappers
  import opened ArtifactServer
  import opened ArtifactSafety
  import opened DaemonSync
  import opened DaemonSafety
  import opened DaemonRuns
  import CallQueue

  datatype Args = Args(config: nat, dir: string, freshSession: bool, reportOnly: bool)

  /** What one call keeps for itself between two awaits. */
  datatype Frame = Frame(args: Args, round: Round, phase: Phase)

  /** `shared` is what the calls have in common; its own round and phase are unused. */
  datatype Client = Client(chain: CallQueue.Chain, calls: seq<Frame>, shared: Daemon)

  datatype Turn =
    | Enter(args: Args)
    | BeginRound(k: nat)
    | CancelWait(k: nat)
    | Resume(k: nat, input: Input)
    | Direct(input: Input)
    | DropTail
    | Crash

  /** The daemon as call k sees it. */
  function As(c: Client, k: nat): Daemon
    requires k < |c.calls|
  {
    c.shared.(round := c.calls[k].round, phase := c.calls[k].phase)
  }

  function Back(c: Client, k: nat, e: Daemon): Client
    requires k < |c.calls|
  {
    c.(calls := c.calls[k := c.calls[k].(round := e.round, phase := e.phase)],
       shared := e.(round := NO_ROUND, phase := Idle))
  }

  predicate Running(c: Client, k: nat) { k < |c.calls| && k < |c.chain.calls| && c.chain.calls[k].status.Running? }

  predicate CanBegin(c: Client, k: nat) { k < |c.calls| && CallQueue.CanStart(c.chain, k) }

  predicate Waits(c: Client, k: nat) { k < |c.calls| && k < |c.chain.calls| && c.chain.calls[k].status.Queued? }

  predicate IsDirect(i: Input) { i.DirectSend? || i.DirectAnswered? || i.DirectRefused? || i.ClearStops? }

  /** A call that finds a stop is turned away before it queues; one that is stopped while
      it waits is not. A call's slot is released when its round is over. */
  function Take(self: Self, c: Client, t: Turn): Client {
    match t
    case Enter(args) =>
      if c.shared.stopped then c.(shared := React(self, c.shared, TurnedAway(false)))
      else c.(chain := CallQueue.Next(c.chain, CallQueue.Enqueue), calls := c.calls + [Frame(args, NO_ROUND, Idle)])
    case BeginRound(k) =>
      if !CanBegin(c, k) then c
      else
        var a := c.calls[k].args;
        Back(c.(chain := CallQueue.Next(c.chain, CallQueue.Start(k))), k,
             React(self, As(c, k), StartCall(a.config, a.dir, a.freshSession, a.reportOnly)))
    case CancelWait(k) =>
      if !Waits(c, k) then c
      else c.(chain := CallQueue.Next(c.chain, CallQueue.Cancel(k)), shared := React(self, c.shared, TurnedAway(true)))
    case Resume(k, i) =>
      if !Running(c, k) || Aside(i) then c
      else
        var e := React(self, As(c, k), i);
        Back(if e.phase.Idle? then c.(chain := CallQueue.Next(c.chain, CallQueue.Finish(k))) else c, k, e)
    case Direct(i) => if IsDirect(i) then c.(shared := React(self, c.shared, i)) else c
    case DropTail => c.(chain := CallQueue.Next(c.chain, CallQueue.DropTail))
    case Crash => Client(CallQueue.EMPTY, [], React(self, c.shared, Restart))
  }

  ghost predicate ClientOk(c: Client) {
    && CallQueue.ChainOk(c.chain) && |c.calls| == |c.chain.calls|
    && (forall k :: 0 <= k < |c.calls| ==> (c.calls[k].phase.Idle? <==> !Running(c, k)))
    && (forall k :: 0 <= k < |c.calls| && Waits(c, k) ==> c.calls[k].round == NO_ROUND)
    && c.shared.phase.Idle? && c.shared.round == NO_ROUND
  }

  // ---- The one daemon behind the calls ----

  /** The daemon of the call that started last. */
  function View(c: Client): Daemon
  {
    var n := |c.chain.order|;
    if n == 0 || c.chain.order[n - 1] >= |c.calls| then c.shared else As(c, c.chain.order[n - 1])
  }

  /** What that daemon is given when the client takes a turn. */
  function Given(c: Client, t: Turn): Option<Input> {
    match t
    case Enter(_) => if c.shared.stopped then Some(TurnedAway(false)) else None
    case BeginRound(k) =>
      if CanBegin(c, k) then
        var a := c.calls[k].args; Some(StartCall(a.config, a.dir, a.freshSession, a.reportOnly))
      else None
    case CancelWait(k) => if Waits(c, k) then Some(TurnedAway(true)) else None
    case Resume(k, i) => if Running(c, k) && !Aside(i) then Some(i) else None
    case Direct(i) => if IsDirect(i) then Some(i) else None
    case DropTail => None
    case Crash => Some(Restart)
  }

  function Maybe(self: Self, d: Daemon, i: Option<Input>): Daemon { if i.Some? then React(self, d, i.value) else d }

  ghost predicate Refines(self: Self, c: Client, t: Turn) {
    ClientOk(Take(self, c, t)) && View(Take(self, c, t)) == Maybe(self, View(c), Given(c, t))
  }

  /** A running call is the one in view. */
  lemma RunningIsView(c: Client, k: nat)
    requires ClientOk(c) && Running(c, k)
    ensures View(c) == As(c, k)
  {
    CallQueue.RunningIsLast(c.chain, k);
  }

  lemma BeginRefines(self: Self, c: Client, k: nat)
    requires ClientOk(c) && CanBegin(c, k)
    ensures Refines(self, c, BeginRound(k))
  {
    hide CallQueue.LinksOk, CallQueue.TailOk, CallQueue.Busy, CallQueue.Ready;
    CallQueue.RunningIsLast(c.chain, k);
    CallQueue.NextKeeps(c.chain, CallQueue.Start(k));
    var n := |c.chain.order|;
    if n > 0 {
      var h := c.chain.order[n - 1];
      assert CallQueue.AllOver(c.chain, k) && c.chain.calls[h].status.Over? && !Running(c, h);
    }
  }

  lemma ResumeRefines(self: Self, c: Client, k: nat, i: Input)
    requires ClientOk(c) && Running(c, k) && !Aside(i)
    ensures Refines(self, c, Resume(k, i))
  {
    hide React, Aside, CallQueue.LinksOk, CallQueue.TailOk, CallQueue.Busy, CallQueue.TurnsOk;
    RunningIsView(c, k);
    CallQueue.RunningIsLast(c.chain, k);
    CallQueue.NextKeeps(c.chain, CallQueue.Finish(k));
    var d := Take(self, c, Resume(k, i));
    assert d.chain.order == c.chain.order;
  }

  lemma EnterRefines(self: Self, c: Client, args: Args)
    requires ClientOk(c)
    ensures Refines(self, c, Enter(args))
  {
    hide CallQueue.LinksOk, CallQueue.TailOk, CallQueue.Busy;
    CallQueue.NextKeeps(c.chain, CallQueue.Enqueue);
  }

  lemma WaitRefines(self: Self, c: Client, t: Turn)
    requires ClientOk(c) && (t.CancelWait? || t.DropTail?)
    ensures Refines(self, c, t)
  {
    hide CallQueue.LinksOk, CallQueue.TailOk, CallQueue.Busy, CallQueue.TurnsOk, CallQueue.Settled;
    if t.CancelWait? { CallQueue.NextKeeps(c.chain, CallQueue.Cancel(t.k)); }
    else { CallQueue.NextKeeps(c.chain, CallQueue.DropTail); }
  }

  lemma DirectRefines(self: Self, c: Client, i: Input)
    requires ClientOk(c) && IsDirect(i)
    ensures Refines(self, c, Direct(i))
  {
    hide CallQueue.ChainOk;
  }

  lemma CrashRefines(self: Self, c: Client)
    requires ClientOk(c)
    ensures Refines(self, c, Crash)
  {
  }

  /** Each turn of the client is at most one input to the one daemon. */
  lemma TurnRefines(self: Self, c: Client, t: Turn)
    requires ClientOk(c)
    ensures Refines(self, c, t)
  {
    match t
    case Enter(args) => EnterRefines(self, c, args);
    case BeginRound(k) => if CanBegin(c, k) { BeginRefines(self, c, k); }
    case CancelWait(_) => WaitRefines(self, c, t);
    case Resume(k, i) => if Running(c, k) && !Aside(i) { ResumeRefines(self, c, k, i); }
    case Direct(i) => if IsDirect(i) { DirectRefines(self, c, i); }
    case DropTail => WaitRefines(self, c, t);
    case Crash => CrashRefines(self, c);
  }

  // ---- With the network and the server ----

  datatype Crowd = Crowd(server: Server, tags: map<nat, nat>, client: Client)

  datatype Happening =
    | Served(action: Action)
    | Delivered(msg: nat, opId: nat)
    | Taken(turn: Turn)
    | Replied(k: nat, opId: nat)
    | PutReplied(k: nat, g: nat, opId: nat)
    | DirectReplied(opId: nat)

  function Flat(x: Crowd): World { World(x.server, x.tags, View(x.client)) }

  predicate FromServer(i: Input) { i.Answered? || i.PutAnswered? || i.DirectAnswered? }

  ghost function After1(self: Self, x: Crowd, h: Happening): Crowd {
    var c := x.client;
    match h
    case Served(action) => x.(server := Act(x.server, action))
    case Delivered(msg, opId) =>
      if msg >= |c.shared.wire| || opId in x.server.ops || !Admissible(c.shared.wire[msg]) then x
      else x.(server := Act(x.server, Start(opId, c.shared.wire[msg])), tags := x.tags[opId := msg])
    case Taken(t) =>
      if (t.Resume? || t.Direct?) && FromServer(t.input) then x else x.(client := Take(self, c, t))
    case Replied(k, opId) =>
      if Running(c, k) && Awaited(As(c, k)).Some? && IsAnswer(Flat(x), opId, Awaited(As(c, k)).value)
      then x.(client := Take(self, c, Resume(k, Answered(x.server.ops[opId].pc.result)))) else x
    case PutReplied(k, g, opId) =>
      if Running(c, k) && AwaitedPut(As(c, k), g).Some? && IsAnswer(Flat(x), opId, AwaitedPut(As(c, k), g).value)
      then x.(client := Take(self, c, Resume(k, PutAnswered(g, x.server.ops[opId].pc.result)))) else x
    case DirectReplied(opId) =>
      if exists msg ::
        0 <= msg < |c.shared.wire| && c.shared.wire[msg] == ReadCall(self) && IsAnswer(Flat(x), opId, msg)
      then x.(client := Take(self, c, Direct(DirectAnswered(x.server.ops[opId].pc.result)))) else x
  }

  ghost function AfterAll(self: Self, x: Crowd, run: seq<Happening>): Crowd {
    if run == [] then x else After1(self, AfterAll(self, x, run[..|run| - 1]), run[|run| - 1])
  }

  const NOBODY := Crowd(EMPTY, map[], Client(CallQueue.EMPTY, [], BOOTED))

  /** The event of the one daemon's world behind a happening; `None` changes nothing. */
  ghost function Behind(c: Client, h: Happening): Option<Event> {
    match h
    case Served(action) => Some(Serve(action))
    case Delivered(msg, opId) => Some(Deliver(msg, opId))
    case Taken(t) =>
      if (t.Resume? || t.Direct?) && FromServer(t.input) then None
      else if Given(c, t).Some? then Some(Event.Local(Given(c, t).value)) else None
    case Replied(k, opId) => if Running(c, k) then Some(Reply(opId)) else None
    case PutReplied(k, g, opId) => if Running(c, k) then Some(PutReply(g, opId)) else None
    case DirectReplied(opId) => Some(DirectReply(opId))
  }

  lemma ViewShares(c: Client)
    ensures View(c).wire == c.shared.wire && View(c).log == c.shared.log && View(c).pending == c.shared.pending
  {
  }

  lemma HappeningRefines(self: Self, x: Crowd, h: Happening)
    requires ClientOk(x.client)
    ensures ClientOk(After1(self, x, h).client)
    ensures Flat(After1(self, x, h)) == if Behind(x.client, h).Some? then Next(self, Flat(x), Behind(x.client, h).value)
      else Flat(x)
  {
    hide ClientOk, React, Take, View, Act, Admissible;
    ViewShares(x.client);
    var c := x.client;
    match h
    case Served(_) =>
    case Delivered(_, _) =>
    case Taken(t) => TurnRefines(self, c, t);
    case Replied(k, opId) =>
      if Running(c, k) {
        RunningIsView(c, k);
        if opId in x.server.ops && x.server.ops[opId].pc.Done? {
          TurnRefines(self, c, Resume(k, Answered(x.server.ops[opId].pc.result)));
        }
      }
    case PutReplied(k, g, opId) =>
      if Running(c, k) {
        RunningIsView(c, k);
        if opId in x.server.ops && x.server.ops[opId].pc.Done? {
          TurnRefines(self, c, Resume(k, PutAnswered(g, x.server.ops[opId].pc.result)));
        }
      }
    case DirectReplied(opId) =>
      if opId in x.server.ops && x.server.ops[opId].pc.Done? {
        TurnRefines(self, c, Direct(DirectAnswered(x.server.ops[opId].pc.result)));
      }
  }

  /** The run of the one daemon behind a run of the client. */
  ghost function Straight(self: Self, run: seq<Happening>): seq<Event> {
    if run == [] then []
    else
      var before := run[..|run| - 1];
      var e := Behind(AfterAll(self, NOBODY, before).client, run[|run| - 1]);
      Straight(self, before) + if e.Some? then [e.value] else []
  }

  /** Every interleaving of any number of calls, waits, cancellations and direct reads is
      a run of one daemon that makes one call at a time. */
  lemma {:induction false} CallsAreOneDaemon(self: Self, run: seq<Happening>)
    ensures ClientOk(AfterAll(self, NOBODY, run).client)
    ensures Flat(AfterAll(self, NOBODY, run)) == After(self, WORLD, Straight(self, run))
  {
    if run != [] {
      var before, last := run[..|run| - 1], run[|run| - 1];
      CallsAreOneDaemon(self, before);
      var x := AfterAll(self, NOBODY, before);
      hide ClientOk, After1, Next, Flat, Behind;
      HappeningRefines(self, x, last);
      var e := Behind(x.client, last);
      if e.Some? {
        var all := Straight(self, run);
        assert all[..|all| - 1] == Straight(self, before) && all[|all| - 1] == e.value;
      } else {
        assert Straight(self, before) + [] == Straight(self, before);
      }
    }
  }

  // ---- What that means for the calls ----

  /** At most one call is past its wait, the calls begin in the order in which they were
      made, and a waiting call may begin exactly when all made before it are over. */
  lemma OneRoundAtATime(self: Self, run: seq<Happening>, k: nat)
    ensures
      var c := AfterAll(self, NOBODY, run).client;
      && (forall i, j ::
            0 <= i < |c.calls| && 0 <= j < |c.calls| && !c.calls[i].phase.Idle? && !c.calls[j].phase.Idle? ==> i == j)
      && (forall a, b :: 0 <= a < b < |c.chain.order| ==> c.chain.order[a] < c.chain.order[b])
      && (Waits(c, k) ==> (CanBegin(c, k) <==> CallQueue.AllOver(c.chain, k)))
  {
    CallsAreOneDaemon(self, run);
    var c := AfterAll(self, NOBODY, run).client;
    hide AfterAll, CallQueue.LinksOk;
    if Waits(c, k) {
      assert CallQueue.LinksOk(c.chain);
      FirstMayBegin(c.chain, k);
    }
  }

  lemma FirstMayBegin(c: CallQueue.Chain, k: nat)
    requires CallQueue.LinksOk(c) && k < |c.calls|
    ensures CallQueue.Ready(c, k) <==> CallQueue.AllOver(c, k)
  {
    if c.calls[k].prev.Some? { CallQueue.SettledIffAllOver(c, k - 1); }
  }

  /** The epoch guard, whose restart spends no budget, never fires: whichever call awaits
      its prepare, the pending session is still the one it proposed. */
  lemma EpochGuardNeverFires(self: Self, run: seq<Happening>, k: nat)
    ensures
      var c := AfterAll(self, NOBODY, run).client;
      k < |c.calls| && c.calls[k].phase.Preparing? ==>
        c.shared.pending.Some? && c.shared.pending.value.epoch == c.calls[k].phase.proposal.epoch
  {
    hide AfterAll, After, Inv, WireOk, BudgetOk, LogOk, Negotiated, TagsOk;
    CallsAreOneDaemon(self, run);
    BootOk(self);
    WorldKeeps(self, WORLD, Straight(self, run));
    var c := AfterAll(self, NOBODY, run).client;
    if k < |c.calls| && c.calls[k].phase.Preparing? {
      RunningIsView(c, k);
      assert PhaseOk(self, As(c, k));
    }
  }

  /** Whatever a call returns as `synced` names a manifest of the loop with exactly these
      entries, now and later. */
  lemma EachCallsManifest(self: Self, run: seq<Happening>, i: nat)
    ensures
      var x := AfterAll(self, NOBODY, run);
      i < |x.client.shared.log| && x.client.shared.log[i].Synced? ==>
        SyncedOk(self, x.server.store, x.client.shared.log[i])
  {
    hide AfterAll, After, Inv, DaemonOk, Negotiated, TagsOk, ClientOk;
    CallsAreOneDaemon(self, run);
    BootOk(self);
    WorldKeeps(self, WORLD, Straight(self, run));
    ViewShares(AfterAll(self, NOBODY, run).client);
  }

  /** Without the chain the guard does fire: two calls that ran together, each proposing a
      fresh session, leave the first one with a session that is no longer pending. */
  lemma GuardNeedsTheChain(self: Self, args: Args)
    ensures
      var round := Round(args.config, args.dir, true, false, true, 0, 0, 1, 1, None);
      var both := Client(CallQueue.Chain([CallQueue.Call(None, CallQueue.Running),
                                          CallQueue.Call(None, CallQueue.Running)], None, 2, [0, 1]),
                         [Frame(args, round, Scanning(0)), Frame(args, round, Scanning(0))], BOOTED);
      var c := Take(self, Take(self, both, Resume(0, Scanned([], 1, false))), Resume(1, Scanned([], 2, false)));
      && c.calls[0].phase.Preparing? && c.shared.pending.Some?
      && c.shared.pending.value.epoch != c.calls[0].phase.proposal.epoch
  {
  }
}
