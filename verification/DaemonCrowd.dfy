/**
 What the calls of `DaemonChain` inherit from the one daemon behind them: sound
 suppression, and a bound on what each of them sends.
 */
module DaemonCrowd {
  import opened Wrappers
  import opened ArtifactServer
  import opened ArtifactSafety
  import opened DaemonSync
  import opened DaemonSafety
  import opened DaemonRuns
  import opened DaemonSuppression
  import opened DaemonEnds
  import opened DaemonChain
  import CallQueue

  /** Whichever call returns `unchanged`, it is true of the server at that moment, while
      every committed session of the loop is one this daemon proposed. */
  lemma EachUnchangedIsTrue(self: Self, run: seq<Happening>, h: Happening)
    requires OnlyOurs(self, Flat(AfterAll(self, NOBODY, run)))
    ensures
      var x := AfterAll(self, NOBODY, run);
      var before, after := x.client.shared.log, After1(self, x, h).client.shared.log;
      |before| < |after| && after[|before|].Unchanged? ==> Current(self, x.server.store, after[|before|].entries)
  {
    hide *;
    CallsAreOneDaemon(self, run);
    var x := AfterAll(self, NOBODY, run);
    HappeningRefines(self, x, h);
    FlatShares(x);
    FlatShares(After1(self, x, h));
    var e := Behind(x.client, h);
    if e.Some? { UnchangedIsTrue(self, Straight(self, run), e.value); }
  }

  lemma FlatShares(x: Crowd)
    ensures Flat(x).daemon.log == x.client.shared.log && Flat(x).server == x.server
  {
    ViewShares(x.client);
  }

  // ---- How much the calls send ----

  /** The messages of all calls together. */
  function Total(calls: seq<Frame>): nat {
    if calls == [] then 0 else Total(calls[..|calls| - 1]) + calls[|calls| - 1].round.sent
  }

  lemma {:induction false} TotalAfter(calls: seq<Frame>, k: nat, f: Frame)
    requires k < |calls|
    ensures Total(calls[k := f]) == Total(calls) - calls[k].round.sent + f.round.sent
  {
    var n := |calls| - 1;
    if k == n {
      assert calls[k := f][..n] == calls[..n];
    } else {
      assert calls[k := f][..n] == calls[..n][k := f];
      TotalAfter(calls[..n], k, f);
    }
  }

  ghost predicate Within(self: Self, r: Round) { r.rounds <= MostRounds(self) && r.sent <= MostSends(self) }

  ghost predicate AllWithin(self: Self, c: Client) { forall k :: 0 <= k < |c.calls| ==> Within(self, c.calls[k].round) }

  function IsSend(t: Turn): nat { if t.Direct? && t.input.DirectSend? then 1 else 0 }

  /** A turn changes the round of at most the call in view, and adds to the wire no more
      than that call, or a direct read, sends. */
  ghost predicate TurnMoves(c: Client, t: Turn, d: Client) {
    && |d.shared.wire| + Total(c.calls) <= |c.shared.wire| + Total(d.calls) + IsSend(t)
    && |c.calls| <= |d.calls|
    && (forall k :: 0 <= k < |c.calls| ==> d.calls[k].round == c.calls[k].round || d.calls[k].round == View(d).round)
    && (forall k :: |c.calls| <= k < |d.calls| ==> d.calls[k].round == NO_ROUND)
  }

  lemma BackMoves(c: Client, k: nat, e: Daemon, t: Turn, d: Client)
    requires k < |c.calls| && Counted(As(c, k), e, 0) && View(d).round == e.round
    requires d.calls == Back(c, k, e).calls && d.shared.wire == e.wire
    ensures TurnMoves(c, t, d)
  {
    TotalAfter(c.calls, k, c.calls[k].(round := e.round, phase := e.phase));
  }

  lemma ResumeMoves(self: Self, c: Client, k: nat, i: Input)
    requires ClientOk(c) && Running(c, k) && !Aside(i)
    ensures TurnMoves(c, Resume(k, i), Take(self, c, Resume(k, i)))
  {
    SendCounts(self, As(c, k), i);
    TurnRefines(self, c, Resume(k, i));
    RunningIsView(c, k);
    var e, d := React(self, As(c, k), i), Take(self, c, Resume(k, i));
    assert View(d) == e;
    hide React, View, ClientOk, TurnMoves;
    BackMoves(c, k, e, Resume(k, i), d);
  }

  lemma BeginMoves(self: Self, c: Client, k: nat)
    requires ClientOk(c) && CanBegin(c, k)
    ensures TurnMoves(c, BeginRound(k), Take(self, c, BeginRound(k)))
  {
    hide CallQueue.ChainOk, CallQueue.Ready;
    var a := c.calls[k].args;
    var e, d := React(self, As(c, k), StartCall(a.config, a.dir, a.freshSession, a.reportOnly)),
      Take(self, c, BeginRound(k));
    assert Waits(c, k) && !Running(c, k) && e.round.sent == 0 == c.calls[k].round.sent && e.wire == c.shared.wire;
    assert d.chain.order == c.chain.order + [k];
    hide React;
    BackMoves(c, k, e, BeginRound(k), d);
  }

  lemma TurnCounts(self: Self, c: Client, t: Turn)
    requires ClientOk(c) && !t.Crash?
    ensures TurnMoves(c, t, Take(self, c, t))
  {
    match t
    case BeginRound(k) => if CanBegin(c, k) { BeginMoves(self, c, k); }
    case Resume(k, i) => if Running(c, k) && !Aside(i) { ResumeMoves(self, c, k, i); }
    case Enter(args) => EnterMoves(self, c, args);
    case Direct(i) => hide CallQueue.ChainOk;
    case _ => hide CallQueue.ChainOk;
  }

  lemma EnterMoves(self: Self, c: Client, args: Args)
    requires ClientOk(c)
    ensures TurnMoves(c, Enter(args), Take(self, c, Enter(args)))
  {
    hide CallQueue.ChainOk;
    var d := Take(self, c, Enter(args));
    assert d.calls != c.calls ==> d.calls[..|d.calls| - 1] == c.calls;
  }

  /** The turn a happening takes, if any. */
  ghost function TurnOf(self: Self, x: Crowd, h: Happening): Option<Turn> {
    var c := x.client;
    match h
    case Served(_) => None
    case Delivered(_, _) => None
    case Taken(t) => if (t.Resume? || t.Direct?) && FromServer(t.input) then None else Some(t)
    case Replied(k, opId) =>
      if Running(c, k) && Awaited(As(c, k)).Some? && IsAnswer(Flat(x), opId, Awaited(As(c, k)).value)
      then Some(Resume(k, Answered(x.server.ops[opId].pc.result))) else None
    case PutReplied(k, g, opId) =>
      if Running(c, k) && AwaitedPut(As(c, k), g).Some? && IsAnswer(Flat(x), opId, AwaitedPut(As(c, k), g).value)
      then Some(Resume(k, PutAnswered(g, x.server.ops[opId].pc.result))) else None
    case DirectReplied(opId) =>
      if exists msg ::
        0 <= msg < |c.shared.wire| && c.shared.wire[msg] == ReadCall(self) && IsAnswer(Flat(x), opId, msg)
      then Some(Direct(DirectAnswered(x.server.ops[opId].pc.result))) else None
  }

  lemma HappeningIsTurn(self: Self, x: Crowd, h: Happening)
    ensures
      var t := TurnOf(self, x, h);
      After1(self, x, h).client == if t.Some? then Take(self, x.client, t.value) else x.client
  {
    hide Take, Act, Admissible;
  }

  /** The process does not die, and so forgets no call. */
  predicate OneLife(more: seq<Happening>) { forall i :: 0 <= i < |more| ==> more[i] != Taken(Crash) }

  function Directs(more: seq<Happening>): nat {
    if more == [] then 0
    else
      var h := more[|more| - 1];
      Directs(more[..|more| - 1]) + if h.Taken? then IsSend(h.turn) else 0
  }

  lemma NoRoundWithin(self: Self)
    ensures Within(self, NO_ROUND)
  {
  }

  /** A reachable point, and what happens from there on. */
  ghost predicate Bounded(self: Self, x: Crowd, y: Crowd, directs: nat) {
    && ClientOk(y.client) && WorldOk(self, Flat(y)) && AllWithin(self, y.client)
    && |y.client.shared.wire| + Total(x.client.calls) <= |x.client.shared.wire| + Total(y.client.calls) + directs
  }

  lemma StepKeepsWorld(self: Self, y: Crowd, h: Happening)
    requires ClientOk(y.client) && WorldOk(self, Flat(y))
    ensures ClientOk(After1(self, y, h).client) && WorldOk(self, Flat(After1(self, y, h)))
  {
    hide *;
    HappeningRefines(self, y, h);
    var e := Behind(y.client, h);
    if e.Some? { NextKeeps(self, Flat(y), e.value); }
  }

  lemma ViewWithin(self: Self, y: Crowd)
    requires WorldOk(self, Flat(y))
    ensures Within(self, View(y.client).round)
  {
    hide Inv, TagsOk, Negotiated, LogOk, DaemonOk, View;
    assert DaemonOk(self, View(y.client));
    hide MostSends, MostRounds, WorldOk;
    WithinMost(self, View(y.client));
  }

  lemma MovesStayWithin(self: Self, c: Client, t: Turn, d: Client)
    requires TurnMoves(c, t, d) && AllWithin(self, c) && Within(self, View(d).round)
    ensures AllWithin(self, d)
  {
    NoRoundWithin(self);
    hide Within, View, Total;
  }

  lemma StepStaysBounded(self: Self, x: Crowd, y: Crowd, directs: nat, h: Happening)
    requires Bounded(self, x, y, directs) && h != Taken(Crash)
    ensures Bounded(self, x, After1(self, y, h), directs + if h.Taken? then IsSend(h.turn) else 0)
  {
    hide ClientOk, WorldOk, After1, Take, View, AllWithin, Within, Flat;
    var z := After1(self, y, h);
    StepKeepsWorld(self, y, h);
    ViewWithin(self, z);
    HappeningIsTurn(self, y, h);
    var t := TurnOf(self, y, h);
    if t.Some? {
      assert t.value.Crash? ==> h == Taken(Crash);
      assert IsSend(t.value) == if h.Taken? then IsSend(h.turn) else 0;
      TurnCounts(self, y.client, t.value);
      MovesStayWithin(self, y.client, t.value, z.client);
    }
  }

  lemma {:induction false} LifeStaysBounded(self: Self, x: Crowd, more: seq<Happening>)
    requires ClientOk(x.client) && WorldOk(self, Flat(x)) && AllWithin(self, x.client) && OneLife(more)
    ensures Bounded(self, x, AfterAll(self, x, more), Directs(more))
  {
    hide After1, ClientOk, WorldOk, Flat;
    if more != [] {
      hide Bounded;
      LifeStaysBounded(self, x, more[..|more| - 1]);
      StepStaysBounded(self, x, AfterAll(self, x, more[..|more| - 1]), Directs(more[..|more| - 1]), more[|more| - 1]);
    }
  }

  lemma {:induction false} TotalAtMost(self: Self, c: Client, n: nat)
    requires AllWithin(self, c) && n <= |c.calls|
    ensures Total(c.calls[..n]) <= n * MostSends(self)
  {
    hide MostSends;
    if n > 0 {
      TotalAtMost(self, c, n - 1);
      assert c.calls[..n][..n - 1] == c.calls[..n - 1];
      assert (n - 1) * MostSends(self) + MostSends(self) == n * MostSends(self);
    }
  }

  /** From the start of the process on, however the calls interleave: each call takes at
      most 1 + rescans + renegotiations rounds and sends at most what one call may, and
      nothing else but the direct reads is sent. */
  lemma EachCallIsBounded(self: Self, more: seq<Happening>, k: nat)
    requires OneLife(more)
    ensures
      var c := AfterAll(self, NOBODY, more).client;
      && (k < |c.calls| ==> c.calls[k].round.rounds <= MostRounds(self) && c.calls[k].round.sent <= MostSends(self))
      && |c.shared.wire| <= Total(c.calls) + Directs(more)
      && |c.shared.wire| <= |c.calls| * MostSends(self) + Directs(more)
  {
    hide MostSends, MostRounds, AfterAll;
    assert ClientOk(NOBODY.client) && AllWithin(self, NOBODY.client) && Flat(NOBODY) == WORLD;
    BootOk(self);
    LifeStaysBounded(self, NOBODY, more);
    var c := AfterAll(self, NOBODY, more).client;
    TotalAtMost(self, c, |c.calls|);
    assert c.calls[..|c.calls|] == c.calls;
  }
}
