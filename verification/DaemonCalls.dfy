/**
 Whole calls that nobody disturbs: what they send, that they land, and what the next
 call then costs.
 */
module DaemonCalls {
  import opened Wrappers
  import opened ArtifactStore
  import opened ArtifactServer
  import opened ArtifactSafety
  import opened ArtifactTables
  import opened ArtifactAlone
  import opened UploadRound
  import opened DaemonSync
  import opened DaemonSafety
  import opened DaemonRetries

  /** While the record stands, the next call costs no request: the same scan is answered
      with `unchanged`, and any other scan is proposed against the recorded revision
      without reading first. */
  lemma RecordedCall(self: Self, d: Daemon, config: nat, dir: string, revision: nat, known: seq<Entry>,
                     entries: seq<Entry>, requestId: RequestId)
    requires d.phase.Idle? && requestId !in d.minted && d.pending.None? && |entries| <= self.limits.files
    requires d.baseline == Some(Baseline(config, revision, Some(known)))
    ensures
      var e := React(self, React(self, React(self, d, StartCall(config, dir, false, false)), Continue),
                     Scanned(entries, requestId, false));
      && (entries == known ==>
          e.wire == d.wire && e.log == d.log + [Unchanged(entries)] && e.phase.Idle? && e.baseline == d.baseline)
      && (entries != known ==>
            e.wire == d.wire + [Prepare(self.machine, requestId, Payload(self.loop, config, revision, entries))]
            && e.log == d.log)
  {
    var b := React(self, React(self, d, StartCall(config, dir, false, false)), Continue);
    assert b.phase == Scanning(revision) && b.baseline == d.baseline && b.wire == d.wire;
  }

  // ---- Runs and exchanges ----

  lemma {:induction false} RunsJoin(self: Self, w: World, a: seq<Event>, b: seq<Event>)
    ensures After(self, w, a + b) == After(self, After(self, w, a), b)
  {
    hide Next;
    if b == [] {
      assert a + b == a;
    } else {
      assert (a + b)[..|a + b| - 1] == a + b[..|b| - 1];
      RunsJoin(self, w, a, b[..|b| - 1]);
    }
  }

  lemma OneEvent(self: Self, w: World, e: Event)
    ensures After(self, w, [e]) == Next(self, w, e)
  {
    hide Next;
    assert [e][..0] == [];
  }

  /** An operation stepped once with each answer. */
  function AdvanceAll(s: Store, op: Op, oracles: seq<Oracle>): Move {
    if oracles == [] then Move(s, op)
    else
      var m := AdvanceAll(s, op, oracles[..|oracles| - 1]);
      Advance(m.store, m.op, oracles[|oracles| - 1])
  }

  lemma {:induction false} AdvancesJoin(s: Store, op: Op, a: seq<Oracle>, b: seq<Oracle>)
    ensures var m := AdvanceAll(s, op, a); AdvanceAll(s, op, a + b) == AdvanceAll(m.store, m.op, b)
  {
    hide Advance;
    if b == [] {
      assert a + b == a;
    } else {
      assert (a + b)[..|a + b| - 1] == a + b[..|b| - 1];
      AdvancesJoin(s, op, a, b[..|b| - 1]);
    }
  }

  function Times(n: nat, o: Oracle): (oracles: seq<Oracle>)
    ensures |oracles| == n
  {
    if n == 0 then [] else Times(n - 1, o) + [o]
  }

  lemma {:induction false} TimesIsMany(s: Store, op: Op, o: Oracle, n: nat)
    ensures AdvanceAll(s, op, Times(n, o)) == AdvanceMany(s, op, o, n)
  {
    hide Advance;
    if n > 0 {
      TimesIsMany(s, op, o, n - 1);
      var all := Times(n, o);
      assert all[..|all| - 1] == Times(n - 1, o);
      ManySplits(s, op, o, n - 1, 1);
      var m := AdvanceMany(s, op, o, n - 1);
      LastStep(m.store, m.op, o);
    }
  }

  lemma LastStep(s: Store, op: Op, o: Oracle)
    ensures AdvanceMany(s, op, o, 1) == Advance(s, op, o)
  {
    hide Advance;
    var m := Advance(s, op, o);
    assert AdvanceMany(s, op, o, 1) == AdvanceMany(m.store, m.op, o, 0);
  }

  function Steps(opId: nat, oracles: seq<Oracle>): seq<Event> {
    seq(|oracles|, i requires 0 <= i < |oracles| => Serve(Step(opId, oracles[i])))
  }

  lemma {:induction false} StepsRun(self: Self, w: World, opId: nat, oracles: seq<Oracle>)
    requires opId in w.server.ops
    ensures
      var m := AdvanceAll(w.server.store, w.server.ops[opId], oracles);
      After(self, w, Steps(opId, oracles)) == w.(server := Server(m.store, w.server.ops[opId := m.op]))
  {
    hide Advance;
    if oracles == [] {
      assert w.server.ops[opId := w.server.ops[opId]] == w.server.ops;
    } else {
      var n := |oracles| - 1;
      StepsRun(self, w, opId, oracles[..n]);
      assert Steps(opId, oracles)[..n] == Steps(opId, oracles[..n]);
    }
  }

  /** A message is delivered once and its operation runs alone. */
  function Exchange(msg: nat, opId: nat, oracles: seq<Oracle>): seq<Event> {
    [Deliver(msg, opId)] + Steps(opId, oracles)
  }

  function Ran(w: World, msg: nat, opId: nat, m: Move): World {
    World(Server(m.store, w.server.ops[opId := m.op]), w.tags[opId := msg], w.daemon)
  }

  lemma ExchangeRuns(self: Self, w: World, msg: nat, opId: nat, oracles: seq<Oracle>)
    requires msg < |w.daemon.wire| && opId !in w.server.ops && Admissible(w.daemon.wire[msg])
    ensures After(self, w, Exchange(msg, opId, oracles))
         == Ran(w, msg, opId, AdvanceAll(w.server.store, Op(w.daemon.wire[msg], false, Begin), oracles))
  {
    hide Advance, Admissible, AdvanceAll, Steps;
    RunsJoin(self, w, [Deliver(msg, opId)], Steps(opId, oracles));
    OneEvent(self, w, Deliver(msg, opId));
    var v := Next(self, w, Deliver(msg, opId));
    StepsRun(self, v, opId, oracles);
    var m := AdvanceAll(w.server.store, Op(w.daemon.wire[msg], false, Begin), oracles);
    assert v.server.ops[opId := m.op] == w.server.ops[opId := m.op];
  }

  /** The awaited message is delivered, its operation runs alone, and its answer arrives. */
  lemma TripAnswers(self: Self, w: World, msg: nat, opId: nat, oracles: seq<Oracle>, m: Move, r: Result)
    requires msg < |w.daemon.wire| && opId !in w.server.ops && Admissible(w.daemon.wire[msg])
      && Awaited(w.daemon) == Some(msg)
    requires m == AdvanceAll(w.server.store, Op(w.daemon.wire[msg], false, Begin), oracles) && m.op.pc == Done(r)
      && !r.Failed?
    ensures After(self, w, Exchange(msg, opId, oracles) + [Reply(opId)])
         == Ran(w, msg, opId, m).(daemon := React(self, w.daemon, Answered(r)))
  {
    hide Admissible, AdvanceAll, Exchange, React;
    ExchangeRuns(self, w, msg, opId, oracles);
    RunsJoin(self, w, Exchange(msg, opId, oracles), [Reply(opId)]);
    OneEvent(self, Ran(w, msg, opId, m), Reply(opId));
  }

  lemma PutTripAnswers(self: Self, w: World, g: nat, msg: nat, opId: nat, oracles: seq<Oracle>, m: Move, r: Result)
    requires msg < |w.daemon.wire| && opId !in w.server.ops && Admissible(w.daemon.wire[msg])
      && AwaitedPut(w.daemon, g) == Some(msg)
    requires m == AdvanceAll(w.server.store, Op(w.daemon.wire[msg], false, Begin), oracles) && m.op.pc == Done(r)
      && !r.Failed?
    ensures After(self, w, Exchange(msg, opId, oracles) + [PutReply(g, opId)])
         == Ran(w, msg, opId, m).(daemon := React(self, w.daemon, PutAnswered(g, r)))
  {
    hide Admissible, AdvanceAll, Exchange, React;
    ExchangeRuns(self, w, msg, opId, oracles);
    RunsJoin(self, w, Exchange(msg, opId, oracles), [PutReply(g, opId)]);
    OneEvent(self, Ran(w, msg, opId, m), PutReply(g, opId));
  }

  lemma LocalFirst(self: Self, w: World, i: Input, rest: seq<Event>)
    requires !i.Answered? && !i.PutAnswered? && !i.DirectAnswered?
    ensures After(self, w, [Event.Local(i)] + rest) == After(self, w.(daemon := React(self, w.daemon, i)), rest)
  {
    hide React;
    RunsJoin(self, w, [Event.Local(i)], rest);
    OneEvent(self, w, Event.Local(i));
  }

  // ---- A prepare, answer by answer ----

  function NeedOracles(s: Store, op: Op, has: Hash -> bool, hashes: seq<Hash>): seq<Oracle>
    requires op.call.Prepare?
  {
    if hashes == [] then []
    else
      var less, h := hashes[..|hashes| - 1], hashes[|hashes| - 1];
      var before := NeedSteps(s, op, has, less);
      NeedOracles(s, op, has, less)
      + (if !before.call.Prepare? then []
         else if AdvancePrepare(s, before, Answer(has, h)).op.pc.PreHas? then [Answer(has, h), Answer(has, h)]
         else [Answer(has, h)])
  }

  /** One hash of the need loop reads the store once or twice. */
  lemma NeedReads(s: Store, op: Op, has: Hash -> bool, h: Hash)
    requires op.call.Prepare? && op.pc.PreNeed?
    ensures
      var o := Answer(has, h); var first := AdvancePrepare(s, op, o);
      && Advance(s, op, o) == first && first.store == s && first.op.call.Prepare?
      && (first.op.pc.PreHas? ==> Advance(s, first.op, o) == Move(s, NeedStep(s, op, has, h)))
      && (!first.op.pc.PreHas? ==> first.op == NeedStep(s, op, has, h))
  {
  }

  lemma {:induction false} NeedAnswered(s: Store, op: Op, has: Hash -> bool, sid: SyncId, session: Session, n: nat)
    requires op.call.Prepare? && op.pc == PreNeed(sid, session, [], 0) && n <= |session.negotiated|
    ensures AdvanceAll(s, op, NeedOracles(s, op, has, session.negotiated[..n]))
      == Move(s, NeedSteps(s, op, has, session.negotiated[..n]))
  {
    hide Advance, AdvancePrepare, NeedStep, NeedSteps, NeedOf, RowMatches;
    if n == 0 {
      assert NeedSteps(s, op, has, []) == op by { NoNeed(s, op, has); }
    } else {
      var hashes := session.negotiated[..n];
      var less, h := hashes[..n - 1], hashes[n - 1];
      assert less == session.negotiated[..n - 1];
      NeedAnswered(s, op, has, sid, session, n - 1);
      NeedStepsAre(s, op, has, sid, session, n - 1);
      var before := NeedSteps(s, op, has, less);
      var o, oracles := Answer(has, h), NeedOracles(s, op, has, less);
      NeedReads(s, before, has, h);
      OneMore(s, op, oracles, o);
      OneMore(s, op, oracles + [o], o);
      assert oracles + [o, o] == oracles + [o] + [o];
      LastNeed(s, op, has, hashes);
    }
  }

  lemma NoNeed(s: Store, op: Op, has: Hash -> bool)
    requires op.call.Prepare?
    ensures NeedSteps(s, op, has, []) == op
  {
  }

  lemma LastNeed(s: Store, op: Op, has: Hash -> bool, hashes: seq<Hash>)
    requires op.call.Prepare? && hashes != []
    ensures
      var before := NeedSteps(s, op, has, hashes[..|hashes| - 1]);
      NeedSteps(s, op, has, hashes) == if before.call.Prepare? then NeedStep(s, before, has, hashes[|hashes| - 1])
        else before
  {
  }

  lemma OneMore(s: Store, op: Op, oracles: seq<Oracle>, o: Oracle)
    ensures var m := AdvanceAll(s, op, oracles); AdvanceAll(s, op, oracles + [o]) == Advance(m.store, m.op, o)
  {
    hide Advance;
    assert (oracles + [o])[..|oracles|] == oracles;
  }

  function PrepareOracles(s: Store, call: Call, o: Oracle, has: Hash -> bool): seq<Oracle>
    requires call.Prepare?
  {
    var m := AdvanceMany(s, Op(call, false, Begin), o, OpenSteps(s, o));
    Times(OpenSteps(s, o), o)
      + (if m.op.call.Prepare? then NeedOracles(m.store, m.op, has, Distinct(call.payload.entries)) else []) + [o]
  }

  lemma PrepareRuns(s: Store, call: Call, o: Oracle, has: Hash -> bool)
    requires call.Prepare? && Current(s, call, o)
    ensures AdvanceAll(s, Op(call, false, Begin), PrepareOracles(s, call, o, has)) == PrepareAlone(s, call, o, has)
  {
    var op := Op(call, false, Begin);
    var session := OpenedSession(s, call, o);
    hide AdvanceAll, Advance, NeedSteps, NeedOracles, Current;
    var m := AdvanceMany(s, op, o, OpenSteps(s, o));
    AloneOpens(s, call, o);
    OpenedIs(s, call, o);
    hide AdvanceMany;
    TimesIsMany(s, op, o, OpenSteps(s, o));
    var needs := NeedOracles(m.store, m.op, has, session.negotiated);
    AdvancesJoin(s, op, Times(OpenSteps(s, o), o), needs);
    assert session.negotiated[..|session.negotiated|] == session.negotiated;
    NeedAnswered(m.store, m.op, has, SidOf(o), session, |session.negotiated|);
    OneMore(s, op, Times(OpenSteps(s, o), o) + needs, o);
  }

  // ---- Losses on the way ----

  function Locals(inputs: seq<Input>): seq<Event> {
    seq(|inputs|, i requires 0 <= i < |inputs| => Event.Local(inputs[i]))
  }

  function Copies(n: nat, call: Call): (calls: seq<Call>)
    ensures |calls| == n && forall i :: 0 <= i < n ==> calls[i] == call
  {
    seq(n, _ => call)
  }

  /** Fewer losses than the attempts allow. */
  predicate Few(self: Self, losses: seq<Input>) {
    |losses| < Attempts(self) && forall i :: 0 <= i < |losses| ==> IsLoss(losses[i])
  }

  predicate FewPuts(self: Self, g: nat, losses: seq<Input>) {
    |losses| < Attempts(self) && forall i :: 0 <= i < |losses| ==> IsPutLoss(g, losses[i])
  }

  /** The request that was lost n times: sent n times more, and awaited at the last. */
  function Resent(d: Daemon, n: nat): Daemon
    requires Asking(d) && d.phase.msg < |d.wire|
  {
    d.(wire := d.wire + Copies(n, d.wire[d.phase.msg]), round := d.round.(sent := d.round.sent + n),
       phase := d.phase.(msg := if n == 0 then d.phase.msg else |d.wire| + n - 1, attempt := d.phase.attempt + n))
  }

  lemma LocalsRun(self: Self, w: World, inputs: seq<Input>)
    requires
      && inputs != []
      && var i := inputs[|inputs| - 1]; !i.Answered? && !i.PutAnswered? && !i.DirectAnswered?
    ensures
      var n := |inputs| - 1; var v := After(self, w, Locals(inputs[..n]));
      After(self, w, Locals(inputs)) == v.(daemon := React(self, v.daemon, inputs[n]))
  {
    hide React;
    var n := |inputs| - 1;
    assert Locals(inputs)[..n] == Locals(inputs[..n]);
  }

  lemma ResentMore(self: Self, d: Daemon, n: nat, i: Input)
    requires Underway(self, d) && d.phase.attempt == 1 && n + 1 < self.limits.attempts && IsLoss(i)
    requires Underway(self, Resent(d, n))
    ensures React(self, Resent(d, n), i) == Resent(d, n + 1) && Underway(self, Resent(d, n + 1))
  {
    var e, call := Resent(d, n), d.wire[d.phase.msg];
    LossIsRetried(self, e, i);
    hide React;
    assert d.wire + Copies(n + 1, call) == e.wire + [call];
  }

  lemma {:induction false} LossesAbsorbed(self: Self, w: World, losses: seq<Input>)
    requires Underway(self, w.daemon) && w.daemon.phase.attempt == 1 && Few(self, losses)
    ensures After(self, w, Locals(losses)) == w.(daemon := Resent(w.daemon, |losses|))
    ensures Underway(self, Resent(w.daemon, |losses|))
  {
    var d := w.daemon;
    if losses == [] {
      assert d.wire + Copies(0, d.wire[d.phase.msg]) == d.wire;
    } else {
      hide Resent, Underway, React, After;
      var n := |losses| - 1;
      LossesAbsorbed(self, w, losses[..n]);
      LocalsRun(self, w, losses);
      ResentMore(self, d, n, losses[n]);
    }
  }

  /** The request under way is lost as often as that, then delivered, and answered. */
  lemma LossyTrip(self: Self, w: World, losses: seq<Input>, opId: nat, oracles: seq<Oracle>, m: Move, r: Result)
    requires Underway(self, w.daemon) && w.daemon.phase.attempt == 1 && Few(self, losses)
    requires w.daemon.phase.msg == |w.daemon.wire| - 1 && opId !in w.server.ops
    requires
      var call := w.daemon.wire[w.daemon.phase.msg];
      && Admissible(call) && m == AdvanceAll(w.server.store, Op(call, false, Begin), oracles)
      && m.op.pc == Done(r) && !r.Failed?
    ensures
      var d, msg := w.daemon, |w.daemon.wire| - 1 + |losses|;
      After(self, w, Locals(losses) + (Exchange(msg, opId, oracles) + [Reply(opId)]))
      == Ran(w, msg, opId, m).(daemon := React(self, Resent(d, |losses|), Answered(r)))
  {
    hide After, Exchange, AdvanceAll, React, Locals, Few, Admissible;
    var msg := |w.daemon.wire| - 1 + |losses|;
    LossesAbsorbed(self, w, losses);
    RunsJoin(self, w, Locals(losses), Exchange(msg, opId, oracles) + [Reply(opId)]);
    TripAnswers(self, w.(daemon := Resent(w.daemon, |losses|)), msg, opId, oracles, m, r);
  }

  /** The PUT of group g, sent n times more. */
  function PutResent(self: Self, d: Daemon, g: nat, n: nat): Daemon
    requires d.phase.Uploading? && g < |d.phase.groups|
  {
    SetUpload(d, g, Putting(|d.wire| + n, n + 1)).(
      wire := d.wire + Copies(n + 1, Put(self.machine, d.phase.sid, d.phase.groups[g].hash)),
      round := d.round.(sent := d.round.sent + (n + 1)))
  }

  lemma PutResentMore(self: Self, d: Daemon, g: nat, n: nat, i: Input)
    requires d.phase.Uploading? && g < |d.phase.groups| && n + 1 < self.limits.attempts && IsPutLoss(g, i)
    ensures React(self, PutResent(self, d, g, n), i) == PutResent(self, d, g, n + 1)
  {
    var e, call, group := PutResent(self, d, g, n), Put(self.machine, d.phase.sid, d.phase.groups[g].hash),
      d.phase.groups[g];
    PutLossIsRetried(self, e, g, i);
    hide React;
    assert d.wire + Copies(n + 2, call) == e.wire + [call];
    assert d.phase.groups[g := group.(upload := Putting(|d.wire| + n, n + 1))]
             [g := group.(upload := Putting(|d.wire| + n + 1, n + 2))]
        == d.phase.groups[g := group.(upload := Putting(|d.wire| + n + 1, n + 2))];
  }

  lemma {:induction false} PutLossesAbsorbed(self: Self, w: World, d: Daemon, g: nat, losses: seq<Input>)
    requires d.phase.Uploading? && g < |d.phase.groups| && FewPuts(self, g, losses)
    requires w.daemon == PutResent(self, d, g, 0)
    ensures After(self, w, Locals(losses)) == w.(daemon := PutResent(self, d, g, |losses|))
  {
    if losses != [] {
      hide PutResent, React, After;
      var n := |losses| - 1;
      PutLossesAbsorbed(self, w, d, g, losses[..n]);
      LocalsRun(self, w, losses);
      PutResentMore(self, d, g, n, losses[n]);
    }
  }

  // ---- The call, part by part ----

  /** The losses on the way, each request's own. */
  datatype Losses = Losses(read: seq<Input>, prepare: seq<Input>, put: nat -> seq<Input>, commit: seq<Input>)

  ghost predicate Bearable(self: Self, l: Losses) {
    Few(self, l.read) && Few(self, l.prepare) && Few(self, l.commit) && forall g: nat :: FewPuts(self, g, l.put(g))
  }

  /** One call as its surroundings answer it: `lost` comes before the answers, `o` answers
      the prepare, `later` the uploads and the commit, operation ids from `next` on are free. */
  datatype Plan = Plan(config: nat, dir: string, freshSession: bool, entries: seq<Entry>, requestId: RequestId,
                       lost: Losses, o: Oracle, later: Oracle, next: nat)

  function BaseOf(self: Self, w: World): nat
    requires self.loop in w.server.store.loops
  {
    w.server.store.loops[self.loop].manifestRevision
  }

  function Proposal(self: Self, p: Plan, base: nat): Call {
    Prepare(self.machine, p.requestId, Payload(self.loop, p.config, base, p.entries))
  }

  predicate Recorded(d: Daemon, config: nat) {
    d.baseline.Some? && d.baseline.value.entries.Some? && d.baseline.value.config == config
  }

  ghost predicate Free(w: World, next: nat) { forall k :: k in w.server.ops ==> k < next }

  /** An earlier call proposed the very same and got no answer. */
  predicate Resumes(self: Self, d: Daemon, p: Plan, base: nat) {
    !p.freshSession && d.pending.Some? && d.pending.value.payload == Payload(self.loop, p.config, base, p.entries)
  }

  /** The daemon is idle and has something new to say, the loop is configured for it as
      the call believes, and no answer during the call is a refusal. */
  ghost predicate Undisturbed(self: Self, w: World, p: Plan) {
    var s, d := w.server.store, w.daemon;
    && d.phase.Idle? && !d.stopped && Free(w, p.next) && Bearable(self, p.lost)
    && BlobsOk(s) && Normalized(p.entries) && Honest(p.entries) && |p.entries| <= self.limits.files
    && self.loop in s.loops && s.loops[self.loop].dir == Some(p.dir) && BaseOf(self, w) < REVISION_MAX
    && Current(s, Proposal(self, p, BaseOf(self, w)), p.o)
    && Smooth(s, OpenedSession(s, Proposal(self, p, BaseOf(self, w)), p.o), p.later)
    && (Recorded(d, p.config) ==>
          d.baseline.value.revision == BaseOf(self, w)
          && (p.freshSession || d.baseline.value.entries != Some(p.entries)))
    && (if Resumes(self, d, p, BaseOf(self, w)) then d.pending.value.requestId == p.requestId
        else p.requestId !in d.minted)
  }

  function StartRun(p: Plan): seq<Event> {
    [Event.Local(StartCall(p.config, p.dir, p.freshSession, false)), Event.Local(Continue)]
  }

  function ReadRun(w: World, p: Plan): seq<Event> {
    StartRun(p)
    + if Recorded(w.daemon, p.config) then []
      else Locals(p.lost.read) + (Exchange(|w.daemon.wire| + |p.lost.read|, p.next, [p.o]) + [Reply(p.next)])
  }

  /** Ready to scan on the loop's current revision, nothing proposed yet. */
  ghost predicate AtScan(self: Self, w: World, p: Plan, x: World)
    requires self.loop in w.server.store.loops
  {
    var d, e := w.daemon, x.daemon;
    && x.server.store == w.server.store && Free(x, p.next + 1)
    && e.phase == Scanning(BaseOf(self, w)) && e.log == d.log && e.pending == d.pending && e.minted == d.minted
    && e.baseline.Some? && e.baseline.value.config == p.config && e.baseline.value.revision == BaseOf(self, w)
    && (p.freshSession || e.baseline.value.entries != Some(p.entries))
    && e.round.config == p.config && e.round.freshSession == p.freshSession && e.round.freshPending == p.freshSession
  }

  lemma Started(self: Self, w: World, p: Plan, rest: seq<Event>)
    ensures After(self, w, StartRun(p) + rest) ==
            After(self, w.(daemon :=
                           React(self, React(self, w.daemon, StartCall(p.config, p.dir, p.freshSession, false)),
                                 Continue)), rest)
  {
    hide React;
    var start := StartCall(p.config, p.dir, p.freshSession, false);
    assert StartRun(p) + rest == [Event.Local(start)] + ([Event.Local(Continue)] + rest);
    LocalFirst(self, w, start, [Event.Local(Continue)] + rest);
    LocalFirst(self, w.(daemon := React(self, w.daemon, start)), Continue, rest);
  }

  lemma ViewAnswers(self: Self, s: Store, o: Oracle)
    requires self.loop in s.loops && s.loops[self.loop].machine == self.machine && s.loops[self.loop].dir.Some?
    requires o.ns.Some?
    ensures
      var loop := s.loops[self.loop];
      AdvanceAll(s, Op(ReadCall(self), false, Begin), [o])
      == Move(s, Op(ReadCall(self), false, Done(Viewed(loop.config, loop.manifestRevision, loop.dir.value))))
  {
    assert [o][..0] == [];
    assert AdvanceAll(s, Op(ReadCall(self), false, Begin), []) == Move(s, Op(ReadCall(self), false, Begin));
  }

  lemma StartReads(self: Self, w: World, p: Plan)
    requires Undisturbed(self, w, p)
    ensures
      var e := React(self, React(self, w.daemon, StartCall(p.config, p.dir, p.freshSession, false)), Continue);
      && (Recorded(w.daemon, p.config) ==> AtScan(self, w, p, w.(daemon := e)))
      && (!Recorded(w.daemon, p.config) ==>
            e == w.daemon.(phase := Reading(|w.daemon.wire|, 1), wire := w.daemon.wire + [ReadCall(self)],
                           round := Round(p.config, p.dir, p.freshSession, false, p.freshSession, 0, 0, 1, 1, None)))
  {
    hide Current, Smooth, Normalized, Honest, BlobsOk;
  }

  lemma ReadLands(self: Self, w: World, p: Plan)
    requires Undisturbed(self, w, p)
    ensures AtScan(self, w, p, After(self, w, ReadRun(w, p)))
  {
    hide After, Exchange, StartRun, AdvanceAll, Smooth, Normalized, Honest, BlobsOk, FoundIsRight, React, OnView;
    var e := React(self, React(self, w.daemon, StartCall(p.config, p.dir, p.freshSession, false)), Continue);
    StartReads(self, w, p);
    var a := w.(daemon := e);
    if Recorded(w.daemon, p.config) {
      Started(self, w, p, []);
      NothingRun(self, a);
      assert StartRun(p) + [] == ReadRun(w, p);
    } else {
      var n, loop := |p.lost.read|, w.server.store.loops[self.loop];
      var msg := |w.daemon.wire| + n;
      var trip := Exchange(msg, p.next, [p.o]) + [Reply(p.next)];
      Started(self, w, p, Locals(p.lost.read) + trip);
      ViewAnswers(self, w.server.store, p.o);
      var r := Viewed(loop.config, loop.manifestRevision, p.dir);
      LossyTrip(self, a, p.lost.read, p.next, [p.o], Move(w.server.store, Op(ReadCall(self), false, Done(r))), r);
      ViewedScans(self, Resent(e, n), r);
    }
  }

  lemma NothingRun(self: Self, w: World)
    ensures After(self, w, []) == w
  {
  }

  lemma ViewedScans(self: Self, d: Daemon, r: Result)
    requires d.phase.Reading? && r.Viewed? && r.config == d.round.config && r.dir == d.round.dir && !d.round.reportOnly
    ensures React(self, d, Answered(r))
         == d.(baseline := Some(Baseline(r.config, r.revision, None)), phase := Scanning(r.revision))
  {
  }

  function PrepareRun(self: Self, x: World, p: Plan, base: nat, has: Hash -> bool): seq<Event> {
    [Event.Local(Scanned(p.entries, p.requestId, false))]
    + (Locals(p.lost.prepare)
       + (Exchange(|x.daemon.wire| + |p.lost.prepare|, p.next + 1,
                   PrepareOracles(x.server.store, Proposal(self, p, base), p.o, has))
          + [Reply(p.next + 1)]))
  }

  function Parks(hashes: seq<Hash>): seq<Group> {
    seq(|hashes|, g requires 0 <= g < |hashes| => Group(hashes[g], Parked))
  }

  function Missing(s: Store, call: Call, o: Oracle, has: Hash -> bool): seq<Hash>
    requires call.Prepare? && o.ns.Some?
  {
    var session := OpenedSession(s, call, o);
    NeedOf(WithSession(s, SidOf(o), session), session, has, session.negotiated)
  }

  /** The groups are the missing hashes, in order. */
  lemma {:induction false} WantedAreMissing(s: Store, session: Session, has: Hash -> bool, hashes: seq<Hash>,
                                            need: seq<Hash>)
    requires forall h :: h in hashes ==> (h in need <==> !Backed(s, session, has, h))
    ensures Wanted(hashes, need) == Parks(NeedOf(s, session, has, hashes))
  {
    hide Backed;
    if hashes != [] { WantedAreMissing(s, session, has, hashes[..|hashes| - 1], need); }
  }

  lemma GroupsAreMissing(s: Store, call: Call, o: Oracle, has: Hash -> bool)
    requires call.Prepare? && Current(s, call, o)
    ensures GroupsOf(call.payload.entries, Missing(s, call, o, has)) == Parks(Missing(s, call, o, has))
  {
    var session := OpenedSession(s, call, o);
    var t := WithSession(s, SidOf(o), session);
    OpenedIs(s, call, o);
    DistinctOnce(call.payload.entries);
    NeedIsExact(t, session, has, session.negotiated);
    WantedAreMissing(t, session, has, session.negotiated, Missing(s, call, o, has));
  }

  /** The session is open and its missing hashes are about to be uploaded. */
  ghost predicate AtUpload(self: Self, w: World, p: Plan, has: Hash -> bool, x: World)
    requires self.loop in w.server.store.loops && p.o.ns.Some?
  {
    var call := Proposal(self, p, BaseOf(self, w));
    && x.server.store == WithSession(w.server.store, SidOf(p.o), OpenedSession(w.server.store, call, p.o))
    && Free(x, p.next + 2)
    && x.daemon.phase
          == Uploading(BaseOf(self, w), p.entries, SidOf(p.o), Parks(Missing(w.server.store, call, p.o, has)))
    && OnTrack(self, w, p, x)
  }

  ghost predicate OnTrack(self: Self, w: World, p: Plan, x: World)
    requires self.loop in w.server.store.loops
  {
    && x.daemon.log == w.daemon.log && x.daemon.round.config == p.config
    && x.daemon.baseline.Some? && x.daemon.baseline.value.revision == BaseOf(self, w)
  }

  lemma ScanProposes(self: Self, w: World, p: Plan, x: World)
    requires Undisturbed(self, w, p) && AtScan(self, w, p, x)
    ensures
      var e, call := React(self, x.daemon, Scanned(p.entries, p.requestId, false)), Proposal(self, p, BaseOf(self, w));
      && e.wire == x.daemon.wire + [call] && OnTrack(self, w, p, x.(daemon := e))
      && e.phase.Preparing? && e.phase.base == BaseOf(self, w) && e.phase.entries == p.entries
      && e.phase.msg == |x.daemon.wire| && e.phase.attempt == 1 && Underway(self, e)
      && e.pending.Some? && e.pending.value == e.phase.proposal
  {
    hide Current, Smooth, Normalized, Honest, BlobsOk, Free;
  }

  lemma PreparedUploads(self: Self, d: Daemon, sid: SyncId, need: seq<Hash>)
    requires d.phase.Preparing? && d.pending.Some? && d.pending.value == d.phase.proposal
    ensures React(self, d, Answered(Prepared(sid, need)))
         == d.(phase := Uploading(d.phase.base, d.phase.entries, sid, GroupsOf(d.phase.entries, need)))
  {
    hide GroupsOf;
  }

  lemma PrepareLands(self: Self, w: World, p: Plan, x: World, has: Hash -> bool)
    requires Undisturbed(self, w, p) && AtScan(self, w, p, x)
    ensures AtUpload(self, w, p, has, After(self, x, PrepareRun(self, x, p, BaseOf(self, w), has)))
  {
    hide After, Exchange, AdvanceAll, PrepareAlone, PrepareOracles, GroupsOf, Smooth, Honest, BlobsOk, NeedOf, Parks,
         Missing, React;
    var call, scanned := Proposal(self, p, BaseOf(self, w)), Scanned(p.entries, p.requestId, false);
    var opId, n := p.next + 1, |p.lost.prepare|;
    var msg := |x.daemon.wire| + n;
    var oracles := PrepareOracles(x.server.store, call, p.o, has);
    var a := x.(daemon := React(self, x.daemon, scanned));
    var need := Missing(w.server.store, call, p.o, has);
    ScanProposes(self, w, p, x);
    MissingIsAsked(x.server.store, call, p.o, has);
    var trip := Exchange(msg, opId, oracles) + [Reply(opId)];
    LocalFirst(self, x, scanned, Locals(p.lost.prepare) + trip);
    LossyTrip(self, a, p.lost.prepare, opId, oracles, PrepareAlone(x.server.store, call, p.o, has),
              Prepared(SidOf(p.o), need));
    PreparedUploads(self, Resent(a.daemon, n), SidOf(p.o), need);
    GroupsAreMissing(x.server.store, call, p.o, has);
  }

  lemma MissingIsAsked(s: Store, call: Call, o: Oracle, has: Hash -> bool)
    requires call.Prepare? && Current(s, call, o)
    ensures
      var m := AdvanceAll(s, Op(call, false, Begin), PrepareOracles(s, call, o, has));
      && m == PrepareAlone(s, call, o, has) && m.op.pc == Done(Prepared(SidOf(o), Missing(s, call, o, has)))
      && m.store == WithSession(s, SidOf(o), OpenedSession(s, call, o))
  {
    PrepareRuns(s, call, o, has);
    AlonePrepareNegotiates(s, call, o, has);
  }

  /** The groups when the first n are uploaded. */
  function Halfway(hashes: seq<Hash>, n: nat): seq<Group> {
    seq(|hashes|, g requires 0 <= g < |hashes| => Group(hashes[g], if g < n then Settled(Stored) else Parked))
  }

  function OnePut(g: nat, msg: nat, losses: seq<Input>, opId: nat, o: Oracle): seq<Event> {
    [Event.Local(Verified(g, Sound))]
    + (Locals(losses) + (Exchange(msg + |losses|, opId, Times(8, o)) + [PutReply(g, opId)]))
  }

  /** How many messages the first n PUTs take. */
  function PutsSent(lost: Losses, n: nat): nat {
    if n == 0 then 0 else PutsSent(lost, n - 1) + 1 + |lost.put(n - 1)|
  }

  function PutRun(hashes: seq<Hash>, n: nat, lost: Losses, msg: nat, opId: nat, later: Oracle): seq<Event>
    requires n <= |hashes|
  {
    if n == 0 then []
    else
      PutRun(hashes, n - 1, lost, msg, opId, later)
      + OnePut(n - 1, msg + PutsSent(lost, n - 1), lost.put(n - 1), opId + n - 1,
               later.(bytes := hashes[n - 1].content))
  }

  ghost predicate Loading(self: Self, x: World, g: nat) {
    && x.daemon.phase.Uploading? && g < |x.daemon.phase.groups| && x.daemon.phase.groups[g].upload == Parked
    && x.daemon.phase.sid in x.server.store.sessions
    && x.server.store.sessions[x.daemon.phase.sid].machine == self.machine
  }

  lemma PutStarts(self: Self, d: Daemon, g: nat, n: nat)
    requires d.phase.Uploading? && g < |d.phase.groups| && d.phase.groups[g].upload == Parked
    ensures React(self, d, Verified(g, Sound)) == PutResent(self, d, g, 0)
    ensures React(self, PutResent(self, d, g, n), PutAnswered(g, Uploaded))
         == SetUpload(d, g, Settled(Stored)).(wire := PutResent(self, d, g, n).wire,
                                              round := PutResent(self, d, g, n).round)
  {
    var group, call := d.phase.groups[g], Put(self.machine, d.phase.sid, d.phase.groups[g].hash);
    assert Copies(1, call) == [call];
    assert d.phase.groups[g := group.(upload := Putting(|d.wire| + n, n + 1))][g := group.(upload := Settled(Stored))]
        == d.phase.groups[g := group.(upload := Settled(Stored))];
  }

  lemma OnePutLands(self: Self, x: World, g: nat, losses: seq<Input>, opId: nat, o: Oracle)
    requires Loading(self, x, g) && Free(x, opId) && FewPuts(self, g, losses)
    requires Uploadable(x.server.store, x.daemon.phase.sid, x.daemon.phase.groups[g].hash, o)
    ensures
      var d, h := x.daemon, x.daemon.phase.groups[g].hash;
      var y, sent := After(self, x, OnePut(g, |d.wire|, losses, opId, o)), PutResent(self, d, g, |losses|);
      && y.server.store == PutAlone(x.server.store, d.phase.sid, h, o).store && Free(y, opId + 1)
      && y.daemon == SetUpload(d, g, Settled(Stored)).(wire := sent.wire, round := sent.round)
  {
    hide After, Exchange, AdvanceAll, Uploadable, React, AdvanceMany;
    var d, s, n := x.daemon, x.server.store, |losses|;
    var sid, h, msg := d.phase.sid, d.phase.groups[g].hash, |d.wire| + n;
    var trip := Exchange(msg, opId, Times(8, o)) + [PutReply(g, opId)];
    PutStarts(self, d, g, n);
    LocalFirst(self, x, Verified(g, Sound), Locals(losses) + trip);
    var a := x.(daemon := PutResent(self, d, g, 0));
    PutLossesAbsorbed(self, a, d, g, losses);
    RunsJoin(self, a, Locals(losses), trip);
    var b := a.(daemon := PutResent(self, d, g, n));
    TimesIsMany(s, Op(Put(self.machine, sid, h), false, Begin), o, 8);
    AlonePutStores(s, sid, h, o);
    PutTripAnswers(self, b, g, msg, opId, Times(8, o), PutAlone(s, sid, h, o), Uploaded);
  }

  /** Everything of the call but the uploads themselves. */
  ghost predicate SameCall(d: Daemon, e: Daemon) {
    e.log == d.log && e.baseline == d.baseline && e.round.config == d.round.config
  }

  ghost predicate Uploads(self: Self, x: World, hashes: seq<Hash>, later: Oracle) {
    && x.daemon.phase.Uploading? && x.daemon.phase.groups == Parks(hashes)
    && x.daemon.phase.sid in x.server.store.sessions
    && x.server.store.sessions[x.daemon.phase.sid].machine == self.machine
    && forall h :: h in hashes ==> Uploadable(x.server.store, x.daemon.phase.sid, h, later.(bytes := h.content))
  }

  /** From x to y exactly the first n groups were uploaded. */
  ghost predicate UploadedTo(x: World, hashes: seq<Hash>, n: nat, lost: Losses, opId: nat, later: Oracle, y: World)
    requires n <= |hashes| && x.daemon.phase.Uploading?
  {
    && y.server.store == PutAll(x.server.store, x.daemon.phase.sid, hashes[..n], later) && Free(y, opId + n)
    && y.daemon.phase == x.daemon.phase.(groups := Halfway(hashes, n))
    && |y.daemon.wire| == |x.daemon.wire| + PutsSent(lost, n) && SameCall(x.daemon, y.daemon)
  }

  lemma NextPutLands(self: Self, x: World, hashes: seq<Hash>, n: nat, lost: Losses, opId: nat, later: Oracle, v: World)
    requires n < |hashes| && Uploads(self, x, hashes, later) && UploadedTo(x, hashes, n, lost, opId, later, v)
    requires Bearable(self, lost)
    ensures
      var o, msg := later.(bytes := hashes[n].content), |x.daemon.wire| + PutsSent(lost, n);
      UploadedTo(x, hashes, n + 1, lost, opId, later, After(self, v, OnePut(n, msg, lost.put(n), opId + n, o)))
  {
    hide After, OnePut, Uploadable, PutAlone, PutAll, OnlyRowsAdded;
    var s, sid, h := x.server.store, x.daemon.phase.sid, hashes[n];
    var o := later.(bytes := h.content);
    PutAllStores(s, sid, hashes[..n], later);
    RowsOnly(s, v.server.store, s.sessions[sid].ns, hashes[..n]);
    UploadableStays(s, v.server.store, sid, h, o);
    OnePutLands(self, v, n, lost.put(n), opId + n, o);
    LastPut(s, sid, hashes[..n + 1], later);
    assert hashes[..n + 1][..n] == hashes[..n];
    assert Halfway(hashes, n)[n := Group(h, Settled(Stored))] == Halfway(hashes, n + 1);
  }

  lemma RowsOnly(s: Store, t: Store, ns: Namespace, hashes: seq<Hash>)
    requires OnlyRowsAdded(s, t, ns, hashes)
    ensures t == s.(blobs := t.blobs)
  {
  }

  lemma LastPut(s: Store, sid: SyncId, hashes: seq<Hash>, o: Oracle)
    requires hashes != []
    ensures
      var t, h := PutAll(s, sid, hashes[..|hashes| - 1], o), hashes[|hashes| - 1];
      PutAll(s, sid, hashes, o) == if sid in t.sessions then PutAlone(t, sid, h, o.(bytes := h.content)).store else t
  {
    hide PutAlone;
  }

  lemma {:induction false} PutsLand(self: Self, x: World, hashes: seq<Hash>, n: nat, lost: Losses, opId: nat,
                                    later: Oracle)
    requires n <= |hashes| && Uploads(self, x, hashes, later) && Free(x, opId) && Bearable(self, lost)
    ensures
      UploadedTo(x, hashes, n, lost, opId, later, After(self, x, PutRun(hashes, n, lost, |x.daemon.wire|, opId, later)))
  {
    hide After, OnePut, Uploadable, FewPuts, Few, UploadedTo, Bearable, Uploads;
    if n == 0 {
      NoPuts(self, x, hashes, lost, opId, later);
    } else {
      var before := PutRun(hashes, n - 1, lost, |x.daemon.wire|, opId, later);
      PutsLand(self, x, hashes, n - 1, lost, opId, later);
      NextPutLands(self, x, hashes, n - 1, lost, opId, later, After(self, x, before));
      RunsJoin(self, x, before,
               OnePut(n - 1, |x.daemon.wire| + PutsSent(lost, n - 1), lost.put(n - 1), opId + n - 1,
                      later.(bytes := hashes[n - 1].content)));
    }
  }

  lemma NoPuts(self: Self, x: World, hashes: seq<Hash>, lost: Losses, opId: nat, later: Oracle)
    requires Uploads(self, x, hashes, later) && Free(x, opId)
    ensures UploadedTo(x, hashes, 0, lost, opId, later,
                       After(self, x, PutRun(hashes, 0, lost, |x.daemon.wire|, opId, later)))
  {
    hide After, Uploadable;
    NothingRun(self, x);
    assert Halfway(hashes, 0) == Parks(hashes);
  }

  function CommitRun(msg: nat, losses: seq<Input>, opId: nat, n: nat, later: Oracle): seq<Event> {
    [Event.Local(Continue)]
    + (Locals(losses) + (Exchange(msg + |losses|, opId, Times(8 + 2 * n, later)) + [Reply(opId)]))
  }

  lemma AllUploaded(self: Self, d: Daemon, hashes: seq<Hash>)
    requires d.phase.Uploading? && d.phase.groups == Halfway(hashes, |hashes|)
    ensures React(self, d, Continue) == StartCommit(self, d, d.phase.base, d.phase.entries, d.phase.sid)
  {
    WorstIsFirst(d.phase.groups);
  }

  lemma ReceiptEnds(self: Self, d: Daemon, receipt: Receipt)
    requires d.phase.Committing? && d.baseline.Some? && d.baseline.value.revision == d.phase.base
      && receipt.revision == d.phase.base + 1
    ensures
      var e := React(self, d, Answered(Committed(receipt)));
      && e.log == d.log + [Synced(receipt.snapshot, receipt.revision, d.round.config, d.phase.entries)] && e.phase.Idle?
      && e.baseline == Some(Baseline(d.round.config, receipt.revision, Some(d.phase.entries)))
  {
  }

  /** The store in which the call's manifest is current. */
  ghost predicate StoreLanded(self: Self, w: World, p: Plan, s: Store)
    requires self.loop in w.server.store.loops
  {
    && self.loop in s.loops && s.loops[self.loop].manifestId == Some(p.later.minted)
    && s.loops[self.loop].manifestRevision == BaseOf(self, w) + 1
    && p.later.minted in s.manifests && s.manifests[p.later.minted].entries == p.entries
  }

  /** What the call leaves behind: its outcome, the record for the next call, and the
      scan as the loop's current manifest. */
  ghost predicate Landed(self: Self, w: World, p: Plan, y: World)
    requires self.loop in w.server.store.loops
  {
    var revision := BaseOf(self, w) + 1;
    && y.daemon.log == w.daemon.log + [Synced(p.later.minted, revision, p.config, p.entries)] && y.daemon.phase.Idle?
    && y.daemon.baseline == Some(Baseline(p.config, revision, Some(p.entries)))
    && StoreLanded(self, w, p, y.server.store)
  }

  lemma CommitAnswers(self: Self, w: World, p: Plan, s: Store)
    requires self.loop in w.server.store.loops && Complete(s, SidOf(p.o), p.later)
    requires SidOf(p.o) in s.sessions && s.sessions[SidOf(p.o)].machine == self.machine
    requires s.sessions[SidOf(p.o)].payload == Proposal(self, p, BaseOf(self, w)).payload
    ensures
      var n := 8 + 2 * |s.sessions[SidOf(p.o)].negotiated|;
      var m := AdvanceAll(s, Op(CommitSync(self.machine, SidOf(p.o)), false, Begin), Times(n, p.later));
      m.op.pc == Done(Committed(Receipt(p.later.minted, BaseOf(self, w) + 1))) && StoreLanded(self, w, p, m.store)
  {
    hide AdvanceAll, AdvanceMany, Advance, Complete, TotalBytes;
    TimesIsMany(s, Op(CommitSync(self.machine, SidOf(p.o)), false, Begin), p.later,
                8 + 2 * |s.sessions[SidOf(p.o)].negotiated|);
    SteadyCommitLands(s, SidOf(p.o), p.later);
  }

  /** Every hash is stored and the session is still the call's. */
  ghost predicate AtCommit(self: Self, w: World, p: Plan, z: World, hashes: seq<Hash>)
    requires self.loop in w.server.store.loops
  {
    && OnTrack(self, w, p, z) && SidOf(p.o) in z.server.store.sessions && Complete(z.server.store, SidOf(p.o), p.later)
    && z.daemon.phase == Uploading(BaseOf(self, w), p.entries, SidOf(p.o), Halfway(hashes, |hashes|))
    && z.server.store.sessions[SidOf(p.o)].machine == self.machine
    && z.server.store.sessions[SidOf(p.o)].payload == Proposal(self, p, BaseOf(self, w)).payload
    && z.server.store.sessions[SidOf(p.o)].negotiated == Distinct(p.entries)
  }

  lemma CommitSends(self: Self, w: World, p: Plan, z: World, hashes: seq<Hash>)
    requires self.loop in w.server.store.loops && AtCommit(self, w, p, z, hashes)
    ensures
      var d, receipt := z.daemon, Receipt(p.later.minted, BaseOf(self, w) + 1); var e := React(self, d, Continue);
      && e.wire == d.wire + [CommitSync(self.machine, SidOf(p.o))] && Underway(self, e) && e.phase.msg == |d.wire|
      && e.phase.Committing? && e.phase.attempt == 1
      && var f := React(self, Resent(e, |p.lost.commit|), Answered(Committed(receipt)));
      && f.log == w.daemon.log + [Synced(p.later.minted, BaseOf(self, w) + 1, p.config, p.entries)] && f.phase.Idle?
      && f.baseline == Some(Baseline(p.config, BaseOf(self, w) + 1, Some(p.entries)))
  {
    hide React, Worst, Complete;
    AllUploaded(self, z.daemon, hashes);
    var e := StartCommit(self, z.daemon, z.daemon.phase.base, z.daemon.phase.entries, z.daemon.phase.sid);
    ReceiptEnds(self, Resent(e, |p.lost.commit|), Receipt(p.later.minted, BaseOf(self, w) + 1));
  }

  lemma CommitLands(self: Self, w: World, p: Plan, z: World, opId: nat, hashes: seq<Hash>)
    requires self.loop in w.server.store.loops && AtCommit(self, w, p, z, hashes) && Free(z, opId)
    requires Bearable(self, p.lost)
    ensures
      var run := CommitRun(|z.daemon.wire|, p.lost.commit, opId, |Distinct(p.entries)|, p.later);
      Landed(self, w, p, After(self, z, run))
  {
    hide After, Exchange, AdvanceAll, React, StoreLanded, Distinct, Complete, Next, Advance, Locals, FewPuts, Times;
    var s, n := z.server.store, |p.lost.commit|;
    var msg := |z.daemon.wire| + n;
    var oracles := Times(8 + 2 * |Distinct(p.entries)|, p.later);
    var trip := Exchange(msg, opId, oracles) + [Reply(opId)];
    CommitSends(self, w, p, z, hashes);
    CommitAnswers(self, w, p, s);
    LocalFirst(self, z, Continue, Locals(p.lost.commit) + trip);
    var a := z.(daemon := React(self, z.daemon, Continue));
    LossyTrip(self, a, p.lost.commit, opId, oracles,
              AdvanceAll(s, Op(CommitSync(self.machine, SidOf(p.o)), false, Begin), oracles),
              Committed(Receipt(p.later.minted, BaseOf(self, w) + 1)));
  }

  // ---- The whole call ----

  /** The call's own events: start, read unless the record stands, scan, prepare, one PUT
      for each hash the server misses, commit, each answered in turn. */
  ghost function CallRun(self: Self, w: World, p: Plan, has: Hash -> bool): seq<Event>
    requires Undisturbed(self, w, p)
  {
    var base := BaseOf(self, w);
    var need := Missing(w.server.store, Proposal(self, p, base), p.o, has);
    var read := ReadRun(w, p);
    var x := After(self, w, read);
    var prepare := PrepareRun(self, x, p, base, has);
    var y := After(self, x, prepare);
    var msg := |y.daemon.wire|;
    read + (prepare + (PutRun(need, |need|, p.lost, msg, p.next + 2, p.later)
                       + CommitRun(msg + PutsSent(p.lost, |need|), p.lost.commit, p.next + 2 + |need|,
                                   |Distinct(p.entries)|, p.later)))
  }

  lemma MissingAreUploadable(self: Self, w: World, p: Plan, has: Hash -> bool, y: World)
    requires Undisturbed(self, w, p) && AtUpload(self, w, p, has, y)
    ensures Uploads(self, y, Missing(w.server.store, Proposal(self, p, BaseOf(self, w)), p.o, has), p.later)
  {
    hide Uploadable, NeedOf, Distinct, BlobsOk, Honest, Parks;
    var call := Proposal(self, p, BaseOf(self, w));
    var session, need := OpenedSession(w.server.store, call, p.o), Missing(w.server.store, call, p.o, has);
    DistinctOnce(call.payload.entries);
    NeedIsExact(y.server.store, session, has, session.negotiated);
    forall h | h in need ensures Uploadable(y.server.store, SidOf(p.o), h, p.later.(bytes := h.content)) {
      NeededIsUploadable(w.server.store, call, p.o, p.later, h);
    }
  }

  lemma UploadsLand(self: Self, w: World, p: Plan, has: Hash -> bool, y: World)
    requires Undisturbed(self, w, p) && AtUpload(self, w, p, has, y)
    ensures
      var need := Missing(w.server.store, Proposal(self, p, BaseOf(self, w)), p.o, has);
      var z := After(self, y, PutRun(need, |need|, p.lost, |y.daemon.wire|, p.next + 2, p.later));
      && AtCommit(self, w, p, z, need) && Free(z, p.next + 2 + |need|)
      && |z.daemon.wire| == |y.daemon.wire| + PutsSent(p.lost, |need|)
  {
    hide After, PutRun, PutAll, Uploadable, OnlyRowsAdded, Complete, Halfway, Parks, PutAlone, NeedOf, Distinct,
         BlobsOk, Honest;
    var call := Proposal(self, p, BaseOf(self, w));
    var session := OpenedSession(w.server.store, call, p.o);
    var t, need := y.server.store, Missing(w.server.store, call, p.o, has);
    MissingAreUploadable(self, w, p, has, y);
    PutsLand(self, y, need, |need|, p.lost, p.next + 2, p.later);
    PutAllStores(t, SidOf(p.o), need, p.later);
    assert need[..|need|] == need;
    var u := PutAll(t, SidOf(p.o), need, p.later);
    CompleteAfter(w.server.store, u, call, p.o, has, p.later);
    SessionIsThere(t, u, SidOf(p.o), session.ns, need);
  }

  /** A call that nobody disturbs, each of whose requests is lost less often than it may be
      tried, ends with `synced`, the loop's current manifest is the
      scan, and the record is kept for the next call. */
  lemma UndisturbedCallSyncs(self: Self, w: World, p: Plan, has: Hash -> bool)
    requires Undisturbed(self, w, p)
    ensures Landed(self, w, p, After(self, w, CallRun(self, w, p, has)))
  {
    hide After, ReadRun, PrepareRun, PutRun, CommitRun, Landed, Missing, AtCommit, Smooth, BlobsOk, Honest, Distinct,
         Parks;
    var base := BaseOf(self, w);
    var call := Proposal(self, p, base);
    var need := Missing(w.server.store, call, p.o, has);
    var read := ReadRun(w, p);
    ReadLands(self, w, p);
    var x := After(self, w, read);
    var prepare := PrepareRun(self, x, p, base, has);
    PrepareLands(self, w, p, x, has);
    var y := After(self, x, prepare);
    var puts := PutRun(need, |need|, p.lost, |y.daemon.wire|, p.next + 2, p.later);
    UploadsLand(self, w, p, has, y);
    var z := After(self, y, puts);
    var commit := CommitRun(|z.daemon.wire|, p.lost.commit, p.next + 2 + |need|, |Distinct(p.entries)|, p.later);
    CommitLands(self, w, p, z, p.next + 2 + |need|, need);
    RunsJoin(self, w, read, prepare + (puts + commit));
    RunsJoin(self, x, prepare, puts + commit);
    RunsJoin(self, y, puts, commit);
  }
}
