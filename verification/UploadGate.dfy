/**
 The daemon-global upload gate. A released permit is handed to the longest
 waiting caller instead of being freed and taken again. Every stretch between
 two awaits is one step: entering, being cancelled while parked, resuming after
 a hand-off, and finishing.
 */
module UploadGate {
  import opened UniqueSeq

  type Caller = nat

  /** `held` and `waiting` are the gate's own variables. The rest remembers where
      each caller is: `woken` got a permit but has not resumed, `running` executes
      its task, `granted` lists permits in the order they were given, `queue` the
      callers that ever asked and were not cancelled while parked. */
  datatype Gate = Gate(limit: nat, held: int, waiting: seq<Caller>, woken: set<Caller>, running: set<Caller>,
                       granted: seq<Caller>, queue: seq<Caller>)

  datatype Step =
    | Enter(who: Caller, aborted: bool)
    | Cancel(who: Caller)
    | Resume(who: Caller, aborted: bool)
    | Finish(who: Caller)

  /** The `finally` of a caller that held a permit. */
  function Release(g: Gate): Gate {
    if g.waiting == [] then g.(held := g.held - 1)
    else g.(waiting := g.waiting[1..], woken := g.woken + {g.waiting[0]}, granted := g.granted + [g.waiting[0]])
  }

  function Next(g: Gate, step: Step): Gate {
    match step
    case Enter(who, aborted) =>
      if aborted || who in g.queue then g   // every call is a new caller
      else if g.held >= g.limit then g.(waiting := g.waiting + [who], queue := g.queue + [who])
      else g.(held := g.held + 1, running := g.running + {who}, granted := g.granted + [who], queue := g.queue + [who])
    case Cancel(who) =>
      if who in g.waiting then g.(waiting := Without(g.waiting, who), queue := Without(g.queue, who)) else g
    case Resume(who, aborted) =>
      if who !in g.woken then g
      else if aborted then Release(g.(woken := g.woken - {who}))
      else g.(woken := g.woken - {who}, running := g.running + {who})
    case Finish(who) =>
      if who in g.running then Release(g.(running := g.running - {who})) else g
  }

  function Run(g: Gate, steps: seq<Step>): Gate {
    if steps == [] then g else Next(Run(g, steps[..|steps| - 1]), steps[|steps| - 1])
  }

  function Open(limit: nat): Gate { Gate(limit, 0, [], {}, {}, [], []) }

  ghost predicate GateOk(g: Gate) {
    && g.held == |g.woken| + |g.running| && g.held <= g.limit
    && (g.waiting != [] ==> g.held == g.limit)
    && g.queue == g.granted + g.waiting && Distinct(g.queue)
    && g.woken !! g.running
    && (forall x :: x in g.woken || x in g.running ==> x in g.granted)
  }

  lemma GrantedApart(granted: seq<Caller>, waiting: seq<Caller>, i: nat)
    requires Distinct(granted + waiting) && i < |waiting|
    ensures waiting[i] !in granted
  {
    forall j | 0 <= j < |granted| ensures granted[j] != waiting[i] {
      assert (granted + waiting)[j] == granted[j] && (granted + waiting)[|granted| + i] == waiting[i];
    }
  }

  lemma ReleaseKeeps(g: Gate)
    requires g.held == |g.woken| + |g.running| + 1 && g.held <= g.limit && (g.waiting != [] ==> g.held == g.limit)
    requires g.queue == g.granted + g.waiting && Distinct(g.queue) && g.woken !! g.running
    requires forall x :: x in g.woken || x in g.running ==> x in g.granted
    ensures GateOk(Release(g)) && Release(g).limit == g.limit
  {
    if g.waiting != [] {
      assert g.queue == (g.granted + [g.waiting[0]]) + g.waiting[1..];
      GrantedApart(g.granted, g.waiting, 0);
    }
  }

  lemma NextKeeps(g: Gate, step: Step)
    requires GateOk(g)
    ensures GateOk(Next(g, step)) && Next(g, step).limit == g.limit
  {
    hide Distinct, Without, Release;
    match step
    case Enter(who, aborted) => if !aborted && who !in g.queue { EnterKeeps(g, who); }
    case Cancel(who) => if who in g.waiting { CancelKeeps(g, who); }
    case Resume(who, aborted) =>
      if who in g.woken && aborted { ReleaseKeeps(g.(woken := g.woken - {who})); }
    case Finish(who) =>
      if who in g.running { ReleaseKeeps(g.(running := g.running - {who})); }
  }

  lemma EnterKeeps(g: Gate, who: Caller)
    requires GateOk(g) && who !in g.queue
    ensures GateOk(Next(g, Enter(who, false)))
  {
    assert Distinct(g.queue + [who]);
    assert forall x :: x in g.granted ==> x in g.granted + g.waiting;
    if g.held < g.limit { assert g.queue + [who] == (g.granted + [who]) + []; }
    else { assert g.queue + [who] == g.granted + (g.waiting + [who]); }
  }

  lemma CancelKeeps(g: Gate, who: Caller)
    requires GateOk(g) && who in g.waiting
    ensures GateOk(Next(g, Cancel(who)))
  {
    var i :| 0 <= i < |g.waiting| && g.waiting[i] == who;
    GrantedApart(g.granted, g.waiting, i);
    WithoutAppend(g.granted, g.waiting, who);
    WithoutAbsent(g.granted, who);
    WithoutDistinct(g.queue, who);
  }

  /** Over any run: permits held are exactly the running and woken callers, never
      above the limit; a caller waits only while every permit is held; and permits
      are granted in arrival order, skipping only cancelled callers. */
  lemma {:induction false} GateIsSafe(limit: nat, steps: seq<Step>)
    ensures GateOk(Run(Open(limit), steps)) && Run(Open(limit), steps).limit == limit
  {
    if steps != [] {
      GateIsSafe(limit, steps[..|steps| - 1]);
      NextKeeps(Run(Open(limit), steps[..|steps| - 1]), steps[|steps| - 1]);
    }
  }

  /** A cancelled waiter neither takes nor leaks a permit, and the others keep their
      places in the queue. */
  lemma CancelIsNeutral(limit: nat, steps: seq<Step>, who: Caller)
    ensures
      var g := Run(Open(limit), steps); var h := Next(g, Cancel(who));
      && h.held == g.held && h.woken == g.woken && h.running == g.running && h.granted == g.granted
      && (who !in g.waiting ==> h == g)
      && (who in g.waiting ==>
            exists i :: 0 <= i < |g.waiting| && g.waiting[i] == who && h.waiting == g.waiting[..i] + g.waiting[i + 1..])
  {
    GateIsSafe(limit, steps);
    var g := Run(Open(limit), steps);
    if who in g.waiting {
      var i :| 0 <= i < |g.waiting| && g.waiting[i] == who;
      WaitersDistinct(g.granted, g.waiting);
      WithoutCuts(g.waiting, i);
    }
  }

  lemma WaitersDistinct(granted: seq<Caller>, waiting: seq<Caller>)
    requires Distinct(granted + waiting)
    ensures Distinct(waiting)
  {
    forall i, j | 0 <= i < j < |waiting| ensures waiting[i] != waiting[j] {
      var n := |granted|;
      assert (granted + waiting)[n + i] == waiting[i] && (granted + waiting)[n + j] == waiting[j];
    }
  }

  /** What the callers inside still have to do. */
  function Load(g: Gate): nat { 3 * |g.waiting| + 2 * |g.woken| + |g.running| }

  /** No permit is lost: while anyone is inside, some caller can move, each such
      move brings the gate closer to empty, and an empty gate holds no permit. */
  lemma GateDrains(limit: nat, steps: seq<Step>)
    requires limit > 0
    ensures
      var g := Run(Open(limit), steps);
      && (Load(g) == 0 ==> g.held == 0)
      && (Load(g) > 0 ==> g.woken + g.running != {})
      && (forall who, aborted :: who in g.woken ==> Load(Next(g, Resume(who, aborted))) < Load(g))
      && (forall who :: who in g.running ==> Load(Next(g, Finish(who))) < Load(g))
  {
    GateIsSafe(limit, steps);
    var g := Run(Open(limit), steps);
    if g.woken + g.running == {} { assert g.woken == {} && g.running == {}; }
    forall who, aborted | who in g.woken ensures Load(Next(g, Resume(who, aborted))) < Load(g) {
      ReleaseLoad(g.(woken := g.woken - {who}));
      assert |g.running + {who}| == |g.running| + 1;
    }
    forall who | who in g.running ensures Load(Next(g, Finish(who))) < Load(g) {
      ReleaseLoad(g.(running := g.running - {who}));
    }
  }

  lemma ReleaseLoad(g: Gate)
    ensures Load(Release(g)) <= Load(g)
  {
    if g.waiting != [] && g.waiting[0] !in g.woken { assert |g.woken + {g.waiting[0]}| == |g.woken| + 1; }
  }

  /** The gate object: two variables changed in place. `callers` is the state of
      the specification it is proved against. */
  class UploadGate {
    const limit: nat
    var held: int
    var waiting: seq<Caller>
    ghost var callers: Gate

    ghost predicate Valid()
      reads this
    {
      GateOk(callers) && callers.limit == limit && callers.held == held && callers.waiting == waiting
    }

    constructor (limit: nat)
      ensures Valid() && this.limit == limit && callers == Open(limit)
    {
      this.limit := limit;
      held, waiting, callers := 0, [], Open(limit);
    }

    /** True when the caller starts at once, false when the caller parks or is refused. */
    method Enter(who: Caller, aborted: bool) returns (started: bool)
      requires Valid() && who !in callers.queue
      modifies this
      ensures Valid() && callers == Next(old(callers), Step.Enter(who, aborted))
      ensures started == (who in callers.running && who !in old(callers.running))
    {
      ghost var was := callers;
      NextKeeps(was, Step.Enter(who, aborted));
      callers := Next(was, Step.Enter(who, aborted));
      if aborted { return false; }
      if held >= limit {
        waiting := waiting + [who];
        started := false;
      } else {
        held := held + 1;
        started := true;
      }
    }

    method Cancel(who: Caller)
      requires Valid()
      modifies this
      ensures Valid() && callers == Next(old(callers), Step.Cancel(who))
    {
      NextKeeps(callers, Step.Cancel(who));
      callers := Next(callers, Step.Cancel(who));
      var index := 0;
      while index < |waiting| && waiting[index] != who
        invariant index <= |waiting| && who !in waiting[..index]
      {
        index := index + 1;
      }
      if index < |waiting| {
        RemovesAt(waiting, index, who, old(callers));
        waiting := waiting[..index] + waiting[index + 1..];
      } else {
        assert waiting[..index] == waiting;
      }
    }

    /** A woken caller whose signal fired releases at once; otherwise it runs. */
    method Resume(who: Caller, aborted: bool)
      requires Valid() && who in callers.woken
      modifies this
      ensures Valid() && callers == Next(old(callers), Step.Resume(who, aborted))
    {
      NextKeeps(callers, Step.Resume(who, aborted));
      callers := Next(callers, Step.Resume(who, aborted));
      if aborted { HandOff(); }
    }

    method Finish(who: Caller)
      requires Valid() && who in callers.running
      modifies this
      ensures Valid() && callers == Next(old(callers), Step.Finish(who))
    {
      NextKeeps(callers, Step.Finish(who));
      callers := Next(callers, Step.Finish(who));
      HandOff();
    }

    method HandOff()
      modifies this`held, this`waiting
      ensures held == (if old(waiting) == [] then old(held) - 1 else old(held))
      ensures waiting == (if old(waiting) == [] then [] else old(waiting)[1..])
    {
      if waiting == [] { held := held - 1; } else { waiting := waiting[1..]; }
    }
  }

  lemma RemovesAt(s: seq<Caller>, index: nat, who: Caller, g: Gate)
    requires index < |s| && s[index] == who && who !in s[..index] && GateOk(g) && g.waiting == s
    ensures Without(s, who) == s[..index] + s[index + 1..]
  {
    var rest := s[index + 1..];
    assert s == s[..index] + ([who] + rest);
    forall j | 0 <= j < |rest| ensures rest[j] != who {
      assert g.queue[|g.granted| + index + 1 + j] == rest[j] && g.queue[|g.granted| + index] == who;
    }
    WithoutAppend(s[..index], [who] + rest, who);
    WithoutAbsent(s[..index], who);
    WithoutAbsent(rest, who);
    assert ([who] + rest)[1..] == rest;
    assert Without([who] + rest, who) == rest;
  }
}
