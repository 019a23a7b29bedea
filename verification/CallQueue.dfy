/**
 The per-loop chain of sync calls. Each call hangs itself behind the tail it
 finds, holds its slot until it is done or cancelled, and replaces the tail. A
 settled tail that is still the newest is dropped from the map.
 */
module CallQueue {
  import opened Wrappers

  datatype Status = Queued | Running | Over(started: bool)

  /** One call: the call it waits for (None when the chain was empty), and where it is. */
  datatype Call = Call(prev: Option<nat>, status: Status)

  /** `tail` is the map entry of this loop; `outstanding` counts work in progress;
      `order` lists the calls that started, oldest first. */
  datatype Chain = Chain(calls: seq<Call>, tail: Option<nat>, outstanding: int, order: seq<nat>)

  datatype Step = Enqueue | Start(k: nat) | Cancel(k: nat) | Finish(k: nat) | DropTail

  /** The tail promise of call k: everything before it is settled and its own slot
      is released. */
  predicate Settled(c: Chain, k: nat)
    requires k < |c.calls|
    decreases k, 1
  {
    c.calls[k].status.Over? && Ready(c, k)
  }

  predicate Ready(c: Chain, k: nat)
    requires k < |c.calls|
    decreases k, 0
  {
    c.calls[k].prev.None? || (c.calls[k].prev.value < k && Settled(c, c.calls[k].prev.value))
  }

  function SetStatus(c: Chain, k: nat, s: Status): Chain
    requires k < |c.calls|
  {
    c.(calls := c.calls[k := c.calls[k].(status := s)])
  }

  predicate CanStart(c: Chain, k: nat) { k < |c.calls| && c.calls[k].status.Queued? && Ready(c, k) }

  function Next(c: Chain, step: Step): Chain
  {
    match step
    case Enqueue =>
      c.(calls := c.calls + [Call(c.tail, Queued)], tail := Some(|c.calls|), outstanding := c.outstanding + 1)
    case Start(k) =>
      if CanStart(c, k) then SetStatus(c, k, Running).(order := c.order + [k]) else c
    case Cancel(k) =>
      if k < |c.calls| && c.calls[k].status.Queued? then SetStatus(c, k, Over(false)).(outstanding := c.outstanding - 1)
        else c
    case Finish(k) =>
      if k < |c.calls| && c.calls[k].status.Running? then SetStatus(c, k, Over(true)).(outstanding := c.outstanding - 1)
        else c
    case DropTail =>
      if c.tail.Some? && c.tail.value < |c.calls| && Settled(c, c.tail.value) then c.(tail := None) else c
  }

  const EMPTY := Chain([], None, 0, [])

  /** How many calls are queued or running. */
  function Busy(calls: seq<Call>): nat {
    if calls == [] then 0 else Busy(calls[..|calls| - 1]) + (if calls[|calls| - 1].status.Over? then 0 else 1)
  }

  ghost predicate AllOver(c: Chain, n: nat) { n <= |c.calls| && forall j :: 0 <= j < n ==> c.calls[j].status.Over? }

  /** Links go to the direct predecessor, or to nothing once everything before is over. */
  ghost predicate LinksOk(c: Chain) {
    forall k :: 0 <= k < |c.calls| ==>
      c.calls[k].prev == Some(k - 1) || (c.calls[k].prev.None? && AllOver(c, k))
  }

  ghost predicate TailOk(c: Chain) {
    if |c.calls| == 0 then c.tail.None?
    else c.tail == Some(|c.calls| - 1) || (c.tail.None? && AllOver(c, |c.calls|))
  }

  /** Whoever is not queued any more and really ran had everything before it over. */
  ghost predicate TurnsOk(c: Chain) {
    && (forall k :: 0 <= k < |c.calls| && c.calls[k].status.Running? ==> AllOver(c, k) && k in c.order)
    && (forall i, j :: 0 <= i < j < |c.order| ==> c.order[i] < c.order[j])
    && (forall i :: 0 <= i < |c.order| ==>
        c.order[i] < |c.calls| && AllOver(c, c.order[i]) && !c.calls[c.order[i]].status.Queued?)
  }

  ghost predicate ChainOk(c: Chain) {
    && LinksOk(c) && TailOk(c) && TurnsOk(c) && c.outstanding == Busy(c.calls)
  }

  /** A tail is settled exactly when every call up to it is over. */
  lemma {:induction false} SettledIffAllOver(c: Chain, k: nat)
    requires LinksOk(c) && k < |c.calls|
    ensures Settled(c, k) <==> AllOver(c, k + 1)
  {
    if c.calls[k].prev.Some? { SettledIffAllOver(c, k - 1); }
  }

  lemma {:induction false} BusyUpdate(calls: seq<Call>, k: nat, call: Call)
    requires k < |calls|
    ensures Busy(calls[k := call])
      == Busy(calls) - (if calls[k].status.Over? then 0 else 1) + (if call.status.Over? then 0 else 1)
  {
    var n := |calls| - 1;
    if k == n {
      assert calls[k := call][..n] == calls[..n];
    } else {
      assert calls[k := call][..n] == calls[..n][k := call];
      BusyUpdate(calls[..n], k, call);
    }
  }

  lemma EnqueueKeeps(c: Chain)
    requires ChainOk(c)
    ensures ChainOk(Next(c, Enqueue))
  {
    var d := Next(c, Enqueue);
    assert d.calls[..|d.calls| - 1] == c.calls;
    forall n | AllOver(c, n) ensures AllOver(d, n) {}
    forall k | 0 <= k < |d.calls| ensures d.calls[k].prev == Some(k - 1) || (d.calls[k].prev.None? && AllOver(d, k)) {
      if k < |c.calls| { assert d.calls[k] == c.calls[k]; }
    }
    forall i | 0 <= i < |d.order|
      ensures d.order[i] < |d.calls| && AllOver(d, d.order[i]) && !d.calls[d.order[i]].status.Queued? {
      assert c.order[i] == d.order[i] && d.calls[d.order[i]] == c.calls[d.order[i]];
    }
  }

  /** A call that was not over moves on: whatever was over stays over. */
  lemma OverStays(c: Chain, k: nat, s: Status)
    requires k < |c.calls| && !c.calls[k].status.Over?
    ensures forall n :: AllOver(c, n) ==> AllOver(SetStatus(c, k, s), n)
  {
  }

  lemma LinksStay(c: Chain, k: nat, s: Status)
    requires k < |c.calls| && !c.calls[k].status.Over? && LinksOk(c) && TailOk(c)
    ensures LinksOk(SetStatus(c, k, s)) && TailOk(SetStatus(c, k, s))
  {
    OverStays(c, k, s);
    hide AllOver;
  }

  lemma StartKeeps(c: Chain, k: nat)
    requires ChainOk(c) && CanStart(c, k)
    ensures ChainOk(Next(c, Start(k)))
  {
    BusyUpdate(c.calls, k, c.calls[k].(status := Running));
    OverStays(c, k, Running);
    LinksStay(c, k, Running);
    if c.calls[k].prev.Some? { SettledIffAllOver(c, k - 1); }
    assert AllOver(c, k);
    hide LinksOk, TailOk, Ready;
    forall i | 0 <= i < |c.order| ensures c.order[i] < k {
      assert AllOver(c, c.order[i]) && c.order[i] != k;
    }
  }

  lemma EndKeeps(c: Chain, k: nat, started: bool)
    requires ChainOk(c) && k < |c.calls| && !c.calls[k].status.Over?
    ensures ChainOk(SetStatus(c, k, Over(started)).(outstanding := c.outstanding - 1))
  {
    BusyUpdate(c.calls, k, c.calls[k].(status := Over(started)));
    OverStays(c, k, Over(started));
    LinksStay(c, k, Over(started));
    var d := SetStatus(c, k, Over(started));
    assert LinksOk(d.(outstanding := c.outstanding - 1)) && TailOk(d.(outstanding := c.outstanding - 1)) by {
      assert forall n :: AllOver(d, n) == AllOver(d.(outstanding := c.outstanding - 1), n);
    }
    hide LinksOk, TailOk, Busy;
  }

  lemma NextKeeps(c: Chain, step: Step)
    requires ChainOk(c)
    ensures ChainOk(Next(c, step))
  {
    match step
    case Enqueue => EnqueueKeeps(c);
    case Start(k) => if CanStart(c, k) { StartKeeps(c, k); }
    case Cancel(k) => if k < |c.calls| && c.calls[k].status.Queued? { EndKeeps(c, k, false); }
    case Finish(k) => if k < |c.calls| && c.calls[k].status.Running? { EndKeeps(c, k, true); }
    case DropTail =>
      if c.tail.Some? && c.tail.value < |c.calls| { SettledIffAllOver(c, c.tail.value); }
  }

  /** The running call is the one that started last, and whoever may start comes after
      every call that did. */
  lemma RunningIsLast(c: Chain, k: nat)
    requires ChainOk(c) && k < |c.calls|
    ensures c.calls[k].status.Running? ==> c.order != [] && c.order[|c.order| - 1] == k
    ensures CanStart(c, k) ==> AllOver(c, k) && (c.order != [] ==> c.order[|c.order| - 1] < k)
  {
    if c.calls[k].status.Running? {
      var i :| 0 <= i < |c.order| && c.order[i] == k;
      assert AllOver(c, c.order[|c.order| - 1]);
    }
    if CanStart(c, k) && c.calls[k].prev.Some? { SettledIffAllOver(c, k - 1); }
  }

  function Run(steps: seq<Step>): Chain {
    if steps == [] then EMPTY else Next(Run(steps[..|steps| - 1]), steps[|steps| - 1])
  }

  lemma {:induction false} RunOk(steps: seq<Step>)
    ensures ChainOk(Run(steps))
  {
    if steps != [] {
      RunOk(steps[..|steps| - 1]);
      NextKeeps(Run(steps[..|steps| - 1]), steps[|steps| - 1]);
    }
  }

  /** Over any run, cancelled calls included: at most one call runs, calls start in
      the order they were made, and the work counter is the number of calls that
      are queued or running, so it is zero exactly when all are over. */
  lemma RoundsNeverOverlap(steps: seq<Step>)
    ensures
      var c := Run(steps);
      && (forall i, j ::
            0 <= i < |c.calls| && 0 <= j < |c.calls| && c.calls[i].status.Running? && c.calls[j].status.Running? ==>
              i == j)
      && (forall a, b :: 0 <= a < b < |c.order| ==> c.order[a] < c.order[b])
      && c.outstanding == Busy(c.calls) && (c.outstanding == 0 <==> AllOver(c, |c.calls|))
  {
    RunOk(steps);
    BusyZero(Run(steps).calls);
  }

  lemma {:induction false} BusyZero(calls: seq<Call>)
    ensures Busy(calls) == 0 <==> forall j :: 0 <= j < |calls| ==> calls[j].status.Over?
  {
    if calls != [] {
      var n := |calls| - 1;
      BusyZero(calls[..n]);
      assert forall j :: 0 <= j < n ==> calls[..n][j] == calls[j];
    }
  }

  /** A queued call may start exactly when everything called before it is over. */
  lemma ReadyIffFirst(steps: seq<Step>, k: nat)
    requires k < |Run(steps).calls|
    ensures Ready(Run(steps), k) <==> AllOver(Run(steps), k)
  {
    RunOk(steps);
    var c := Run(steps);
    if c.calls[k].prev.Some? { SettledIffAllOver(c, k - 1); }
  }
}
