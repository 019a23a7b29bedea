/**
 What each event of the watch manager brings about: which objects an applied set leaves in
 force, what an outcome stops, how an admission gets to its first round.
 */
module WatchEffects {
  import opened Wrappers
  import opened WatchManager
  import opened WatchSafety
  import opened WatchSteps

  // ---- An applied set ----

  /** The loops' entries point at objects of their loops. */
  ghost predicate StatesOk(m: Manager) { forall l :: l in m.states ==> StateOk(m, l) }

  /** A generation that was stopped: its round is aborted, its watcher no longer the object's. */
  function Halted(w: Watch): Watch {
    w.(generation := w.generation + 1, pending := None, aborted := true, watcher := None)
  }

  predicate Leaves(m: Manager, k: nat, wanted: set<LoopId>, l: LoopId) {
    l in m.states && m.states[l] < k && l !in wanted
  }

  ghost predicate WatchesStopped(m: Manager, k: nat, wanted: set<LoopId>, watches: seq<Watch>) {
    && |watches| == |m.watches|
    && forall p: nat :: p < |m.watches| ==>
         watches[p] == if p < k && IsCurrent(m, p) && m.watches[p].item.loopId !in wanted then Halted(m.watches[p])
                       else m.watches[p]
  }

  ghost predicate StatesStopped(m: Manager, k: nat, wanted: set<LoopId>, states: map<LoopId, Obj>) {
    && (forall l :: l in states <==> l in m.states && !Leaves(m, k, wanted, l))
    && (forall l :: l in states ==> states[l] == m.states[l])
  }

  /** The chain of a loop that leaves ends in the close of its watcher. */
  ghost predicate ChainStopped(m: Manager, k: nat, wanted: set<LoopId>, r: Manager, l: LoopId) {
    Chain(r, l) ==
      if Leaves(m, k, wanted, l) && m.states[l] < |m.watches|
      then Chain(m, l) + [Close(m.watches[m.states[l]].watcher, false)] else Chain(m, l)
  }

  /** What stopping the unwanted among the first k objects does. */
  ghost predicate UnwantedStopped(m: Manager, k: nat, wanted: set<LoopId>, r: Manager) {
    && r == m.(watches := r.watches, states := r.states, closes := r.closes)
    && WatchesStopped(m, k, wanted, r.watches) && StatesStopped(m, k, wanted, r.states)
    && forall l :: ChainStopped(m, k, wanted, r, l)
  }

  lemma {:induction false} StopsUnwanted(m: Manager, k: nat, wanted: set<LoopId>)
    requires StatesOk(m) && k <= |m.watches|
    ensures UnwantedStopped(m, k, wanted, StopAll(m, k, Unwanted(wanted)))
  {
    if k > 0 {
      StopsUnwanted(m, k - 1, wanted);
      StopsOneMore(m, k, wanted, StopAll(m, k - 1, Unwanted(wanted)));
    }
  }

  /** The k-th object leaves exactly when it is in force for an unwanted loop. */
  lemma LeavesNext(m: Manager, k: nat, wanted: set<LoopId>, l: LoopId)
    requires StatesOk(m) && 0 < k <= |m.watches|
    ensures
      var o := k - 1; var own := m.watches[o].item.loopId;
      Leaves(m, k, wanted, l) <==> Leaves(m, k - 1, wanted, l) || (l == own && IsCurrent(m, o) && own !in wanted)
  {
    if l in m.states { assert StateOk(m, l); }
  }

  lemma StopsOneMore(m: Manager, k: nat, wanted: set<LoopId>, r: Manager)
    requires StatesOk(m) && 0 < k <= |m.watches| && UnwantedStopped(m, k - 1, wanted, r)
    ensures UnwantedStopped(m, k, wanted, StopOne(r, k - 1, Unwanted(wanted)))
  {
    var o := k - 1;
    var own := m.watches[o].item.loopId;
    forall l ensures Leaves(m, k, wanted, l) <==>
      Leaves(m, k - 1, wanted, l) || (l == own && IsCurrent(m, o) && own !in wanted) {
      LeavesNext(m, k, wanted, l);
    }
    assert IsCurrent(r, o) <==> IsCurrent(m, o) by {
      if own in m.states { assert StateOk(m, own); }
      assert !(own in m.states && m.states[own] == o && Leaves(m, k - 1, wanted, own));
      if own in m.states && m.states[own] == o { assert own in r.states; }
    }
    if IsCurrent(m, o) && own !in wanted {
      StopsThis(m, k, wanted, r);
    } else {
      assert StopOne(r, o, Unwanted(wanted)) == r;
      hide Leaves, Chain, StopOne;
      forall l ensures ChainStopped(m, k, wanted, r, l) { assert ChainStopped(m, k - 1, wanted, r, l); }
      assert forall p: nat :: p < k && IsCurrent(m, p) && m.watches[p].item.loopId !in wanted ==> p < k - 1;
    }
  }

  lemma StopsThis(m: Manager, k: nat, wanted: set<LoopId>, r: Manager)
    requires 0 < k <= |m.watches| && UnwantedStopped(m, k - 1, wanted, r)
    requires var o := k - 1; IsCurrent(m, o) && IsCurrent(r, o) && m.watches[o].item.loopId !in wanted
    requires
      var o := k - 1; var own := m.watches[o].item.loopId;
      forall l :: Leaves(m, k, wanted, l) <==> Leaves(m, k - 1, wanted, l) || l == own
    ensures UnwantedStopped(m, k, wanted, StopOne(r, k - 1, Unwanted(wanted)))
  {
    var o := k - 1;
    var own := m.watches[o].item.loopId;
    var q := StopOne(r, o, Unwanted(wanted));
    assert q == r.(watches := r.watches[o := Halted(m.watches[o])], states := r.states - {own},
                   closes := r.closes[own := Chain(r, own) + [Close(m.watches[o].watcher, false)]]);
    assert q.watches[o] == Halted(m.watches[o]);
    assert !Leaves(m, k - 1, wanted, own) && m.states[own] == o;
    hide StopOne, Halted, IsCurrent, Leaves;
    assert WatchesStopped(m, k, wanted, q.watches);
    assert StatesStopped(m, k, wanted, q.states);
    forall l ensures ChainStopped(m, k, wanted, q, l) { assert ChainStopped(m, k - 1, wanted, r, l); }
  }

  // ---- One item ----

  /** The object in force for the item's loop may stay. */
  predicate Stays(m: Manager, item: Item) {
    && item.loopId in m.states && m.states[item.loopId] < |m.watches|
    && var w := m.watches[m.states[item.loopId]];
    w.item == item && w.status != Parked
  }

  /** The generation of a new object for the item. */
  function NewGeneration(m: Manager, item: Item): nat {
    if item.loopId in m.states && m.states[item.loopId] < |m.watches|
    then m.watches[m.states[item.loopId]].generation + 1 else 1
  }

  /** The object in force is replaced because its item changed. */
  predicate Replaced(m: Manager, item: Item) {
    && item.loopId in m.states && m.states[item.loopId] < |m.watches|
    && m.watches[m.states[item.loopId]].item != item
  }

  /** The object that stays is untouched. */
  ghost predicate Kept(m: Manager, n: Manager, item: Item)
    requires Stays(m, item)
  {
    var l, o := item.loopId, m.states[item.loopId];
    && l in n.states && n.states[l] == o && o < |n.watches| && n.watches[o] == m.watches[o]
    && Chain(n, l) == Chain(m, l)
  }

  /** A new object is about to be admitted; the old one, if its item changed, was stopped,
      and the close of its watcher joined the chain. */
  ghost predicate Renewed(m: Manager, n: Manager, item: Item) {
    var l, g := item.loopId, NewGeneration(m, item);
    && l in n.states && |m.watches| <= n.states[l] < |n.watches| && n.watches[n.states[l]] == NewWatch(item, g)
    && Admitted(m, n, n.states[l], g)
    && (if Replaced(m, item) then
          && m.states[l] < |n.watches| && n.watches[m.states[l]] == Halted(m.watches[m.states[l]])
          && Chain(n, l) == Chain(m, l) + [Close(m.watches[m.states[l]].watcher, false)]
        else Chain(n, l) == Chain(m, l))
  }

  /** A new job admits the object. */
  ghost predicate Admitted(m: Manager, n: Manager, o: Obj, g: nat) {
    exists t :: t in n.tasks && t >= m.nextTask && n.tasks[t] == Admission(o, g)
  }

  ghost predicate InForce(m: Manager, n: Manager, item: Item) {
    if Stays(m, item) then Kept(m, n, item) else Renewed(m, n, item)
  }

  /** Everything of the other loops is as it was. */
  ghost predicate OthersSame(m: Manager, n: Manager, touched: set<LoopId>) {
    && |m.watches| <= |n.watches| && m.nextTask <= n.nextTask
    && n.draining == m.draining && n.machineStopped == m.machineStopped && n.applied == m.applied && n.live == m.live
    && (forall l :: l !in touched ==> (l in n.states <==> l in m.states) && Chain(n, l) == Chain(m, l))
    && (forall l :: l !in touched && l in m.states ==> n.states[l] == m.states[l])
    && (forall p: nat :: p < |m.watches| && !(IsCurrent(m, p) && m.watches[p].item.loopId in touched) ==>
          n.watches[p] == m.watches[p])
    && (forall t :: t in m.tasks && t < m.nextTask ==> t in n.tasks && n.tasks[t] == m.tasks[t])
  }

  lemma ItemInForce(m: Manager, item: Item)
    requires StatesOk(m) && !m.draining && !m.machineStopped
    ensures var n := ReconcileItem(m, item); InForce(m, n, item) && OthersSame(m, n, {item.loopId}) && StatesOk(n)
  {
    var l := item.loopId;
    if l in m.states { assert StateOk(m, l); }
    if Stays(m, item) {
      assert ReconcileItem(m, item) == m;
    } else {
      var base := if Replaced(m, item) then StopLoop(m, m.states[l]) else m;
      assert ReconcileItem(m, item) == Install(base, item, NewGeneration(m, item));
      InstallIs(base, item, NewGeneration(m, item));
      hide ReconcileItem, Install;
      NewInForce(m, item, base);
    }
  }

  lemma NewInForce(m: Manager, item: Item, base: Manager)
    requires StatesOk(m) && !Stays(m, item)
    requires base == if Replaced(m, item) then StopLoop(m, m.states[item.loopId]) else m
    ensures
      var g := NewGeneration(m, item); var n := Spawn(Added(base, NewWatch(item, g)), Admission(|base.watches|, g));
      InForce(m, n, item) && OthersSame(m, n, {item.loopId}) && StatesOk(n)
  {
    var l, g := item.loopId, NewGeneration(m, item);
    var n := Spawn(Added(base, NewWatch(item, g)), Admission(|base.watches|, g));
    assert n.tasks[m.nextTask] == Admission(|m.watches|, g) && m.nextTask in n.tasks;
    assert Admitted(m, n, |m.watches|, g);
    forall k | k in n.states ensures StateOk(n, k) { if k != l { assert StateOk(m, k); } }
    hide StateOk, Admitted;
    assert Renewed(m, n, item);
    NewLeavesOthers(m, item, base);
    hide Renewed, OthersSame;
  }

  lemma NewLeavesOthers(m: Manager, item: Item, base: Manager)
    requires StatesOk(m) && base == if Replaced(m, item) then StopLoop(m, m.states[item.loopId]) else m
    ensures
      var g := NewGeneration(m, item); var n := Spawn(Added(base, NewWatch(item, g)), Admission(|base.watches|, g));
      OthersSame(m, n, {item.loopId})
  {
    var g := NewGeneration(m, item);
    var n := Spawn(Added(base, NewWatch(item, g)), Admission(|base.watches|, g));
    hide NewWatch;
    if item.loopId in m.states { assert StateOk(m, item.loopId); }
    assert forall k :: k != item.loopId ==> Chain(n, k) == Chain(m, k);
    hide Chain;
  }

  // ---- The whole set ----

  /** No two items of the set are of one loop. */
  ghost predicate OnePerLoop(items: seq<Item>) {
    forall i, j :: 0 <= i < j < |items| ==> items[i].loopId != items[j].loopId
  }

  function LoopsOf(items: seq<Item>): set<LoopId> { set i | i in items :: i.loopId }

  ghost predicate AllInForce(m: Manager, n: Manager, items: seq<Item>) {
    forall i :: 0 <= i < |items| ==> InForce(m, n, items[i])
  }

  /** What another loop's item does not touch. */
  lemma StillInForce(m: Manager, n: Manager, r: Manager, item: Item, last: Item)
    requires item.loopId != last.loopId && InForce(m, n, item) && StatesOk(m) && StatesOk(n)
    requires |m.watches| <= |n.watches| && OthersSame(n, r, {last.loopId})
    requires TasksBelow(n)
    ensures InForce(m, r, item)
  {
    var l := item.loopId;
    assert StateOk(n, l);
    if l in m.states { assert StateOk(m, l); }
    if !Stays(m, item) {
      assert Admitted(m, n, n.states[l], NewGeneration(m, item));
      var t :| t in n.tasks && t >= m.nextTask && n.tasks[t] == Admission(n.states[l], NewGeneration(m, item));
      assert r.tasks[t] == n.tasks[t];
      assert Admitted(m, r, n.states[l], NewGeneration(m, item));
    }
  }

  ghost predicate TasksBelow(m: Manager) { forall t :: t in m.tasks ==> t < m.nextTask }

  lemma OthersJoin(m: Manager, n: Manager, r: Manager, before: set<LoopId>, last: LoopId)
    requires StatesOk(m) && TasksBelow(m) && OthersSame(m, n, before) && OthersSame(n, r, {last}) && last !in before
    ensures OthersSame(m, r, before + {last})
  {
    hide Chain;
    forall p: nat | p < |m.watches| && !(IsCurrent(m, p) && m.watches[p].item.loopId in before + {last})
      ensures r.watches[p] == m.watches[p]
    {
      assert n.watches[p] == m.watches[p];
    }
  }

  lemma ItemTasksBelow(m: Manager, item: Item)
    requires TasksBelow(m) && !m.draining && !m.machineStopped
    ensures TasksBelow(ReconcileItem(m, item))
  {
  }

  ghost predicate SetInForce(m: Manager, n: Manager, items: seq<Item>) {
    AllInForce(m, n, items) && OthersSame(m, n, LoopsOf(items)) && StatesOk(n) && TasksBelow(n)
  }

  lemma SetGrows(m: Manager, n: Manager, items: seq<Item>)
    requires StatesOk(m) && TasksBelow(m) && !m.draining && !m.machineStopped && items != [] && OnePerLoop(items)
    requires SetInForce(m, n, items[..|items| - 1])
    ensures SetInForce(m, ReconcileItem(n, items[|items| - 1]), items)
  {
    var less, last := items[..|items| - 1], items[|items| - 1];
    var r := ReconcileItem(n, last);
    hide ReconcileItem, InForce, StatesOk, TasksBelow, LoopsOf, OnePerLoop, OthersSame;
    LastLoop(items);
    FlagsSame(m, n, LoopsOf(less));
    ItemInForce(n, last);
    ItemTasksBelow(n, last);
    OthersJoin(m, n, r, LoopsOf(less), last.loopId);
    FirstMet(m, n, r, last, LoopsOf(less));
    ItemsStay(m, n, r, items);
  }

  lemma ItemsStay(m: Manager, n: Manager, r: Manager, items: seq<Item>)
    requires items != [] && OnePerLoop(items) && AllInForce(m, n, items[..|items| - 1]) && StatesOk(m) && StatesOk(n)
    requires |m.watches| <= |n.watches| && TasksBelow(n) && OthersSame(n, r, {items[|items| - 1].loopId})
    requires InForce(m, r, items[|items| - 1])
    ensures AllInForce(m, r, items)
  {
    var less, last := items[..|items| - 1], items[|items| - 1];
    hide InForce, StatesOk, TasksBelow, OnePerLoop, OthersSame;
    forall i | 0 <= i < |items| ensures InForce(m, r, items[i]) {
      if i < |less| {
        assert InForce(m, n, less[i]);
        OtherLoop(items, i);
        StillInForce(m, n, r, less[i], last);
      }
    }
  }

  lemma OtherLoop(items: seq<Item>, i: nat)
    requires i < |items| - 1 && OnePerLoop(items)
    ensures items[i].loopId != items[|items| - 1].loopId
  {
  }

  lemma {:induction false} ItemsInForce(m: Manager, items: seq<Item>)
    requires StatesOk(m) && TasksBelow(m) && !m.draining && !m.machineStopped && OnePerLoop(items)
    ensures SetInForce(m, ReconcileItems(m, items), items)
  {
    if items == [] {
      assert LoopsOf(items) == {};
    } else {
      LastLoop(items);
      hide SetInForce, ReconcileItem, StatesOk, TasksBelow, OnePerLoop;
      ItemsInForce(m, items[..|items| - 1]);
      SetGrows(m, ReconcileItems(m, items[..|items| - 1]), items);
    }
  }

  lemma LastLoop(items: seq<Item>)
    requires items != [] && OnePerLoop(items)
    ensures
      var less, last := items[..|items| - 1], items[|items| - 1];
      OnePerLoop(less) && last.loopId !in LoopsOf(less) && LoopsOf(items) == LoopsOf(less) + {last.loopId}
  {
    var less, last := items[..|items| - 1], items[|items| - 1];
    assert items == less + [last];
    assert forall x :: x in items <==> x in less || x == last;
  }

  lemma FlagsSame(m: Manager, n: Manager, touched: set<LoopId>)
    requires OthersSame(m, n, touched)
    ensures n.draining == m.draining && n.machineStopped == m.machineStopped && |m.watches| <= |n.watches|
  {
  }

  /** The items before have not touched the last one's loop. */
  lemma FirstMet(m: Manager, n: Manager, r: Manager, item: Item, before: set<LoopId>)
    requires StatesOk(m) && OthersSame(m, n, before) && item.loopId !in before && InForce(n, r, item)
    ensures InForce(m, r, item)
  {
    var l := item.loopId;
    if l in m.states { assert StateOk(m, l) && n.watches[m.states[l]] == m.watches[m.states[l]]; }
    assert Stays(n, item) <==> Stays(m, item);
    assert NewGeneration(n, item) == NewGeneration(m, item) && Replaced(n, item) == Replaced(m, item);
    if !Stays(m, item) {
      assert Admitted(n, r, r.states[l], NewGeneration(n, item));
      assert Admitted(m, r, r.states[l], NewGeneration(m, item));
    }
  }

  /** A loop that left the set: its object was stopped, and its watcher is being closed. */
  ghost predicate Gone(m: Manager, n: Manager, l: LoopId) {
    l in m.states ==>
      && m.states[l] < |m.watches| && m.states[l] < |n.watches|
      && n.watches[m.states[l]] == Halted(m.watches[m.states[l]])
      && Chain(n, l) == Chain(m, l) + [Close(m.watches[m.states[l]].watcher, false)]
  }

  /** What an accepted set that differs from the one in force leaves behind. */
  ghost predicate Reconciled(m: Manager, n: Manager, items: seq<Item>) {
    && n.applied == items && !n.machineStopped && !n.draining && n.states.Keys == LoopsOf(items)
    && AllInForce(m, n, items) && (forall l :: l !in LoopsOf(items) ==> Gone(m, n, l))
  }

  lemma BridgeItem(m: Manager, k: Manager, n: Manager, wanted: set<LoopId>, item: Item)
    requires StatesOk(m) && UnwantedStopped(m, |m.watches|, wanted, k) && item.loopId in wanted && InForce(k, n, item)
    ensures InForce(m, n, item)
  {
    var l := item.loopId;
    if l in m.states { assert StateOk(m, l); }
    assert ChainStopped(m, |m.watches|, wanted, k, l);
    assert Stays(k, item) <==> Stays(m, item);
    assert NewGeneration(k, item) == NewGeneration(m, item) && Replaced(k, item) == Replaced(m, item);
    if !Stays(m, item) {
      assert Admitted(k, n, n.states[l], NewGeneration(k, item));
      assert Admitted(m, n, n.states[l], NewGeneration(m, item));
    }
  }

  lemma BridgeGone(m: Manager, k: Manager, n: Manager, items: seq<Item>, l: LoopId)
    requires StatesOk(m) && UnwantedStopped(m, |m.watches|, LoopsOf(items), k) && OthersSame(k, n, LoopsOf(items))
    requires l !in LoopsOf(items)
    ensures Gone(m, n, l) && l !in n.states
  {
    if l in m.states {
      assert StateOk(m, l);
      assert ChainStopped(m, |m.watches|, LoopsOf(items), k, l);
      assert IsCurrent(m, m.states[l]) && k.watches[m.states[l]] == Halted(m.watches[m.states[l]]);
    } else {
      assert ChainStopped(m, |m.watches|, LoopsOf(items), k, l);
    }
  }

  lemma SameStart(m: Manager, was: Manager, n: Manager, item: Item)
    requires was == m.(applied := was.applied, machineStopped := was.machineStopped) && InForce(was, n, item)
    ensures InForce(m, n, item)
  {
    if !Stays(m, item) {
      assert Admitted(was, n, n.states[item.loopId], NewGeneration(was, item));
      assert Admitted(m, n, n.states[item.loopId], NewGeneration(m, item));
    }
  }

  lemma SameGone(m: Manager, was: Manager, n: Manager, l: LoopId)
    requires was == m.(applied := was.applied, machineStopped := was.machineStopped) && Gone(was, n, l)
    ensures Gone(m, n, l)
  {
  }

  lemma StoppedIsFit(m: Manager, k: Manager, wanted: set<LoopId>)
    requires StatesOk(m) && TasksBelow(m) && UnwantedStopped(m, |m.watches|, wanted, k)
    ensures StatesOk(k) && TasksBelow(k) && k.draining == m.draining && k.machineStopped == m.machineStopped
    ensures k.applied == m.applied
  {
    forall l | l in k.states ensures StateOk(k, l) { assert StateOk(m, l); }
  }

  lemma AppliedStays(m: Manager, n: Manager, touched: set<LoopId>)
    requires OthersSame(m, n, touched)
    ensures n.applied == m.applied
  {
  }

  lemma InForceIsThere(m: Manager, n: Manager, items: seq<Item>, i: nat)
    requires i < |items| && InForce(m, n, items[i])
    ensures items[i].loopId in n.states
  {
  }

  lemma FlagsFit(m: Manager, items: seq<Item>)
    requires StatesOk(m) && TasksBelow(m)
    ensures var was := m.(applied := items, machineStopped := false); StatesOk(was) && TasksBelow(was)
  {
    var was := m.(applied := items, machineStopped := false);
    forall l | l in was.states ensures StateOk(was, l) { assert StateOk(m, l); }
  }

  lemma ApplyIs(m: Manager, items: seq<Item>)
    requires !m.draining && !SameWatchSet(m.applied, items)
    ensures
      var was := m.(applied := items, machineStopped := false);
      Apply(m, items) == ReconcileItems(StopAll(was, |was.watches|, Unwanted(LoopsOf(items))), items)
  {
    hide SameWatchSet, StopAll, ReconcileItems;
  }

  lemma ReconciledIs(m: Manager, n: Manager, items: seq<Item>)
    requires n.applied == items && !n.machineStopped && !n.draining
    requires forall i :: 0 <= i < |items| ==> InForce(m, n, items[i]) && items[i].loopId in n.states
    requires forall l :: l !in LoopsOf(items) ==> Gone(m, n, l) && l !in n.states
    ensures Reconciled(m, n, items)
  {
    hide InForce, Gone;
    assert n.states.Keys == LoopsOf(items);
  }

  lemma ApplyReconciles(m: Manager, items: seq<Item>)
    requires StatesOk(m) && TasksBelow(m) && !m.draining && !SameWatchSet(m.applied, items) && OnePerLoop(items)
    ensures Reconciled(m, Apply(m, items), items)
  {
    hide *;
    var was, wanted := m.(applied := items, machineStopped := false), LoopsOf(items);
    var k := StopAll(was, |was.watches|, Unwanted(wanted));
    var n := ReconcileItems(k, items);
    ApplyIs(m, items);
    FlagsFit(m, items);
    StopsUnwanted(was, |was.watches|, wanted);
    StoppedIsFit(was, k, wanted);
    ItemsInForce(k, items);
    SetInForceMeans(k, n, items);
    FlagsSame(k, n, wanted);
    AppliedStays(k, n, wanted);
    forall i | 0 <= i < |items| ensures InForce(m, n, items[i]) && items[i].loopId in n.states {
      WantedLoop(items, i);
      BridgeItem(was, k, n, wanted, items[i]);
      SameStart(m, was, n, items[i]);
      InForceIsThere(m, n, items, i);
    }
    forall l | l !in wanted ensures Gone(m, n, l) && l !in n.states {
      BridgeGone(was, k, n, items, l);
      SameGone(m, was, n, l);
    }
    ReconciledIs(m, n, items);
  }

  lemma SetInForceMeans(m: Manager, n: Manager, items: seq<Item>)
    requires SetInForce(m, n, items)
    ensures OthersSame(m, n, LoopsOf(items)) && forall i :: 0 <= i < |items| ==> InForce(m, n, items[i])
  {
    hide InForce, OthersSame;
  }

  lemma WantedLoop(items: seq<Item>, i: nat)
    requires i < |items|
    ensures items[i].loopId in LoopsOf(items)
  {
  }

  // ---- Which sets are the same ----

  function SetOf(items: seq<Item>): set<Item> { set i | i in items }

  lemma {:induction false} LastItemIn(items: seq<Item>, l: LoopId)
    ensures LastItem(items, l).Some? ==> LastItem(items, l).value in items && LastItem(items, l).value.loopId == l
  {
    if items != [] {
      LastItemIn(items[..|items| - 1], l);
      assert items == items[..|items| - 1] + [items[|items| - 1]];
    }
  }

  lemma {:induction false} LastItemIs(items: seq<Item>, x: Item)
    requires OnePerLoop(items) && x in items
    ensures LastItem(items, x.loopId) == Some(x)
  {
    var less, last := items[..|items| - 1], items[|items| - 1];
    assert items == less + [last];
    var k :| 0 <= k < |items| && items[k] == x;
    if k < |less| {
      assert items[k].loopId != items[|items| - 1].loopId;
      assert less[k] == x;
      LastItemIs(less, x);
    }
  }

  lemma {:induction false} SetOfSize(items: seq<Item>)
    ensures |SetOf(items)| <= |items| && (OnePerLoop(items) ==> |SetOf(items)| == |items|)
  {
    if items == [] {
      assert SetOf(items) == {};
    } else {
      var less, last := items[..|items| - 1], items[|items| - 1];
      assert items == less + [last];
      SetOfSize(less);
      assert SetOf(items) == SetOf(less) + {last};
      if OnePerLoop(items) {
        LastLoop(items);
        assert last !in SetOf(less);
      }
    }
  }

  lemma SameSize(a: set<Item>, b: set<Item>)
    requires b <= a && |a| <= |b|
    ensures a == b
  {
    assert a == b + (a - b);
    assert |a - b| == 0;
  }

  /** A set is the one in force already exactly when it names the same items, in whatever
      order, for sets that name each loop once. */
  lemma SameSetIsSame(a: seq<Item>, b: seq<Item>)
    requires OnePerLoop(a) && OnePerLoop(b)
    ensures SameWatchSet(a, b) <==> SetOf(a) == SetOf(b)
  {
    SetOfSize(a);
    SetOfSize(b);
    hide OnePerLoop;
    if SameWatchSet(a, b) {
      forall x | x in SetOf(b) ensures x in SetOf(a) {
        var i :| 0 <= i < |b| && b[i] == x;
        LastItemIn(a, x.loopId);
      }
      SameSize(SetOf(a), SetOf(b));
    } else if SetOf(a) == SetOf(b) {
      forall i | 0 <= i < |b| ensures LastItem(a, b[i].loopId) == Some(b[i]) {
        assert b[i] in SetOf(a);
        LastItemIs(a, b[i]);
      }
    }
  }
}
