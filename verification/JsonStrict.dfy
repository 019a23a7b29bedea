/**
 The wire layer's strict JSON check: the same explicit-stack walk as the
 terminal-state cloner, without sizes. It builds a probe in which an object met
 again is replaced by `null`, and finally hands that probe to the engine's own
 recursive serializer, which fails beyond some nesting depth.
 */
module JsonStrict {
  import opened Wrappers
  import opened JsonGraph
  import opened JsonWalk

  // ---- The probe ----

  /** The references that the probe `a` of `v` expands. */
  ghost function Expanded(g: Graph, v: Value, a: Tree): set<Ref>
    decreases a
  {
    if a.Branch? && v.Ptr? && v.r in g then {v.r} + ExpandedKids(g, g[v.r], a.kids) else {}
  }

  ghost function ExpandedKids(g: Graph, n: Node, kids: seq<Tree>): set<Ref>
    decreases kids
  {
    if kids == [] || |kids| > Slots(n) || Child(n, |kids| - 1).None? then {}
    else ExpandedKids(g, n, kids[..|kids| - 1]) + Expanded(g, Child(n, |kids| - 1).value, kids[|kids| - 1])
  }

  /** `a` is what a depth-first walk builds from `v` when it replaces every reference
      in `seen`, and every one it meets again, by `null`. */
  ghost predicate IsProbe(g: Graph, v: Value, a: Tree, seen: set<Ref>)
    decreases a
  {
    match a
    case Leaf(w) => if v.Ptr? then v.r in seen && w == Null else LeafOk(true, v) && w == v
    case Branch(shape, kids) =>
      && v.Ptr? && v.r in g && v.r !in seen && !g[v.r].Foreign?
      && shape == ShapeOf(g[v.r]) && |kids| == Slots(g[v.r])
      && ProbeKids(g, g[v.r], kids, seen + {v.r})
  }

  ghost predicate ProbeKids(g: Graph, n: Node, kids: seq<Tree>, seen: set<Ref>)
    decreases kids
  {
    && |kids| <= Slots(n)
    && (kids != [] ==>
          var less := kids[..|kids| - 1];
          && Child(n, |less|).Some? && ProbeKids(g, n, less, seen)
          && IsProbe(g, Child(n, |less|).value, kids[|less|], seen + ExpandedKids(g, n, less)))
  }

  lemma {:induction false} ProbeUnique(g: Graph, v: Value, a: Tree, b: Tree, seen: set<Ref>)
    requires IsProbe(g, v, a, seen) && IsProbe(g, v, b, seen)
    ensures a == b
    decreases a
  {
    if a.Branch? { ProbeKidsUnique(g, g[v.r], a.kids, b.kids, seen + {v.r}); }
  }

  lemma {:induction false} ProbeKidsUnique(g: Graph, n: Node, a: seq<Tree>, b: seq<Tree>, seen: set<Ref>)
    requires |a| == |b| && ProbeKids(g, n, a, seen) && ProbeKids(g, n, b, seen)
    ensures a == b
    decreases a
  {
    if a != [] {
      var less := a[..|a| - 1];
      ProbeKidsUnique(g, n, less, b[..|b| - 1], seen);
      ProbeUnique(g, Child(n, |less|).value, a[|less|], b[|less|], seen + ExpandedKids(g, n, less));
      assert a == less + [a[|less|]] && b == less + [b[|less|]];
    }
  }

  /** The probe is never deeper than the whole tree. */
  lemma {:induction false} ProbeDepth(g: Graph, v: Value, a: Tree, t: Tree, seen: set<Ref>)
    requires IsProbe(g, v, a, seen) && Denotes(true, g, v, t)
    ensures Depth(a) <= Depth(t)
    decreases a
  {
    if a.Branch? { ProbeKidDepth(g, g[v.r], a.kids, t.kids, seen + {v.r}); }
  }

  lemma {:induction false} ProbeKidDepth(g: Graph, n: Node, a: seq<Tree>, kids: seq<Tree>, seen: set<Ref>)
    requires |a| == |kids| && ProbeKids(g, n, a, seen)
    requires forall i :: 0 <= i < |kids| ==> Child(n, i).Some? && Denotes(true, g, Child(n, i).value, kids[i])
    ensures KidDepth(a) <= KidDepth(kids)
    decreases a
  {
    if a != [] {
      var less := a[..|a| - 1];
      ProbeKidDepth(g, n, less, kids[..|kids| - 1], seen);
      ProbeDepth(g, Child(n, |less|).value, a[|less|], kids[|less|], seen + ExpandedKids(g, n, less));
    }
  }

  /** Nothing is shared: the unfolding meets no reference twice. */
  ghost predicate MetOnce(g: Graph, v: Value, t: Tree)
    decreases t
  {
    t.Branch? && v.Ptr? && v.r in g ==> KidsMetOnce(g, g[v.r], t.kids, {v.r})
  }

  ghost predicate KidsMetOnce(g: Graph, n: Node, kids: seq<Tree>, above: set<Ref>)
    decreases kids
  {
    kids != [] && |kids| <= Slots(n) && Child(n, |kids| - 1).Some? ==>
      var less := kids[..|kids| - 1];
      && KidsMetOnce(g, n, less, above) && MetOnce(g, Child(n, |less|).value, kids[|less|])
      && Expanded(g, Child(n, |less|).value, kids[|less|]) !! above + ExpandedKids(g, n, less)
  }

  /** Without sharing the probe is the whole tree. */
  lemma {:induction false} UnsharedProbe(g: Graph, v: Value, t: Tree, seen: set<Ref>)
    requires Denotes(true, g, v, t) && MetOnce(g, v, t) && Expanded(g, v, t) !! seen
    ensures IsProbe(g, v, t, seen)
    decreases t
  {
    if t.Branch? { UnsharedKids(g, g[v.r], t.kids, {v.r}, seen + {v.r}); }
  }

  lemma {:induction false} UnsharedKids(g: Graph, n: Node, kids: seq<Tree>, above: set<Ref>, seen: set<Ref>)
    requires |kids| <= Slots(n) && KidsMetOnce(g, n, kids, above) && ExpandedKids(g, n, kids) !! seen - above
    requires forall i :: 0 <= i < |kids| ==> Child(n, i).Some? && Denotes(true, g, Child(n, i).value, kids[i])
    ensures ProbeKids(g, n, kids, seen)
    decreases kids
  {
    if kids != [] {
      var less := kids[..|kids| - 1];
      UnsharedKids(g, n, less, above, seen);
      UnsharedProbe(g, Child(n, |less|).value, kids[|less|], seen + ExpandedKids(g, n, less));
    }
  }

  // ---- What the walk has built so far ----

  /** What was seen before frame k was opened. */
  ghost function Entry(g: Graph, frames: seq<Frame<seq<Tree>>>, k: nat): set<Ref>
    requires k <= |frames|
  {
    if k == 0 then {}
    else
      var f := frames[k - 1];
      Entry(g, frames, k - 1) + {f.r} + if f.r in g then ExpandedKids(g, g[f.r], f.acc) else {}
  }

  lemma {:induction false} EntryFrame(g: Graph, a: seq<Frame<seq<Tree>>>, b: seq<Frame<seq<Tree>>>, k: nat)
    requires k <= |a| && k <= |b| && forall j :: 0 <= j < k ==> a[j].r == b[j].r && a[j].acc == b[j].acc
    ensures Entry(g, a, k) == Entry(g, b, k)
  {
    if k > 0 { EntryFrame(g, a, b, k - 1); }
  }

  /** The first `n` children of a frame's object have their probes. */
  ghost predicate ProbedAt(g: Graph, f: Frame<seq<Tree>>, n: nat, entry: set<Ref>) {
    f.r in g && f.r !in entry && |f.acc| == n && ProbeKids(g, g[f.r], f.acc, entry + {f.r})
  }

  ghost predicate Probed(g: Graph, frames: seq<Frame<seq<Tree>>>, pending: Option<Value>) {
    forall k :: 0 <= k < |frames| ==> ProbedAt(g, frames[k], Attached(frames, pending, k), Entry(g, frames, k))
  }

  ghost predicate Marked(frames: seq<Frame<seq<Tree>>>, done: seq<Ref>, seen: set<Ref>, active: set<Ref>) {
    && (forall r :: r in active <==> Open(frames, r))
    && (forall r :: r in seen <==> r in active || r in done)
  }

  ghost predicate Inv(g: Graph, root: Ref, frames: seq<Frame<seq<Tree>>>, pending: Option<Value>, done: seq<Ref>,
                      seen: set<Ref>, active: set<Ref>)
  {
    && Walk(true, g, root, frames, pending, done)
    && Probed(g, frames, pending)
    && Marked(frames, done, seen, active)
  }

  lemma ProbedTop(g: Graph, frames: seq<Frame<seq<Tree>>>, pending: Option<Value>, f: Frame<seq<Tree>>,
                  pending': Option<Value>)
    requires Probed(g, frames, pending) && frames != [] && f.r == frames[|frames| - 1].r
    requires ProbedAt(g, f, if pending'.Some? && f.index > 0 then f.index - 1 else f.index,
                      Entry(g, frames, |frames| - 1))
    ensures Probed(g, frames[|frames| - 1 := f], pending')
  {
    hide ProbeKids, Entry;
    var after := frames[|frames| - 1 := f];
    forall k | 0 <= k < |after| ensures ProbedAt(g, after[k], Attached(after, pending', k), Entry(g, after, k)) {
      assert ProbedAt(g, frames[k], Attached(frames, pending, k), Entry(g, frames, k));
      EntryFrame(g, frames, after, k);
    }
  }

  lemma ProbeAppended(g: Graph, f: Frame<seq<Tree>>, n: nat, entry: set<Ref>, v: Value, probe: Tree)
    requires ProbedAt(g, f, n, entry) && n < Slots(g[f.r]) && Child(g[f.r], n) == Some(v)
    requires IsProbe(g, v, probe, entry + {f.r} + ExpandedKids(g, g[f.r], f.acc))
    ensures ProbedAt(g, f.(acc := f.acc + [probe]), n + 1, entry)
    ensures ExpandedKids(g, g[f.r], f.acc + [probe]) == ExpandedKids(g, g[f.r], f.acc) + Expanded(g, v, probe)
  {
    assert (f.acc + [probe])[..n] == f.acc;
  }

  /** The awaited value is known and its probe is attached. */
  lemma AttachStep(g: Graph, root: Ref, frames: seq<Frame<seq<Tree>>>, v: Value, done: seq<Ref>,
                   seen: set<Ref>, active: set<Ref>, probe: Tree)
    requires Inv(g, root, frames, Some(v), done, seen, active)
    requires frames != [] && Known(true, v, done) && IsProbe(g, v, probe, Entry(g, frames, |frames|))
    ensures var top := frames[|frames| - 1]; var after := frames[|frames| - 1 := top.(acc := top.acc + [probe])];
            && Inv(g, root, after, None, done, seen, active)
            && Entry(g, after, |after|) == Entry(g, frames, |frames|) + Expanded(g, v, probe)
  {
    hide Settled, SlotsOk, IsProbe, ProbeKids, ExpandedKids, Expanded;
    var last := |frames| - 1;
    var top := frames[last];
    var f := top.(acc := top.acc + [probe]);
    assert FrameOk(true, g, frames, Some(v), done, last);
    WalkTake(true, g, root, frames, v, done, f.acc);
    assert ProbedAt(g, top, Attached(frames, Some(v), last), Entry(g, frames, last));
    ProbeAppended(g, top, top.index - 1, Entry(g, frames, last), v, probe);
    ProbedTop(g, frames, Some(v), f, None);
    OpenSame(frames, frames[last := f]);
    EntryFrame(g, frames, frames[last := f], last);
  }

  lemma AskStep(g: Graph, root: Ref, frames: seq<Frame<seq<Tree>>>, done: seq<Ref>, seen: set<Ref>, active: set<Ref>)
    requires Inv(g, root, frames, None, done, seen, active) && frames != []
    requires var top := frames[|frames| - 1];
             && top.r in g && top.index < Slots(g[top.r])
             && SlotOk(true, g[top.r], top.index) && Child(g[top.r], top.index).Some?
    ensures var top := frames[|frames| - 1]; var after := frames[|frames| - 1 := top.(index := top.index + 1)];
            && Inv(g, root, after, Child(g[top.r], top.index), done, seen, active)
            && Entry(g, after, |after|) == Entry(g, frames, |frames|)
  {
    hide Settled, SlotsOk, ProbeKids, Entry, SlotOk;
    var last := |frames| - 1;
    var f := frames[last].(index := frames[last].index + 1);
    WalkAsk(true, g, root, frames, done, f.acc);
    assert f == Frame(f.r, f.index, f.acc);
    assert ProbedAt(g, frames[last], Attached(frames, None, last), Entry(g, frames, last));
    ProbedTop(g, frames, None, f, Child(g[f.r], f.index - 1));
    OpenSame(frames, frames[last := f]);
    EntryFrame(g, frames, frames[last := f], |frames|);
  }

  lemma OpenStep(g: Graph, root: Ref, frames: seq<Frame<seq<Tree>>>, r: Ref, done: seq<Ref>,
                 seen: set<Ref>, active: set<Ref>)
    requires Inv(g, root, frames, Some(Ptr(r)), done, seen, active) && r in g && !g[r].Foreign? && r !in seen
    requires seen == Entry(g, frames, |frames|)
    ensures var after := frames + [Frame(r, 0, [])];
            && Inv(g, root, after, None, done, seen + {r}, active + {r})
            && Entry(g, after, |after|) == seen + {r}
  {
    hide Settled, SlotsOk, ExpandedKids, Entry;
    var after: seq<Frame<seq<Tree>>> := frames + [Frame(r, 0, [])];
    assert forall k :: 0 <= k < |frames| ==> Open(frames, frames[k].r);
    WalkOpen(true, g, root, frames, r, done, []);
    OpenPush(frames, after[|frames|]);
    forall k | 0 <= k < |after| ensures ProbedAt(g, after[k], Attached(after, None, k), Entry(g, after, k)) {
      EntryFrame(g, frames, after, k);
      if k < |frames| { assert ProbedAt(g, frames[k], Attached(frames, Some(Ptr(r)), k), Entry(g, frames, k)); }
    }
    EntryFrame(g, frames, after, |frames|);
    EntryAbove(g, after, |frames|);
    NothingExpanded(g, g[r]);
  }

  lemma NothingExpanded(g: Graph, n: Node)
    ensures ExpandedKids(g, n, []) == {}
  {
  }

  lemma EntryAbove(g: Graph, frames: seq<Frame<seq<Tree>>>, k: nat)
    requires k < |frames| && frames[k].r in g
    ensures Entry(g, frames, k + 1)
      == Entry(g, frames, k) + {frames[k].r} + ExpandedKids(g, g[frames[k].r], frames[k].acc)
    ensures Entry(g, frames, 0) == {}
  {
  }

  lemma CloseStep(g: Graph, root: Ref, frames: seq<Frame<seq<Tree>>>, done: seq<Ref>, seen: set<Ref>, active: set<Ref>)
    requires Inv(g, root, frames, None, done, seen, active) && frames != []
    requires frames[|frames| - 1].r in g && frames[|frames| - 1].index == Slots(g[frames[|frames| - 1].r])
    ensures var top := frames[|frames| - 1];
            var rest := frames[..|frames| - 1];
            && !g[top.r].Foreign? && Settled(true, g, done + [top.r]) && top.r in done + [top.r]
            && var probe := Branch(ShapeOf(g[top.r]), top.acc);
            && IsProbe(g, Ptr(top.r), probe, Entry(g, rest, |rest|))
            && Entry(g, frames, |frames|) == Entry(g, rest, |rest|) + Expanded(g, Ptr(top.r), probe)
            && (rest != [] ==> Inv(g, root, rest, Some(Ptr(top.r)), done + [top.r], seen, active - {top.r}))
            && (rest == [] ==> top.r == root && Entry(g, rest, |rest|) == {})
  {
    hide ProbeKids, ExpandedKids, Entry;
    var last := |frames| - 1;
    var top := frames[last];
    var rest := frames[..last];
    assert FrameOk(true, g, frames, None, done, last);
    assert ProbedAt(g, top, Attached(frames, None, last), Entry(g, frames, last));
    EntryFrame(g, frames, rest, last);
    EntryAbove(g, frames, last);
    SettledGrows(true, g, done, top.r);
    assert (done + [top.r])[|done|] == top.r;
    if rest != [] {
      WalkReturn(true, g, root, frames, done);
      MarkedRest(frames, done, seen, active);
      RestProbed(g, frames);
    }
  }

  lemma RestProbed(g: Graph, frames: seq<Frame<seq<Tree>>>)
    requires Probed(g, frames, None) && |frames| > 1
    ensures Probed(g, frames[..|frames| - 1], Some(Ptr(frames[|frames| - 1].r)))
  {
    hide ProbeKids, Entry;
    var last := |frames| - 1;
    var rest, v := frames[..last], Ptr(frames[last].r);
    forall k | 0 <= k < |rest| ensures ProbedAt(g, rest[k], Attached(rest, Some(v), k), Entry(g, rest, k)) {
      EntryFrame(g, frames, rest, k);
      assert ProbedAt(g, frames[k], Attached(frames, None, k), Entry(g, frames, k));
    }
  }

  lemma MarkedRest(frames: seq<Frame<seq<Tree>>>, done: seq<Ref>, seen: set<Ref>, active: set<Ref>)
    requires Marked(frames, done, seen, active) && frames != []
    requires forall k :: 0 <= k < |frames| - 1 ==> frames[k].r != frames[|frames| - 1].r
    ensures Marked(frames[..|frames| - 1], done + [frames[|frames| - 1].r], seen, active - {frames[|frames| - 1].r})
  {
    var top := frames[|frames| - 1];
    var rest := frames[..|frames| - 1];
    assert frames == rest + [top];
    OpenPush(rest, top);
    assert !Open(rest, top.r);
    assert Open(frames, top.r);
  }

  // ---- The check ----

  datatype Run = Run(events: seq<Event<seq<Tree>>>, seen: set<Ref>, active: set<Ref>, probe: Option<Tree>, valid: bool)
  datatype View = View(frames: seq<Frame<seq<Tree>>>, pending: Option<Value>, done: seq<Ref>)

  ghost predicate Good(g: Graph, root: Ref, s: Run, w: View) {
    if !s.valid then !HasTree(true, g, Ptr(root))
    else if s.events == [] then
      Settled(true, g, w.done) && root in w.done && s.probe.Some? && IsProbe(g, Ptr(root), s.probe.value, {})
    else
      && s.events == Stack(w.frames, w.pending)
      && Inv(g, root, w.frames, w.pending, w.done, s.seen, s.active)
      && s.seen == Entry(g, w.frames, |w.frames|)
      && (w.frames == [] ==> w.pending.Some? && w.done == [])
  }

  ghost predicate Progress(g: Graph, s: Run, w: View, s': Run, w': View) {
    || !s'.valid
    || (g.Keys - s'.seen < g.Keys - s.seen)
    || (s.seen == s'.seen && RoomLeft(g, w'.frames) < RoomLeft(g, w.frames))
    || (s.seen == s'.seen && RoomLeft(g, w'.frames) == RoomLeft(g, w.frames) && |s'.events| < |s.events|)
  }

  lemma FramesInRange(g: Graph, root: Ref, frames: seq<Frame<seq<Tree>>>, pending: Option<Value>, done: seq<Ref>)
    requires Walk(true, g, root, frames, pending, done)
    ensures forall k :: 0 <= k < |frames| ==>
              frames[k].r in g && !g[frames[k].r].Foreign? && frames[k].index <= Slots(g[frames[k].r])
  {
    forall k | 0 <= k < |frames|
      ensures frames[k].r in g && !g[frames[k].r].Foreign? && frames[k].index <= Slots(g[frames[k].r])
    {
      assert FrameOk(true, g, frames, pending, done, k);
    }
  }

  method Attach(g: Graph, ghost root: Ref, s: Run, v: Value, probe: Tree, ghost w: View)
    returns (s': Run, ghost w': View)
    requires s.valid && s.events == Stack(w.frames, None) && w.frames != []
    requires Inv(g, root, w.frames, Some(v), w.done, s.seen, s.active) && Known(true, v, w.done)
    requires IsProbe(g, v, probe, Entry(g, w.frames, |w.frames|))
    requires s.seen == Entry(g, w.frames, |w.frames|) + Expanded(g, v, probe)
    ensures Good(g, root, s', w') && s'.seen == s.seen && s'.valid
    ensures |s'.events| == |s.events| && RoomLeft(g, w'.frames) == RoomLeft(g, w.frames)
  {
    hide Inv, Known, IsProbe, Expanded, Entry, RoomLeft;
    AttachStep(g, root, w.frames, v, w.done, s.seen, s.active, probe);
    var parent := s.events[|s.events| - 1].frame;
    var extended := parent.(acc := parent.acc + [probe]);
    s' := s.(events := s.events[|s.events| - 1 := Next(extended)]);
    w' := View(w.frames[|w.frames| - 1 := extended], None, w.done);
    SameRoomLeft(g, w.frames, w'.frames);
  }

  method VisitEvent(g: Graph, ghost root: Ref, before: Run, ghost w: View) returns (s': Run, ghost w': View)
    requires Closed(g) && root in g && before.valid && before.events != [] && Good(g, root, before, w)
    requires before.events[|before.events| - 1].Visit?
    ensures Good(g, root, s', w') && Progress(g, before, w, s', w')
  {
    hide Probed, Denotes, Settled, SlotsOk, RoomLeft, ProbeKids, ExpandedKids, Entry;
    var v := before.events[|before.events| - 1].value;
    var s := before.(events := before.events[..|before.events| - 1]);
    s', w' := s, w;
    if (!v.Ptr? && !LeafOk(true, v)) || (v.Ptr? && v.r !in s.active && v.r !in s.seen && v.r in g && g[v.r].Foreign?) {
      ValueRejects(true, g, root, w.frames, v, w.done);
      s' := s.(valid := false);
    } else if v.Ptr? && v.r in s.active {
      ghost var j :| 0 <= j < |w.frames| && w.frames[j].r == v.r;
      CycleRejects(true, g, root, w.frames, j, w.done);
      s' := s.(valid := false);
    } else if v.Ptr? && v.r !in s.seen {
      PendingResolves(g, root, w.frames, v.r, w.done);
      OpenStep(g, root, w.frames, v.r, w.done, s.seen, s.active);
      s' := s.(seen := s.seen + {v.r}, active := s.active + {v.r}, events := s.events + [Next(Frame(v.r, 0, []))]);
      w' := View(w.frames + [Frame(v.r, 0, [])], None, w.done);
      assert v.r in g.Keys - s.seen && v.r !in g.Keys - s'.seen;
    } else {
      var probe := if v.Ptr? then Leaf(Null) else Leaf(v);
      s', w' := Attach(g, root, s, v, probe, w);
    }
  }

  lemma PendingResolves(g: Graph, root: Ref, frames: seq<Frame<seq<Tree>>>, r: Ref, done: seq<Ref>)
    requires Closed(g) && root in g && Walk(true, g, root, frames, Some(Ptr(r)), done)
    ensures r in g
  {
    if frames != [] {
      assert FrameOk(true, g, frames, Some(Ptr(r)), done, |frames| - 1);
    }
  }

  /** All slots of the top frame are probed: the object is valid. */
  method CloseEvent(g: Graph, ghost root: Ref, before: Run, ghost w: View) returns (s': Run, ghost w': View)
    requires Closed(g) && root in g && before.valid && before.events != [] && Good(g, root, before, w)
    requires before.events[|before.events| - 1].Next? && before.events[|before.events| - 1].frame.r in g
    requires before.events[|before.events| - 1].frame.index >= Slots(g[before.events[|before.events| - 1].frame.r])
    ensures Good(g, root, s', w') && Progress(g, before, w, s', w')
  {
    hide Probed, IsProbe, Expanded, Entry, Denotes, Settled, SlotsOk, Walk, Marked;
    var frame := before.events[|before.events| - 1].frame;
    FramesInRange(g, root, w.frames, w.pending, w.done);
    CloseStep(g, root, w.frames, w.done, before.seen, before.active);
    var s := before.(events := before.events[..|before.events| - 1], active := before.active - {frame.r});
    var probe := Branch(ShapeOf(g[frame.r]), frame.acc);
    w' := View(w.frames[..|w.frames| - 1], None, w.done + [frame.r]);
    if s.events == [] {
      s' := s.(probe := Some(probe));
    } else {
      assert s.events == Stack(w'.frames, None);
      s', w' := Attach(g, root, s, Ptr(frame.r), probe, w');
    }
  }

  method NextEvent(g: Graph, ghost root: Ref, before: Run, ghost w: View) returns (s': Run, ghost w': View)
    requires Closed(g) && root in g && before.valid && before.events != [] && Good(g, root, before, w)
    requires before.events[|before.events| - 1].Next? && before.events[|before.events| - 1].frame.r in g
    ensures Good(g, root, s', w') && Progress(g, before, w, s', w')
  {
    hide Probed, IsProbe, Expanded, Entry, Denotes, Settled, SlotsOk, Walk, Marked;
    var frame := before.events[|before.events| - 1].frame;
    var n := g[frame.r];
    if frame.index >= Slots(n) {
      s', w' := CloseEvent(g, root, before, w);
      return;
    }
    var s := before.(events := before.events[..|before.events| - 1]);
    FramesInRange(g, root, w.frames, w.pending, w.done);
    if Child(n, frame.index).None? {
      SlotRejects(true, g, root, w.frames, w.done);
      s', w' := s.(valid := false), w;
    } else {
      var child := Child(n, frame.index).value;
      var asked := frame.(index := frame.index + 1);
      AskStep(g, root, w.frames, w.done, s.seen, s.active);
      s' := s.(events := s.events + [Next(asked), Visit(child)]);
      w' := View(w.frames[|w.frames| - 1 := asked], Some(child), w.done);
      RoomFalls(g, w.frames, asked);
      assert s'.events == Stack(w'.frames, w'.pending);
    }
  }

  /** The check on an object, as the object schema calls it. `engineDepth` is the
      deepest nesting the engine's serializer survives. */
  method IsStrictJsonValue(g: Graph, root: Ref, engineDepth: nat) returns (ok: bool)
    requires Closed(g) && root in g
    ensures ok <==>
      HasTree(true, g, Ptr(root)) && exists a :: IsProbe(g, Ptr(root), a, {}) && Depth(a) <= engineDepth
    ensures (exists t :: Denotes(true, g, Ptr(root), t) && Depth(t) <= engineDepth) ==> ok
    ensures forall t :: Denotes(true, g, Ptr(root), t) && MetOnce(g, Ptr(root), t) ==> (ok <==> Depth(t) <= engineDepth)
  {
    hide Inv, Denotes, RoomLeft, Settled, IsProbe, MetOnce, Depth;
    var s := Run([Visit(Ptr(root))], {}, {}, None, true);
    ghost var w := View([], Some(Ptr(root)), []);
    StartIsGood(g, root, s, w);
    while |s.events| > 0 && s.valid
      invariant Good(g, root, s, w)
      decreases s.valid, g.Keys - s.seen, RoomLeft(g, w.frames), |s.events|
    {
      if s.events[|s.events| - 1].Visit? {
        s, w := VisitEvent(g, root, s, w);
      } else {
        TopInHeap(g, root, s, w);
        s, w := NextEvent(g, root, s, w);
      }
    }
    if !s.valid {
      ok := false;
      assert forall t :: Denotes(true, g, Ptr(root), t) ==> HasTree(true, g, Ptr(root));
    } else {
      ok := Depth(s.probe.value) <= engineDepth;
      forall t | Denotes(true, g, Ptr(root), t)
        ensures Depth(s.probe.value) <= Depth(t) && (MetOnce(g, Ptr(root), t) ==> t == s.probe.value)
      {
        ProbeDepth(g, Ptr(root), s.probe.value, t, {});
        if MetOnce(g, Ptr(root), t) {
          UnsharedProbe(g, Ptr(root), t, {});
          ProbeUnique(g, Ptr(root), s.probe.value, t, {});
        }
      }
      forall a | IsProbe(g, Ptr(root), a, {}) ensures a == s.probe.value {
        ProbeUnique(g, Ptr(root), a, s.probe.value, {});
      }
      KnownHasTree(true, g, w.done, Ptr(root));
    }
  }

  lemma TopInHeap(g: Graph, root: Ref, s: Run, w: View)
    requires Good(g, root, s, w) && s.valid && s.events != [] && s.events[|s.events| - 1].Next?
    ensures s.events[|s.events| - 1].frame.r in g
  {
    FramesInRange(g, root, w.frames, w.pending, w.done);
  }

  lemma StartIsGood(g: Graph, root: Ref, s: Run, w: View)
    requires s == Run([Visit(Ptr(root))], {}, {}, None, true) && w == View([], Some(Ptr(root)), [])
    ensures Good(g, root, s, w)
  {
    assert s.events == Stack(w.frames, w.pending);
  }
}
