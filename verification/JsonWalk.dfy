/**
 The part shared by the two explicit-stack traversals of a JavaScript heap: the
 event stack, and the invariant that ties it to the depth-first unfolding.
 */
module JsonWalk {
  import opened Wrappers
  import opened JsonGraph

  /** A cursor over one open object. `acc` is what the traversal accumulates:
      bytes for the cloner, probe subtrees for the wire check. */
  datatype Frame<A> = Frame(r: Ref, index: nat, acc: A)

  /** An attach callback always targets the frame right beneath its event. */
  datatype Event<A> = Visit(value: Value) | Next(frame: Frame<A>)

  function Stack<A>(frames: seq<Frame<A>>, pending: Option<Value>): (events: seq<Event<A>>)
    ensures |events| == |frames| + if pending.Some? then 1 else 0
    ensures forall i :: 0 <= i < |frames| ==> events[i] == Next(frames[i])
    ensures pending.Some? ==> events[|frames|] == Visit(pending.value)
  {
    seq(|frames|, i requires 0 <= i < |frames| => Next(frames[i])) +
    if pending.Some? then [Visit(pending.value)] else []
  }

  ghost predicate Known(wire: bool, v: Value, done: seq<Ref>) {
    if v.Ptr? then v.r in done else LeafOk(wire, v)
  }

  ghost predicate SlotsOk(wire: bool, n: Node, upto: nat, done: seq<Ref>) {
    && !n.Foreign? && upto <= Slots(n)
    && forall j :: 0 <= j < upto ==> SlotOk(wire, n, j) && Child(n, j).Some? && Known(wire, Child(n, j).value, done)
  }

  /** Finished references are legal, and listed after everything they point to. */
  ghost predicate Settled(wire: bool, g: Graph, done: seq<Ref>) {
    forall i :: 0 <= i < |done| ==> done[i] in g && SlotsOk(wire, g[done[i]], Slots(g[done[i]]), done[..i])
  }

  ghost predicate Waiting<A>(frames: seq<Frame<A>>, pending: Option<Value>, k: nat) {
    k + 1 < |frames| || pending.Some?
  }

  /** How many slots of frame `k` already have their child attached. */
  ghost function Attached<A>(frames: seq<Frame<A>>, pending: Option<Value>, k: nat): nat
    requires k < |frames|
  {
    if Waiting(frames, pending, k) && frames[k].index > 0 then frames[k].index - 1 else frames[k].index
  }

  /** The value frame `k` is waiting for. */
  ghost function Awaited<A>(frames: seq<Frame<A>>, pending: Option<Value>, k: nat): Value
    requires k < |frames| && Waiting(frames, pending, k)
  {
    if k + 1 < |frames| then Ptr(frames[k + 1].r) else pending.value
  }

  ghost predicate FrameOk<A>(wire: bool, g: Graph, frames: seq<Frame<A>>, pending: Option<Value>, done: seq<Ref>,
                             k: nat)
    requires k < |frames|
  {
    && frames[k].r in g && frames[k].r !in done
    && frames[k].index <= Slots(g[frames[k].r])
    && SlotsOk(wire, g[frames[k].r], Attached(frames, pending, k), done)
    && (Waiting(frames, pending, k) ==>
          && frames[k].index > 0
          && SlotOk(wire, g[frames[k].r], frames[k].index - 1)
          && Child(g[frames[k].r], frames[k].index - 1) == Some(Awaited(frames, pending, k)))
  }

  /** The stack is a reference path from the root; everything beside the path is
      either finished or not yet reached. */
  ghost predicate Walk<A>(wire: bool, g: Graph, root: Ref, frames: seq<Frame<A>>, pending: Option<Value>,
                          done: seq<Ref>) {
    && Settled(wire, g, done)
    && (if frames != [] then frames[0].r == root
        else if pending.Some? then pending.value == Ptr(root) else root in done)
    && (forall k :: 0 <= k < |frames| ==> FrameOk(wire, g, frames, pending, done, k))
    && (forall j, k :: 0 <= j < k < |frames| ==> frames[j].r != frames[k].r)
  }

  /** Object `r` is open: some frame is still working on it. */
  ghost predicate Open<A>(frames: seq<Frame<A>>, r: Ref) { exists k :: 0 <= k < |frames| && frames[k].r == r }

  lemma OpenSame<A>(a: seq<Frame<A>>, b: seq<Frame<A>>)
    requires |a| == |b| && forall k :: 0 <= k < |a| ==> a[k].r == b[k].r
    ensures forall r :: Open(a, r) <==> Open(b, r)
  {
  }

  lemma OpenPush<A>(frames: seq<Frame<A>>, f: Frame<A>)
    ensures forall q :: Open(frames + [f], q) <==> Open(frames, q) || q == f.r
  {
    var after := frames + [f];
    forall q ensures Open(after, q) <==> Open(frames, q) || q == f.r {
      if Open(frames, q) {
        var k :| 0 <= k < |frames| && frames[k].r == q;
        assert after[k].r == q;
      }
      assert after[|frames|].r == f.r;
      if Open(after, q) {
        var k :| 0 <= k < |after| && after[k].r == q;
        assert k < |frames| ==> frames[k].r == q;
      }
    }
  }

  ghost predicate HasTree(wire: bool, g: Graph, v: Value) { exists t :: Denotes(wire, g, v, t) }

  // ---- Steps keep the walk ----

  lemma SettledGrows(wire: bool, g: Graph, done: seq<Ref>, r: Ref)
    requires Settled(wire, g, done) && r in g && SlotsOk(wire, g[r], Slots(g[r]), done)
    ensures Settled(wire, g, done + [r])
  {
    var more := done + [r];
    forall i | 0 <= i < |more|
      ensures more[i] in g && SlotsOk(wire, g[more[i]], Slots(g[more[i]]), more[..i])
    {
      if i < |done| {
        assert more[..i] == done[..i] && more[i] == done[i];
      } else {
        assert more[..i] == done;
      }
    }
  }

  /** The top frame moves past its next slot and asks for that slot's child. */
  lemma WalkAsk<A>(wire: bool, g: Graph, root: Ref, frames: seq<Frame<A>>, done: seq<Ref>, acc: A)
    requires Walk(wire, g, root, frames, None, done) && frames != []
    requires var top := frames[|frames| - 1];
             top.r in g && top.index < Slots(g[top.r]) && SlotOk(wire, g[top.r], top.index)
               && Child(g[top.r], top.index).Some?
    ensures var top := frames[|frames| - 1];
            Walk(wire, g, root, frames[|frames| - 1 := Frame(top.r, top.index + 1, acc)],
                 Child(g[top.r], top.index), done)
  {
    var last := |frames| - 1;
    var top := frames[last];
    var after := frames[last := Frame(top.r, top.index + 1, acc)];
    assert FrameOk(wire, g, frames, None, done, last);
    forall k | 0 <= k < |after| ensures FrameOk(wire, g, after, Child(g[top.r], top.index), done, k) {
      assert FrameOk(wire, g, frames, None, done, k);
      if k + 1 < |after| { assert after[k + 1].r == frames[k + 1].r; }
    }
  }

  /** The awaited value is attached at once. */
  lemma WalkTake<A>(wire: bool, g: Graph, root: Ref, frames: seq<Frame<A>>, v: Value, done: seq<Ref>, acc: A)
    requires Walk(wire, g, root, frames, Some(v), done) && frames != [] && Known(wire, v, done)
    ensures var top := frames[|frames| - 1];
            Walk(wire, g, root, frames[|frames| - 1 := top.(acc := acc)], None, done)
  {
    var last := |frames| - 1;
    var after := frames[last := frames[last].(acc := acc)];
    forall k | 0 <= k < |after| ensures FrameOk(wire, g, after, None, done, k) {
      assert FrameOk(wire, g, frames, Some(v), done, k);
      if k + 1 < |after| { assert after[k + 1].r == frames[k + 1].r; }
    }
  }

  /** The awaited value is a fresh object, which becomes the top frame. */
  lemma WalkOpen<A>(wire: bool, g: Graph, root: Ref, frames: seq<Frame<A>>, r: Ref, done: seq<Ref>, acc: A)
    requires Walk(wire, g, root, frames, Some(Ptr(r)), done)
    requires r in g && !g[r].Foreign? && r !in done && forall k :: 0 <= k < |frames| ==> frames[k].r != r
    ensures Walk(wire, g, root, frames + [Frame(r, 0, acc)], None, done)
  {
    var after := frames + [Frame(r, 0, acc)];
    forall k | 0 <= k < |after| ensures FrameOk(wire, g, after, None, done, k) {
      if k < |frames| { assert FrameOk(wire, g, frames, Some(Ptr(r)), done, k); }
    }
  }

  /** The exhausted top frame closes, and is the value the frame beneath awaits. */
  lemma WalkReturn<A>(wire: bool, g: Graph, root: Ref, frames: seq<Frame<A>>, done: seq<Ref>)
    requires Walk(wire, g, root, frames, None, done) && |frames| > 1
    requires frames[|frames| - 1].r in g && frames[|frames| - 1].index == Slots(g[frames[|frames| - 1].r])
    ensures var r := frames[|frames| - 1].r;
            Walk(wire, g, root, frames[..|frames| - 1], Some(Ptr(r)), done + [r])
  {
    var last := |frames| - 1;
    var r := frames[last].r;
    var rest := frames[..last];
    assert FrameOk(wire, g, frames, None, done, last);
    SettledGrows(wire, g, done, r);
    forall k | 0 <= k < |rest| ensures FrameOk(wire, g, rest, Some(Ptr(r)), done + [r], k) {
      assert FrameOk(wire, g, frames, None, done, k);
      assert rest[k] == frames[k];
    }
  }

  // ---- What the walk says about the unfolding ----

  /** Finished references unfold. */
  lemma {:induction false} SettledTree(wire: bool, g: Graph, done: seq<Ref>, i: nat) returns (t: Tree)
    requires Settled(wire, g, done) && i < |done|
    ensures Denotes(wire, g, Ptr(done[i]), t)
    decreases i, 1, 0
  {
    var kids := SettledKids(wire, g, done, i, Slots(g[done[i]]));
    t := Branch(ShapeOf(g[done[i]]), kids);
  }

  lemma {:induction false} SettledKids(wire: bool, g: Graph, done: seq<Ref>, i: nat, n: nat) returns (kids: seq<Tree>)
    requires Settled(wire, g, done) && i < |done| && n <= Slots(g[done[i]])
    ensures |kids| == n
    ensures forall j :: 0 <= j < n ==> Denotes(wire, g, Child(g[done[i]], j).value, kids[j])
    decreases i, 0, n
  {
    if n == 0 {
      kids := [];
    } else {
      var before := SettledKids(wire, g, done, i, n - 1);
      var v := Child(g[done[i]], n - 1).value;
      assert Known(wire, v, done[..i]);
      var t := Leaf(v);
      if v.Ptr? {
        var j :| 0 <= j < i && done[..i][j] == v.r;
        t := SettledTree(wire, g, done, j);
      }
      kids := before + [t];
    }
  }

  lemma KnownHasTree(wire: bool, g: Graph, done: seq<Ref>, v: Value)
    requires Settled(wire, g, done) && Known(wire, v, done)
    ensures HasTree(wire, g, v)
  {
    if v.Ptr? {
      var i :| 0 <= i < |done| && done[i] == v.r;
      var t := SettledTree(wire, g, done, i);
    } else {
      assert Denotes(wire, g, v, Leaf(v));
    }
  }

  /** The root's tree contains the tree of every frame, each strictly lighter
      than, and no larger than, the one above it. */
  lemma {:induction false} FrameTree<A>(wire: bool, g: Graph, root: Ref, frames: seq<Frame<A>>, pending: Option<Value>,
                                        done: seq<Ref>, j: nat, k: nat, t: Tree)
    returns (u: Tree)
    requires Walk(wire, g, root, frames, pending, done) && j <= k < |frames|
    requires Denotes(wire, g, Ptr(frames[j].r), t)
    ensures Denotes(wire, g, Ptr(frames[k].r), u)
    ensures Bytes(u) <= Bytes(t) && (if j == k then u == t else Weight(u) < Weight(t))
    decreases k - j
  {
    if j == k {
      u := t;
    } else {
      var above := FrameTree(wire, g, root, frames, pending, done, j, k - 1, t);
      assert FrameOk(wire, g, frames, pending, done, k - 1);
      var i := frames[k - 1].index - 1;
      ChildTree(wire, g, frames[k - 1].r, above, i);
      KidBytesMonotone(above.shape, above.kids, i);
      u := above.kids[i];
    }
  }

  /** If the root unfolds, so does the value being visited, to a lighter tree
      than any open frame's. */
  lemma PendingTree<A>(wire: bool, g: Graph, root: Ref, frames: seq<Frame<A>>, v: Value, done: seq<Ref>, t: Tree)
    returns (u: Tree)
    requires Walk(wire, g, root, frames, Some(v), done) && Denotes(wire, g, Ptr(root), t)
    ensures Denotes(wire, g, v, u) && Bytes(u) <= Bytes(t)
  {
    if frames == [] {
      u := t;
    } else {
      var last := |frames| - 1;
      var top := FrameTree(wire, g, root, frames, Some(v), done, 0, last, t);
      assert FrameOk(wire, g, frames, Some(v), done, last);
      var i := frames[last].index - 1;
      ChildTree(wire, g, frames[last].r, top, i);
      KidBytesMonotone(top.shape, top.kids, i);
      u := top.kids[i];
    }
  }

  /** Meeting an open object again means the graph has no finite unfolding. */
  lemma CycleRejects<A>(wire: bool, g: Graph, root: Ref, frames: seq<Frame<A>>, j: nat, done: seq<Ref>)
    requires j < |frames| && Walk(wire, g, root, frames, Some(Ptr(frames[j].r)), done)
    ensures !HasTree(wire, g, Ptr(root))
  {
    var v := Ptr(frames[j].r);
    if t :| Denotes(wire, g, Ptr(root), t) {
      var last := |frames| - 1;
      var outer := FrameTree(wire, g, root, frames, Some(v), done, 0, j, t);
      var top := FrameTree(wire, g, root, frames, Some(v), done, j, last, outer);
      assert FrameOk(wire, g, frames, Some(v), done, last);
      ChildTree(wire, g, frames[last].r, top, frames[last].index - 1);
      DenotesUnique(wire, g, v, outer, top.kids[frames[last].index - 1]);
    }
  }

  /** An illegal value being visited rejects the root. */
  lemma ValueRejects<A>(wire: bool, g: Graph, root: Ref, frames: seq<Frame<A>>, v: Value, done: seq<Ref>)
    requires Walk(wire, g, root, frames, Some(v), done)
    requires if v.Ptr? then v.r in g ==> g[v.r].Foreign? else !LeafOk(wire, v)
    ensures !HasTree(wire, g, Ptr(root))
  {
    if t :| Denotes(wire, g, Ptr(root), t) {
      var u := PendingTree(wire, g, root, frames, v, done, t);
    }
  }

  /** An illegal slot of the top frame rejects the root. */
  lemma SlotRejects<A>(wire: bool, g: Graph, root: Ref, frames: seq<Frame<A>>, done: seq<Ref>)
    requires Walk(wire, g, root, frames, None, done) && frames != []
    requires
      var top := frames[|frames| - 1];
      top.r in g && top.index < Slots(g[top.r]) && !SlotOk(wire, g[top.r], top.index)
    ensures !HasTree(wire, g, Ptr(root))
  {
    if t :| Denotes(wire, g, Ptr(root), t) {
      var last := |frames| - 1;
      var u := FrameTree(wire, g, root, frames, None, done, 0, last, t);
      ChildTree(wire, g, frames[last].r, u, frames[last].index);
    }
  }

  // ---- Termination ----

  function Room<A>(g: Graph, frames: seq<Frame<A>>): nat
    requires forall k :: 0 <= k < |frames| ==> frames[k].r in g && frames[k].index <= Slots(g[frames[k].r])
  {
    if frames == [] then 0
    else
      var top := frames[|frames| - 1];
      Room(g, frames[..|frames| - 1]) + Slots(g[top.r]) - top.index
  }

  /** Changing what a frame accumulates does not change the room left. */
  lemma {:induction false} RoomIgnoresAcc<A>(g: Graph, a: seq<Frame<A>>, b: seq<Frame<A>>)
    requires |a| == |b|
    requires forall k :: 0 <= k < |a| ==> a[k].r in g && a[k].index <= Slots(g[a[k].r])
    requires forall k :: 0 <= k < |a| ==> b[k].r == a[k].r && b[k].index == a[k].index
    ensures Room(g, a) == Room(g, b)
  {
    if a != [] {
      RoomIgnoresAcc(g, a[..|a| - 1], b[..|b| - 1]);
    }
  }

  lemma RoomFalls<A>(g: Graph, frames: seq<Frame<A>>, f: Frame<A>)
    requires forall k :: 0 <= k < |frames| ==> frames[k].r in g && frames[k].index <= Slots(g[frames[k].r])
    requires frames != [] && f.r == frames[|frames| - 1].r && frames[|frames| - 1].index < f.index <= Slots(g[f.r])
    ensures Room(g, frames[|frames| - 1 := f]) < Room(g, frames)
  {
    assert frames[|frames| - 1 := f][..|frames| - 1] == frames[..|frames| - 1];
  }

  /** Room left in the open frames, as a total function. */
  ghost function RoomLeft<A>(g: Graph, frames: seq<Frame<A>>): nat {
    if forall k :: 0 <= k < |frames| ==> frames[k].r in g && frames[k].index <= Slots(g[frames[k].r])
    then Room(g, frames) else 0
  }

  lemma SameRoomLeft<A>(g: Graph, a: seq<Frame<A>>, b: seq<Frame<A>>)
    requires |a| == |b| && forall k :: 0 <= k < |a| ==> b[k].r == a[k].r && b[k].index == a[k].index
    ensures RoomLeft(g, a) == RoomLeft(g, b)
  {
    if forall k :: 0 <= k < |a| ==> a[k].r in g && a[k].index <= Slots(g[a[k].r]) {
      RoomIgnoresAcc(g, a, b);
    }
  }
}
