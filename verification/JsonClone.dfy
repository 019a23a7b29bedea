/**
 The terminal-state cloner: one pass over an untrusted heap that validates it,
 copies it and measures its compact JSON text, with an explicit event stack.
 */
module JsonClone {
  import opened Wrappers
  import opened JsonGraph
  import opened JsonWalk

  const MAX_COMPACT_BYTES: nat := 65_536

  datatype Failure = NotJson | TooLarge

  /** On success: the copied heap, in which the copy of an object keeps the
      object's own reference, and the size charged for the root. */
  datatype CloneResult = Cloned(heap: Graph, bytes: nat) | Rejected(failure: Failure)

  // ---- What has been charged and copied so far ----

  /** Bytes charged to an object that unfolds to `t` once `n` children are
      attached; `waiting` adds the separator and key of the next one. */
  ghost function Charge(t: Tree, n: nat, waiting: bool): nat {
    if t.Branch? && n <= |t.kids| then
      2 + KidBytes(t.shape, t.kids[..n]) + if waiting then Overhead(t.shape, n) else 0
    else 0
  }

  lemma ChargeAttach(t: Tree, n: nat)
    requires t.Branch? && n < |t.kids|
    ensures Charge(t, n + 1, false) == Charge(t, n, true) + Bytes(t.kids[n])
    ensures Charge(t, n, true) + Bytes(t.kids[n]) <= Bytes(t)
  {
    assert t.kids[..n + 1][..n] == t.kids[..n];
    KidBytesMonotone(t.shape, t.kids, n);
  }

  ghost predicate ChargedAt(g: Graph, f: Frame<nat>, n: nat, waiting: bool) {
    f.acc <= MAX_COMPACT_BYTES && forall t :: Denotes(false, g, Ptr(f.r), t) ==> f.acc == Charge(t, n, waiting)
  }

  ghost predicate Charged(g: Graph, frames: seq<Frame<nat>>, pending: Option<Value>) {
    forall k :: 0 <= k < |frames| ==>
      ChargedAt(g, frames[k], Attached(frames, pending, k), Waiting(frames, pending, k))
  }

  ghost predicate Measured(g: Graph, v: Value, bytes: nat) {
    forall t :: Denotes(false, g, v, t) ==> Bytes(t) == bytes
  }

  ghost predicate Oversized(g: Graph, v: Value) {
    forall t :: Denotes(false, g, v, t) ==> Bytes(t) > MAX_COMPACT_BYTES
  }

  /** A fresh copy with its first `n` slots filled in. */
  ghost predicate IsPartialCopy(copy: Node, n: Node, upto: nat) {
    match n
    case Array(items) => upto <= |items| && copy == Array(items[..upto] + seq(|items| - upto, _ => None))
    case Object(props) => upto <= |props| && copy == Object(props[..upto])
    case Foreign => false
  }

  ghost predicate Copied(g: Graph, frames: seq<Frame<nat>>, pending: Option<Value>, done: seq<Ref>, clones: Graph)
  {
    && (forall r :: r in clones <==> r in done || Open(frames, r))
    && (forall r :: r in done ==> r in g && clones[r] == g[r])
    && (forall k :: 0 <= k < |frames| ==>
          && frames[k].r in g && frames[k].r in clones
          && IsPartialCopy(clones[frames[k].r], g[frames[k].r], Attached(frames, pending, k)))
  }

  /** The bookkeeping maps: open objects are active, finished ones are sized. */
  ghost predicate Indexed(g: Graph, frames: seq<Frame<nat>>, done: seq<Ref>, sizes: map<Ref, nat>, active: set<Ref>) {
    && (forall r :: r in sizes <==> r in done)
    && (forall r :: r in sizes ==> Measured(g, Ptr(r), sizes[r]))
    && (forall r :: r in active <==> Open(frames, r))
  }

  /** The whole state of the traversal, over its ghost view. */
  ghost predicate Inv(g: Graph, root: Ref, frames: seq<Frame<nat>>, pending: Option<Value>, done: seq<Ref>,
                      clones: Graph, sizes: map<Ref, nat>, active: set<Ref>)
  {
    && Walk(false, g, root, frames, pending, done)
    && Copied(g, frames, pending, done, clones)
    && Charged(g, frames, pending)
    && Indexed(g, frames, done, sizes, active)
  }

  /** Attaching `v` to the copy of the frame beneath the event, at its pending slot. */
  function AttachCopy(n: Node, copy: Node, slot: int, v: Value): Node {
    if copy.Array? && 0 <= slot < |copy.items| then Array(copy.items[slot := Some(v)])
    else if copy.Object? && n.Object? && 0 <= slot < |n.props| then Object(copy.props + [Prop(n.props[slot].key, v)])
    else copy
  }

  lemma AttachCopyExtends(n: Node, copy: Node, slot: nat, v: Value)
    requires slot < Slots(n) && IsPartialCopy(copy, n, slot) && Child(n, slot) == Some(v)
    ensures IsPartialCopy(AttachCopy(n, copy, slot, v), n, slot + 1)
  {
  }

  // ---- One frame at a time ----

  lemma AttachCharge(g: Graph, f: Frame<nat>, v: Value, bytes: nat)
    requires f.r in g && 0 < f.index <= Slots(g[f.r]) && Child(g[f.r], f.index - 1) == Some(v)
    requires ChargedAt(g, f, f.index - 1, true) && Measured(g, v, bytes)
    ensures AtLeast(g, Ptr(f.r), f.acc + bytes)
    ensures f.acc + bytes <= MAX_COMPACT_BYTES ==> ChargedAt(g, f.(acc := f.acc + bytes), f.index, false)
  {
    forall t | Denotes(false, g, Ptr(f.r), t)
      ensures f.acc + bytes == Charge(t, f.index, false) && f.acc + bytes <= Bytes(t)
    {
      ChildTree(false, g, f.r, t, f.index - 1);
      ChargeAttach(t, f.index - 1);
    }
  }

  lemma AskCharge(g: Graph, f: Frame<nat>, bytes: nat)
    requires f.r in g && !g[f.r].Foreign? && f.index < Slots(g[f.r])
    requires ChargedAt(g, f, f.index, false) && bytes == Overhead(ShapeOf(g[f.r]), f.index)
    ensures AtLeast(g, Ptr(f.r), f.acc + bytes)
    ensures f.acc + bytes <= MAX_COMPACT_BYTES ==> ChargedAt(g, Frame(f.r, f.index + 1, f.acc + bytes), f.index, true)
  {
    forall t | Denotes(false, g, Ptr(f.r), t)
      ensures f.acc + bytes == Charge(t, f.index, true) && f.acc + bytes <= Bytes(t)
    {
      ChildTree(false, g, f.r, t, f.index);
      ChargeAttach(t, f.index);
    }
  }

  ghost predicate AtLeast(g: Graph, v: Value, bytes: nat) {
    forall t :: Denotes(false, g, v, t) ==> bytes <= Bytes(t)
  }

  /** A frame whose object is too large makes the root too large. */
  lemma TopOversized(g: Graph, root: Ref, frames: seq<Frame<nat>>, pending: Option<Value>, done: seq<Ref>, bytes: nat)
    requires Walk(false, g, root, frames, pending, done) && frames != []
    requires AtLeast(g, Ptr(frames[|frames| - 1].r), bytes) && bytes > MAX_COMPACT_BYTES
    ensures Oversized(g, Ptr(root))
  {
    forall t | Denotes(false, g, Ptr(root), t) ensures Bytes(t) > MAX_COMPACT_BYTES {
      var u := FrameTree(false, g, root, frames, pending, done, 0, |frames| - 1, t);
    }
  }

  // ---- Changing only the top frame ----

  lemma ChargedTop(g: Graph, frames: seq<Frame<nat>>, pending: Option<Value>, f: Frame<nat>, pending': Option<Value>)
    requires Charged(g, frames, pending) && frames != []
    requires ChargedAt(g, f, if pending'.Some? && f.index > 0 then f.index - 1 else f.index, pending'.Some?)
    ensures Charged(g, frames[|frames| - 1 := f], pending')
  {
    var after := frames[|frames| - 1 := f];
    forall k | 0 <= k < |after|
      ensures ChargedAt(g, after[k], Attached(after, pending', k), Waiting(after, pending', k))
    {
      assert ChargedAt(g, frames[k], Attached(frames, pending, k), Waiting(frames, pending, k));
    }
  }

  lemma CopiedTop(g: Graph, frames: seq<Frame<nat>>, pending: Option<Value>, done: seq<Ref>, clones: Graph,
                  f: Frame<nat>, pending': Option<Value>, copy: Node)
    requires Copied(g, frames, pending, done, clones) && frames != []
    requires f.r == frames[|frames| - 1].r && f.r !in done && forall k :: 0 <= k < |frames| - 1 ==> frames[k].r != f.r
    requires f.r in g && IsPartialCopy(copy, g[f.r], if pending'.Some? && f.index > 0 then f.index - 1 else f.index)
    ensures Copied(g, frames[|frames| - 1 := f], pending', done, clones[f.r := copy])
  {
    hide IsPartialCopy;
    var after := frames[|frames| - 1 := f];
    OpenSame(frames, after);
    forall k | 0 <= k < |after|
      ensures after[k].r in g && after[k].r in clones[f.r := copy]
      ensures IsPartialCopy(clones[f.r := copy][after[k].r], g[after[k].r], Attached(after, pending', k))
    {
      assert IsPartialCopy(clones[frames[k].r], g[frames[k].r], Attached(frames, pending, k));
    }
  }

  lemma IndexedTop(g: Graph, frames: seq<Frame<nat>>, done: seq<Ref>, sizes: map<Ref, nat>, active: set<Ref>,
                   f: Frame<nat>)
    requires Indexed(g, frames, done, sizes, active) && frames != [] && f.r == frames[|frames| - 1].r
    ensures Indexed(g, frames[|frames| - 1 := f], done, sizes, active)
  {
    OpenSame(frames, frames[|frames| - 1 := f]);
  }

  // ---- Steps of the whole traversal ----

  /** The value just visited, measured as `bytes`, is attached to the frame
      beneath; the charge either fits or the whole graph is oversized. */
  lemma AttachStep(g: Graph, root: Ref, frames: seq<Frame<nat>>, v: Value, done: seq<Ref>,
                   clones: Graph, sizes: map<Ref, nat>, active: set<Ref>, bytes: nat)
    requires Inv(g, root, frames, Some(v), done, clones, sizes, active)
    requires frames != [] && Known(false, v, done) && Measured(g, v, bytes)
    ensures var top := frames[|frames| - 1];
            && top.r in g && top.r in clones && 0 < top.index
            && if top.acc + bytes <= MAX_COMPACT_BYTES then
                 Inv(g, root, frames[|frames| - 1 := top.(acc := top.acc + bytes)], None, done,
                     clones[top.r := AttachCopy(g[top.r], clones[top.r], top.index - 1, v)], sizes, active)
               else
                 Oversized(g, Ptr(root))
  {
    hide Settled, Denotes, Oversized, AtLeast, Indexed, ChargedAt, IsPartialCopy, Measured;
    var last := |frames| - 1;
    var top := frames[last];
    assert FrameOk(false, g, frames, Some(v), done, last);
    AttachCharge(g, top, v, bytes);
    if top.acc + bytes <= MAX_COMPACT_BYTES {
      var f := top.(acc := top.acc + bytes);
      WalkTake(false, g, root, frames, v, done, top.acc + bytes);
      AttachCopyExtends(g[top.r], clones[top.r], top.index - 1, v);
      CopiedTop(g, frames, Some(v), done, clones, f, None, AttachCopy(g[top.r], clones[top.r], top.index - 1, v));
      ChargedTop(g, frames, Some(v), f, None);
      IndexedTop(g, frames, done, sizes, active, f);
    } else {
      TopOversized(g, root, frames, Some(v), done, top.acc + bytes);
    }
  }

  /** The top frame charges the separator and key of its next slot. */
  lemma AskStep(g: Graph, root: Ref, frames: seq<Frame<nat>>, done: seq<Ref>,
                clones: Graph, sizes: map<Ref, nat>, active: set<Ref>, bytes: nat)
    requires Inv(g, root, frames, None, done, clones, sizes, active) && frames != []
    requires var top := frames[|frames| - 1];
             && top.r in g && !g[top.r].Foreign? && top.index < Slots(g[top.r])
             && bytes == Overhead(ShapeOf(g[top.r]), top.index)
    ensures var top := frames[|frames| - 1];
            if top.acc + bytes <= MAX_COMPACT_BYTES then
              SlotOk(false, g[top.r], top.index) && Child(g[top.r], top.index).Some? ==>
                Inv(g, root, frames[|frames| - 1 := Frame(top.r, top.index + 1, top.acc + bytes)],
                    Child(g[top.r], top.index), done, clones, sizes, active)
            else
              Oversized(g, Ptr(root))
  {
    hide Settled, Denotes, Oversized, AtLeast, Indexed, ChargedAt, IsPartialCopy, Measured;
    var last := |frames| - 1;
    var top := frames[last];
    AskCharge(g, top, bytes);
    if top.acc + bytes > MAX_COMPACT_BYTES {
      TopOversized(g, root, frames, None, done, top.acc + bytes);
    } else if SlotOk(false, g[top.r], top.index) && Child(g[top.r], top.index).Some? {
      var f := Frame(top.r, top.index + 1, top.acc + bytes);
      var pending := Child(g[top.r], top.index);
      WalkAsk(false, g, root, frames, done, top.acc + bytes);
      assert FrameOk(false, g, frames, None, done, last);
      CopiedTop(g, frames, None, done, clones, f, pending, clones[top.r]);
      assert clones[top.r := clones[top.r]] == clones;
      ChargedTop(g, frames, None, f, pending);
      IndexedTop(g, frames, done, sizes, active, f);
    }
  }

  lemma OpenedCopied(g: Graph, frames: seq<Frame<nat>>, r: Ref, done: seq<Ref>, clones: Graph, copy: Node)
    requires Copied(g, frames, Some(Ptr(r)), done, clones)
    requires r in g && r !in done && !Open(frames, r) && IsPartialCopy(copy, g[r], 0)
    ensures r !in clones && Copied(g, frames + [Frame(r, 0, 2)], None, done, clones[r := copy])
  {
    hide IsPartialCopy;
    var after: seq<Frame<nat>> := frames + [Frame(r, 0, 2)];
    assert forall k :: 0 <= k < |frames| ==> Open(frames, frames[k].r);
    assert forall k :: 0 <= k < |frames| ==>
        after[k] == frames[k] && Attached(after, None, k) == Attached(frames, Some(Ptr(r)), k);
    OpenPush(frames, after[|frames|]);
  }

  lemma OpenedCharged(g: Graph, frames: seq<Frame<nat>>, r: Ref)
    requires Charged(g, frames, Some(Ptr(r))) && r in g
    ensures Charged(g, frames + [Frame(r, 0, 2)], None)
  {
    var after: seq<Frame<nat>> := frames + [Frame(r, 0, 2)];
    assert forall k :: 0 <= k < |frames| ==>
        after[k] == frames[k] && Attached(after, None, k) == Attached(frames, Some(Ptr(r)), k);
    assert forall t :: Denotes(false, g, Ptr(r), t) ==> t.kids[..0] == [];
  }

  lemma OpenedIndexed(g: Graph, frames: seq<Frame<nat>>, r: Ref, done: seq<Ref>, sizes: map<Ref, nat>, active: set<Ref>)
    requires Indexed(g, frames, done, sizes, active)
    ensures Indexed(g, frames + [Frame(r, 0, 2)], done, sizes, active + {r})
  {
    hide Measured;
    OpenPush(frames, Frame(r, 0, 2));
  }

  /** A fresh object gets an empty copy and a frame of its own. */
  lemma OpenStep(g: Graph, root: Ref, frames: seq<Frame<nat>>, r: Ref, done: seq<Ref>,
                 clones: Graph, sizes: map<Ref, nat>, active: set<Ref>, copy: Node)
    requires Inv(g, root, frames, Some(Ptr(r)), done, clones, sizes, active)
    requires r in g && r !in active && r !in sizes && IsPartialCopy(copy, g[r], 0)
    ensures r !in clones
    ensures Inv(g, root, frames + [Frame(r, 0, 2)], None, done, clones[r := copy], sizes, active + {r})
  {
    assert !Open(frames, r) && r !in done && !g[r].Foreign?;
    assert forall k :: 0 <= k < |frames| ==> Open(frames, frames[k].r);
    hide Copied, Charged, Indexed, Open, Walk;
    WalkOpen(false, g, root, frames, r, done, 2);
    OpenedCopied(g, frames, r, done, clones, copy);
    OpenedCharged(g, frames, r);
    OpenedIndexed(g, frames, r, done, sizes, active);
  }

  /** The exhausted top frame is finished: its size is recorded, and the traversal
      is back where its object was about to be attached. */
  lemma CloseStep(g: Graph, root: Ref, frames: seq<Frame<nat>>, done: seq<Ref>,
                  clones: Graph, sizes: map<Ref, nat>, active: set<Ref>)
    requires Inv(g, root, frames, None, done, clones, sizes, active) && frames != []
    requires frames[|frames| - 1].r in g && frames[|frames| - 1].index == Slots(g[frames[|frames| - 1].r])
    ensures var top := frames[|frames| - 1];
            var rest := frames[..|frames| - 1];
            && Settled(false, g, done + [top.r]) && Measured(g, Ptr(top.r), top.acc) && top.acc <= MAX_COMPACT_BYTES
            && (rest != [] ==>
                  Inv(g, root, rest, Some(Ptr(top.r)), done + [top.r], clones, sizes[top.r := top.acc],
                      active - {top.r}))
            && (rest == [] ==> top.r == root && forall r :: r in clones <==> r in done + [top.r])
            && forall r :: r in done + [top.r] ==> r in g && r in clones && clones[r] == g[r]
  {
    var last := |frames| - 1;
    var top := frames[last];
    var rest := frames[..last];
    var more := done + [top.r];
    assert FrameOk(false, g, frames, None, done, last);
    SettledGrows(false, g, done, top.r);
    FullCharge(g, top);
    FullCopy(clones[top.r], g[top.r]);
    assert forall r :: r in more <==> r in done || r == top.r;
    if rest != [] {
      WalkReturn(false, g, root, frames, done);
      RestCharged(g, frames, Some(Ptr(top.r)));
      RestCopied(g, frames, done, clones);
      RestIndexed(g, frames, done, sizes, active);
    } else {
      LastClosed(g, root, frames, done, clones, sizes, active);
    }
  }

  /** Only the root was open. */
  lemma LastClosed(g: Graph, root: Ref, frames: seq<Frame<nat>>, done: seq<Ref>, clones: Graph, sizes: map<Ref, nat>,
                   active: set<Ref>)
    requires Inv(g, root, frames, None, done, clones, sizes, active) && |frames| == 1
    ensures frames[0].r == root && forall r :: r in clones <==> r in done + [frames[0].r]
  {
    assert forall r :: Open(frames, r) <==> r == frames[0].r;
  }

  lemma RestIndexed(g: Graph, frames: seq<Frame<nat>>, done: seq<Ref>, sizes: map<Ref, nat>, active: set<Ref>)
    requires Indexed(g, frames, done, sizes, active) && frames != []
    requires var top := frames[|frames| - 1];
             Measured(g, Ptr(top.r), top.acc) && forall k :: 0 <= k < |frames| - 1 ==> frames[k].r != top.r
    ensures var top := frames[|frames| - 1];
            Indexed(g, frames[..|frames| - 1], done + [top.r], sizes[top.r := top.acc], active - {top.r})
  {
    var top := frames[|frames| - 1];
    var rest := frames[..|frames| - 1];
    assert frames == rest + [top];
    OpenPush(rest, top);
    assert !Open(rest, top.r);
  }

  lemma FullCharge(g: Graph, f: Frame<nat>)
    requires f.r in g && ChargedAt(g, f, Slots(g[f.r]), false)
    ensures Measured(g, Ptr(f.r), f.acc)
  {
    forall t | Denotes(false, g, Ptr(f.r), t) ensures Bytes(t) == f.acc {
      assert t.kids[..|t.kids|] == t.kids;
    }
  }

  lemma FullCopy(copy: Node, n: Node)
    requires IsPartialCopy(copy, n, Slots(n))
    ensures copy == n
  {
  }

  lemma RestCharged(g: Graph, frames: seq<Frame<nat>>, pending: Option<Value>)
    requires Charged(g, frames, None) && |frames| > 1 && pending.Some?
    ensures Charged(g, frames[..|frames| - 1], pending)
  {
    var rest := frames[..|frames| - 1];
    forall k | 0 <= k < |rest|
      ensures ChargedAt(g, rest[k], Attached(rest, pending, k), Waiting(rest, pending, k))
    {
      assert ChargedAt(g, frames[k], Attached(frames, None, k), Waiting(frames, None, k));
    }
  }

  lemma RestCopied(g: Graph, frames: seq<Frame<nat>>, done: seq<Ref>, clones: Graph)
    requires Copied(g, frames, None, done, clones) && |frames| > 1
    requires var top := frames[|frames| - 1]; top.r in g && clones[top.r] == g[top.r]
    ensures var r := frames[|frames| - 1].r;
            Copied(g, frames[..|frames| - 1], Some(Ptr(r)), done + [r], clones)
  {
    var last := |frames| - 1;
    var rest := frames[..last];
    var pending := Some(Ptr(frames[last].r));
    assert frames == rest + [frames[last]];
    OpenPush(rest, frames[last]);
    forall k | 0 <= k < |rest|
      ensures rest[k].r in g && rest[k].r in clones
      ensures IsPartialCopy(clones[rest[k].r], g[rest[k].r], Attached(rest, pending, k))
    {
      assert IsPartialCopy(clones[frames[k].r], g[frames[k].r], Attached(frames, None, k));
    }
  }

  // ---- The traversal ----

  /** The traversal's variables, and the ghost view of its event stack. */
  datatype Run = Run(events: seq<Event<nat>>, clones: Graph, sizes: map<Ref, nat>, active: set<Ref>,
                     failure: Option<Failure>)
  datatype View = View(frames: seq<Frame<nat>>, pending: Option<Value>, done: seq<Ref>)

  /** The graph unfolds to strict JSON whose compact text fits the ceiling. */
  ghost predicate Fits(g: Graph, root: Ref) {
    exists t :: Denotes(false, g, Ptr(root), t) && Bytes(t) <= MAX_COMPACT_BYTES
  }

  ghost predicate Justified(g: Graph, root: Ref, f: Failure) {
    match f
    case NotJson => !HasTree(false, g, Ptr(root))
    case TooLarge => Oversized(g, Ptr(root))
  }

  ghost predicate Finished(g: Graph, root: Ref, s: Run, done: seq<Ref>) {
    && Settled(false, g, done) && root in done && root in s.sizes
    && Measured(g, Ptr(root), s.sizes[root]) && s.sizes[root] <= MAX_COMPACT_BYTES
    && (forall r :: r in s.clones <==> r in done)
    && forall r :: r in done ==> r in g && s.clones[r] == g[r]
  }

  ghost predicate Running(g: Graph, root: Ref, s: Run, w: View) {
    && s.events == Stack(w.frames, w.pending)
    && Inv(g, root, w.frames, w.pending, w.done, s.clones, s.sizes, s.active)
    && (w.frames == [] ==> w.pending.Some? && w.done == [])
  }

  ghost predicate Good(g: Graph, root: Ref, s: Run, w: View) {
    if s.failure.Some? then Justified(g, root, s.failure.value)
    else if s.events == [] then Finished(g, root, s, w.done)
    else Running(g, root, s, w)
  }

  /** Every step copies a new object, or moves a cursor, or shortens the stack. */
  ghost predicate Progress(g: Graph, s: Run, w: View, s': Run, w': View) {
    || s'.failure.Some?
    || (s.clones.Keys < s'.clones.Keys <= g.Keys)
    || (s.clones.Keys == s'.clones.Keys && RoomLeft(g, w'.frames) < RoomLeft(g, w.frames))
    || (s.clones.Keys == s'.clones.Keys && RoomLeft(g, w'.frames) == RoomLeft(g, w.frames)
        && |s'.events| < |s.events|)
  }

  /** Hand a finished value to the frame beneath its event. */
  method Attach(g: Graph, ghost root: Ref, s: Run, v: Value, bytes: nat, ghost w: View)
    returns (s': Run, ghost w': View)
    requires Inv(g, root, w.frames, Some(v), w.done, s.clones, s.sizes, s.active) && w.frames != []
    requires s.events == Stack(w.frames, None) && s.failure.None? && Known(false, v, w.done) && Measured(g, v, bytes)
    ensures Good(g, root, s', w') && s'.clones.Keys == s.clones.Keys
    ensures |s'.events| == |s.events| && RoomLeft(g, w'.frames) == RoomLeft(g, w.frames)
  {
    hide Inv, Denotes, Measured;
    AttachStep(g, root, w.frames, v, w.done, s.clones, s.sizes, s.active, bytes);
    var parent := s.events[|s.events| - 1].frame;
    var copy := AttachCopy(g[parent.r], s.clones[parent.r], parent.index - 1, v);
    s', w' := s.(clones := s.clones[parent.r := copy]), w;
    if bytes > MAX_COMPACT_BYTES - parent.acc {
      s' := s'.(failure := Some(TooLarge));
    } else {
      var charged := parent.(acc := parent.acc + bytes);
      s' := s'.(events := s.events[|s.events| - 1 := Next(charged)]);
      w' := View(w.frames[|w.frames| - 1 := charged], None, w.done);
      SameRoomLeft(g, w.frames, w'.frames);
    }
  }

  function EmptyCopy(n: Node): (copy: Node)
    ensures !n.Foreign? ==> IsPartialCopy(copy, n, 0)
  {
    if n.Array? then Array(seq(|n.items|, _ => None)) else Object([])
  }

  /** A string longer than the ceiling is oversized before it is even measured. */
  lemma LongString(g: Graph, root: Ref, frames: seq<Frame<nat>>, v: Value, done: seq<Ref>)
    requires Walk(false, g, root, frames, Some(v), done) && v.Str? && |v.s| > MAX_COMPACT_BYTES
    ensures Oversized(g, Ptr(root))
  {
    forall t | Denotes(false, g, Ptr(root), t) ensures Bytes(t) > MAX_COMPACT_BYTES {
      var u := PendingTree(false, g, root, frames, v, done, t);
    }
  }

  /** A visit event: attach a leaf or a finished object, open a fresh object, or
      refuse an illegal value. */
  method VisitEvent(g: Graph, ghost root: Ref, before: Run, ghost w: View) returns (s': Run, ghost w': View)
    requires Closed(g) && root in g && before.failure.None?
    requires before.events != [] && before.events[|before.events| - 1].Visit? && Running(g, root, before, w)
    ensures Good(g, root, s', w') && Progress(g, before, w, s', w')
  {
    hide Copied, Charged, Denotes, Measured, Settled, SlotsOk;
    var v := before.events[|before.events| - 1].value;
    var s := before.(events := before.events[..|before.events| - 1]);
    s', w' := s, w;
    if v.Ptr? && v.r in s.active {
      ghost var j :| 0 <= j < |w.frames| && w.frames[j].r == v.r;
      CycleRejects(false, g, root, w.frames, j, w.done);
      s' := s.(failure := Some(NotJson));
    } else if v.Ptr? && v.r !in s.sizes {
      PendingResolves(g, root, w.frames, v.r, w.done);
      if g[v.r].Foreign? {
        ValueRejects(false, g, root, w.frames, v, w.done);
        s' := s.(failure := Some(NotJson));
      } else {
        var copy := EmptyCopy(g[v.r]);
        OpenStep(g, root, w.frames, v.r, w.done, s.clones, s.sizes, s.active, copy);
        s' := s.(clones := s.clones[v.r := copy], active := s.active + {v.r},
                 events := s.events + [Next(Frame(v.r, 0, 2))]);
        w' := View(w.frames + [Frame(v.r, 0, 2)], None, w.done);
        assert v.r in s'.clones.Keys && v.r !in s.clones.Keys;
        CopiesWithin(g, w'.frames, None, w'.done, s'.clones);
      }
    } else if !v.Ptr? && !LeafOk(false, v) {
      ValueRejects(false, g, root, w.frames, v, w.done);
      s' := s.(failure := Some(NotJson));
    } else if v.Str? && |v.s| > MAX_COMPACT_BYTES {
      LongString(g, root, w.frames, v, w.done);
      s' := s.(failure := Some(TooLarge));
    } else {
      var bytes := if v.Ptr? then s.sizes[v.r] else LeafBytes(v);
      LeafMeasured(g, v);
      s', w' := Attach(g, root, s, v, bytes, w);
    }
  }

  lemma LeafMeasured(g: Graph, v: Value)
    ensures !v.Ptr? ==> Measured(g, v, LeafBytes(v))
  {
  }

  lemma PendingResolves(g: Graph, root: Ref, frames: seq<Frame<nat>>, r: Ref, done: seq<Ref>)
    requires Closed(g) && root in g && Walk(false, g, root, frames, Some(Ptr(r)), done)
    ensures r in g
  {
    if frames != [] {
      assert FrameOk(false, g, frames, Some(Ptr(r)), done, |frames| - 1);
    }
  }

  lemma CopiesWithin(g: Graph, frames: seq<Frame<nat>>, pending: Option<Value>, done: seq<Ref>, clones: Graph)
    requires Copied(g, frames, pending, done, clones)
    ensures clones.Keys <= g.Keys
  {
  }

  /** A cursor event at an exhausted object: record its size and attach it. */
  method CloseEvent(g: Graph, ghost root: Ref, before: Run, ghost w: View) returns (s': Run, ghost w': View)
    requires Closed(g) && root in g && before.failure.None? && before.events != [] && Running(g, root, before, w)
    requires before.events[|before.events| - 1].Next?
    requires var f := before.events[|before.events| - 1].frame; f.r in g && f.index >= Slots(g[f.r])
    ensures Good(g, root, s', w') && Progress(g, before, w, s', w')
  {
    hide Inv, Finished, Open, RoomLeft, Known;
    var frame := before.events[|before.events| - 1].frame;
    CloseFinds(g, root, before, w);
    var s := before.(events := before.events[..|before.events| - 1],
                     sizes := before.sizes[frame.r := frame.acc], active := before.active - {frame.r});
    w' := View(w.frames[..|w.frames| - 1], None, w.done + [frame.r]);
    if s.events == [] {
      s' := s;
    } else {
      s', w' := Attach(g, root, s, Ptr(frame.r), frame.acc, w');
    }
  }

  /** A cursor event on top of the stack is the top frame's. */
  lemma NextOnTop(frames: seq<Frame<nat>>, pending: Option<Value>, events: seq<Event<nat>>)
    requires events == Stack(frames, pending) && events != [] && events[|events| - 1].Next?
    ensures pending.None? && frames != [] && frames[|frames| - 1] == events[|events| - 1].frame
    ensures events[..|events| - 1] == Stack(frames[..|frames| - 1], None)
    ensures events[..|events| - 1] == [] <==> frames[..|frames| - 1] == []
  {
  }

  lemma CloseFinds(g: Graph, root: Ref, s: Run, w: View)
    requires s.failure.None? && s.events != [] && Running(g, root, s, w) && s.events[|s.events| - 1].Next?
    requires var f := s.events[|s.events| - 1].frame; f.r in g && f.index >= Slots(g[f.r])
    ensures var f := s.events[|s.events| - 1].frame;
            var s' := s.(events := s.events[..|s.events| - 1], sizes := s.sizes[f.r := f.acc],
                         active := s.active - {f.r});
            var w' := View(w.frames[..|w.frames| - 1], None, w.done + [f.r]);
            && s'.events == Stack(w'.frames, None) && w.frames != []
            && RoomLeft(g, w'.frames) == RoomLeft(g, w.frames)
            && Measured(g, Ptr(f.r), f.acc)
            && (s'.events == [] ==> Finished(g, root, s', w'.done))
            && (s'.events != [] ==>
                  && Inv(g, root, w'.frames, Some(Ptr(f.r)), w'.done, s'.clones, s'.sizes, s'.active)
                  && Known(false, Ptr(f.r), w'.done) && w'.frames != [])
  {
    hide Copied, Charged, Indexed, Settled, Measured, Walk, Open, RoomLeft, Stack, Oversized;
    NextOnTop(w.frames, w.pending, s.events);
    FramesInRange(g, root, w.frames, w.done);
    CloseStep(g, root, w.frames, w.done, s.clones, s.sizes, s.active);
    RoomWithoutTop(g, w.frames);
    assert (w.done + [w.frames[|w.frames| - 1].r])[|w.done|] == w.frames[|w.frames| - 1].r;
  }

  /** A cursor event at a slot: check and charge its separator and key, then ask
      for its child. */
  method AskEvent(g: Graph, ghost root: Ref, before: Run, ghost w: View) returns (s': Run, ghost w': View)
    requires Closed(g) && root in g && before.failure.None? && before.events != [] && Running(g, root, before, w)
    requires before.events[|before.events| - 1].Next?
    requires var f := before.events[|before.events| - 1].frame; f.r in g && !g[f.r].Foreign? && f.index < Slots(g[f.r])
    ensures Good(g, root, s', w') && Progress(g, before, w, s', w')
  {
    hide Copied, Charged, Denotes, Settled, SlotsOk, Indexed, Walk, Overhead, Oversized;
    var frame := before.events[|before.events| - 1].frame;
    var n := g[frame.r];
    var s := before.(events := before.events[..|before.events| - 1]);
    s', w' := s, w;
    var bytes := Overhead(ShapeOf(n), frame.index);
    AskStep(g, root, w.frames, w.done, s.clones, s.sizes, s.active, bytes);
    if n.Object? && !PgText(n.props[frame.index].key) {
      SlotRejects(false, g, root, w.frames, w.done);
      s' := s.(failure := Some(NotJson));
    } else if n.Object? && |n.props[frame.index].key| > MAX_COMPACT_BYTES {
      LongKey(n, frame.index);
      s' := s.(failure := Some(TooLarge));
    } else if bytes > MAX_COMPACT_BYTES - frame.acc {
      s' := s.(failure := Some(TooLarge));
    } else if Child(n, frame.index).None? {
      SlotRejects(false, g, root, w.frames, w.done);
      s' := s.(failure := Some(NotJson));
    } else {
      var child := Child(n, frame.index).value;
      var asked := Frame(frame.r, frame.index + 1, frame.acc + bytes);
      s' := s.(events := s.events + [Next(asked), Visit(child)]);
      w' := View(w.frames[|w.frames| - 1 := asked], Some(child), w.done);
      FramesInRange(g, root, w.frames, w.done);
      RoomAsked(g, w.frames, asked);
      assert s'.events == Stack(w'.frames, w'.pending);
    }
  }

  lemma LongKey(n: Node, i: nat)
    requires n.Object? && i < |n.props| && |n.props[i].key| > MAX_COMPACT_BYTES
    ensures Overhead(ShapeOf(n), i) > MAX_COMPACT_BYTES
  {
  }

  lemma FramesInRange(g: Graph, root: Ref, frames: seq<Frame<nat>>, done: seq<Ref>)
    requires Walk(false, g, root, frames, None, done)
    ensures forall k :: 0 <= k < |frames| ==>
              frames[k].r in g && !g[frames[k].r].Foreign? && frames[k].index <= Slots(g[frames[k].r])
  {
    forall k | 0 <= k < |frames|
      ensures frames[k].r in g && !g[frames[k].r].Foreign? && frames[k].index <= Slots(g[frames[k].r])
    {
      assert FrameOk(false, g, frames, None, done, k);
    }
  }

  lemma RoomWithoutTop(g: Graph, frames: seq<Frame<nat>>)
    requires frames != [] && forall k :: 0 <= k < |frames| ==>
      frames[k].r in g && frames[k].index <= Slots(g[frames[k].r])
    requires frames[|frames| - 1].index == Slots(g[frames[|frames| - 1].r])
    ensures RoomLeft(g, frames[..|frames| - 1]) == RoomLeft(g, frames)
  {
  }

  lemma RoomAsked(g: Graph, frames: seq<Frame<nat>>, f: Frame<nat>)
    requires frames != [] && forall k :: 0 <= k < |frames| ==>
      frames[k].r in g && frames[k].index <= Slots(g[frames[k].r])
    requires f.r == frames[|frames| - 1].r && frames[|frames| - 1].index < f.index <= Slots(g[f.r])
    ensures RoomLeft(g, frames[|frames| - 1 := f]) < RoomLeft(g, frames)
  {
    RoomFalls(g, frames, f);
  }

  /** Finished objects unfold to the same tree in the original and in the copy. */
  lemma {:induction false} CopyDenotes(g: Graph, copy: Graph, done: seq<Ref>, v: Value, t: Tree)
    requires Settled(false, g, done) && Known(false, v, done) && Denotes(false, g, v, t)
    requires forall r :: r in done ==> r in g && r in copy && copy[r] == g[r]
    ensures Denotes(false, copy, v, t)
    decreases t
  {
    if t.Branch? {
      var i :| 0 <= i < |done| && done[i] == v.r;
      forall j | 0 <= j < |t.kids| ensures Denotes(false, copy, Child(g[v.r], j).value, t.kids[j]) {
        assert Known(false, Child(g[v.r], j).value, done[..i]);
        CopyDenotes(g, copy, done, Child(g[v.r], j).value, t.kids[j]);
      }
    }
  }

  lemma RefusalIsRight(g: Graph, root: Ref, f: Failure)
    requires Justified(g, root, f)
    ensures !Fits(g, root)
  {
    if t :| Denotes(false, g, Ptr(root), t) && Bytes(t) <= MAX_COMPACT_BYTES {
      assert HasTree(false, g, Ptr(root));
    }
  }

  lemma AcceptanceIsRight(g: Graph, root: Ref, clones: Graph, done: seq<Ref>, bytes: nat)
    requires Settled(false, g, done) && root in done && Measured(g, Ptr(root), bytes) && bytes <= MAX_COMPACT_BYTES
    requires forall r :: r in done ==> r in g && r in clones && clones[r] == g[r]
    ensures Fits(g, root)
    ensures forall t :: Denotes(false, g, Ptr(root), t) ==> Denotes(false, clones, Ptr(root), t)
  {
    var i :| 0 <= i < |done| && done[i] == root;
    var u := SettledTree(false, g, done, i);
    assert Denotes(false, g, Ptr(root), u);
    forall t | Denotes(false, g, Ptr(root), t) ensures Denotes(false, clones, Ptr(root), t) {
      CopyDenotes(g, clones, done, Ptr(root), t);
    }
  }

  lemma StartIsGood(g: Graph, root: Ref, s: Run, w: View)
    requires s == Run([Visit(Ptr(root))], map[], map[], {}, None) && w == View([], Some(Ptr(root)), [])
    ensures Good(g, root, s, w)
  {
    assert s.events == Stack(w.frames, w.pending);
  }

  /** Validate, copy and measure the object at `root`. */
  method CloneTerminalState(g: Graph, root: Ref) returns (result: CloneResult)
    requires Closed(g) && root in g
    ensures result.Cloned? <==> Fits(g, root)
    ensures result.Rejected? ==> Justified(g, root, result.failure)
    ensures result.Cloned? ==>
              && Measured(g, Ptr(root), result.bytes)
              && root in result.heap
              && (forall r :: r in result.heap ==> r in g && result.heap[r] == g[r])
              && forall t :: Denotes(false, g, Ptr(root), t) ==> Denotes(false, result.heap, Ptr(root), t)
  {
    hide Copied, Charged, Denotes, Settled, Indexed, SlotsOk;
    var s := Run([Visit(Ptr(root))], map[], map[], {}, None);
    ghost var w := View([], Some(Ptr(root)), []);
    StartIsGood(g, root, s, w);
    while |s.events| > 0 && s.failure.None?
      invariant Good(g, root, s, w)
      decreases if s.failure.None? then 1 else 0, g.Keys - s.clones.Keys, RoomLeft(g, w.frames), |s.events|
    {
      if s.events[|s.events| - 1].Visit? {
        s, w := VisitEvent(g, root, s, w);
      } else {
        var frame := s.events[|s.events| - 1].frame;
        FramesInRange(g, root, w.frames, w.done);
        if frame.index >= Slots(g[frame.r]) {
          s, w := CloseEvent(g, root, s, w);
        } else {
          s, w := AskEvent(g, root, s, w);
        }
      }
    }
    if s.failure.Some? {
      result := Rejected(s.failure.value);
      RefusalIsRight(g, root, s.failure.value);
    } else {
      result := Cloned(s.clones, s.sizes[root]);
      AcceptanceIsRight(g, root, s.clones, w.done, s.sizes[root]);
    }
  }
}
