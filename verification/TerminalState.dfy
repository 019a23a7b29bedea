/**
 The terminal-state policy on top of the cloner, and its agreement with the
 strict JSON check that runs on the wire. Both end in the engine's recursive
 serializer, which fails beyond some nesting depth.
 */
module TerminalState {
  import opened JsonGraph
  import opened Wrappers
  import JsonClone
  import JsonStrict
  import JsonWalk

  datatype Validation = Accepted(heap: Graph) | NotObject | Refused(failure: JsonClone.Failure)

  lemma {:induction false} KidsAreShallower(kids: seq<Tree>, n: nat)
    requires n < |kids|
    ensures Depth(kids[n]) <= KidDepth(kids)
    ensures KidDepth(kids[..n + 1]) == if KidDepth(kids[..n]) < Depth(kids[n]) then Depth(kids[n])
      else KidDepth(kids[..n])
  {
    assert kids[..n + 1][..n] == kids[..n];
    if n < |kids| - 1 { KidsAreShallower(kids[..|kids| - 1], n); }
  }

  /** The engine's serializer: it writes a shared object once for each reference to it,
      and gives up below `depth` levels of nesting. */
  method Stringifies(g: Graph, v: Value, depth: nat, ghost t: Tree) returns (ok: bool)
    requires Denotes(false, g, v, t)
    ensures ok <==> Depth(t) <= depth
    decreases t
  {
    if !v.Ptr? { return true; }
    if depth == 0 { return false; }
    var n, i := g[v.r], 0;
    while i < Slots(n)
      invariant 0 <= i <= Slots(n) && KidDepth(t.kids[..i]) <= depth - 1
    {
      var fits := Stringifies(g, Child(n, i).value, depth - 1, t.kids[i]);
      KidsAreShallower(t.kids, i);
      if !fits { return false; }
      i := i + 1;
    }
    assert t.kids[..i] == t.kids;
    return true;
  }

  /** The value is an object whose tree fits the byte limit and the engine's depth. */
  ghost predicate Acceptable(g: Graph, value: Value, engineDepth: nat) {
    && value.Ptr? && value.r in g && !g[value.r].Array?
    && exists t :: Denotes(false, g, value, t) && Bytes(t) <= JsonClone.MAX_COMPACT_BYTES && Depth(t) <= engineDepth
  }

  method ValidateTerminalState(g: Graph, value: Value, engineDepth: nat) returns (result: Validation)
    requires Closed(g) && (value.Ptr? ==> value.r in g)
    ensures result.NotObject? <==> !value.Ptr? || g[value.r].Array?
    ensures result.Accepted? <==> Acceptable(g, value, engineDepth)
    ensures result == Refused(JsonClone.TooLarge) ==> JsonClone.Oversized(g, value)
    ensures result == Refused(JsonClone.NotJson) ==> forall t :: Denotes(false, g, value, t) ==> Depth(t) > engineDepth
    ensures result.Accepted? ==> forall t :: Denotes(false, g, value, t) ==> Denotes(false, result.heap, value, t)
  {
    hide Denotes, Depth;
    if !value.Ptr? || g[value.r].Array? {
      return NotObject;
    }
    var cloned := JsonClone.CloneTerminalState(g, value.r);
    match cloned
    case Rejected(failure) => result := Refused(failure);
    case Cloned(heap, _) =>
      ghost var t :| Denotes(false, g, value, t) && Bytes(t) <= JsonClone.MAX_COMPACT_BYTES;
      forall u | Denotes(false, g, value, u) ensures u == t { DenotesUnique(false, g, value, u, t); }
      var written := Stringifies(heap, value, engineDepth, t);
      result := if written then Accepted(heap) else Refused(JsonClone.NotJson);
  }

  /** The terminal policy only narrows the wire rule: the same tree, fewer leaves. */
  lemma {:induction false} PolicyNarrowsWire(g: Graph, v: Value, t: Tree)
    requires Denotes(false, g, v, t)
    ensures Denotes(true, g, v, t)
    decreases t
  {
    if t.Branch? {
      forall i | 0 <= i < |t.kids|
        ensures SlotOk(true, g[v.r], i) && Child(g[v.r], i).Some? && Denotes(true, g, Child(g[v.r], i).value, t.kids[i])
      {
        assert SlotOk(false, g[v.r], i);
        PolicyNarrowsWire(g, Child(g[v.r], i).value, t.kids[i]);
      }
    }
  }

  /** Whatever the policy accepts, the wire check accepts on the same engine: it
      serializes a probe that is never deeper than what the policy serialized. Of what
      the cloner accepts, it accepts exactly the values with a probe within the depth. */
  method AcceptedByWireToo(g: Graph, root: Ref, engineDepth: nat) returns (policy: Validation, wire: bool)
    requires Closed(g) && root in g
    ensures policy.Accepted? <==> Acceptable(g, Ptr(root), engineDepth)
    ensures policy.Accepted? ==> wire
    ensures JsonClone.Fits(g, root) ==>
      (wire <==> exists a :: JsonStrict.IsProbe(g, Ptr(root), a, {}) && Depth(a) <= engineDepth)
  {
    hide Denotes, Depth, Bytes, JsonStrict.IsProbe, JsonStrict.MetOnce;
    policy := ValidateTerminalState(g, Ptr(root), engineDepth);
    wire := JsonStrict.IsStrictJsonValue(g, root, engineDepth);
    if policy.Accepted? {
      ghost var t :| Denotes(false, g, Ptr(root), t) && Depth(t) <= engineDepth;
      PolicyNarrowsWire(g, Ptr(root), t);
    }
    if JsonClone.Fits(g, root) {
      ghost var t :| Denotes(false, g, Ptr(root), t) && Bytes(t) <= JsonClone.MAX_COMPACT_BYTES;
      PolicyNarrowsWire(g, Ptr(root), t);
      assert JsonWalk.HasTree(true, g, Ptr(root));
    }
  }

  // ---- Too deep, though small ----

  /** An object over `n` nested arrays: `{"d": [[...]]}`. */
  function Deep(n: nat): Graph { map r: nat | r <= n :: Level(n, r) }

  function Level(n: nat, r: nat): Node {
    if r == 0 then Object([Prop([0x64], if n == 0 then Null else Ptr(1))])
    else Array(if r == n then [] else [Some(Ptr(r + 1))])
  }

  function Nest(k: nat): Tree { Branch(ArrayShape, if k <= 1 then [] else [Nest(k - 1)]) }

  lemma {:induction false} NestIs(n: nat, r: nat)
    requires 1 <= r <= n
    ensures
      var t := Nest(n - r + 1);
      Denotes(false, Deep(n), Ptr(r), t) && Depth(t) == n - r + 1 && Bytes(t) == 2 * (n - r + 1)
    decreases n - r
  {
    var t := Nest(n - r + 1);
    if r < n {
      NestIs(n, r + 1);
      OnlyKid(ArrayShape, Nest(n - r));
    }
  }

  lemma OnlyKid(shape: Shape, kid: Tree)
    ensures KidBytes(shape, [kid]) == Overhead(shape, 0) + Bytes(kid) && KidDepth([kid]) == Depth(kid)
  {
    assert [kid][..0] == [] && KidBytes(shape, []) == 0;
  }

  ghost function DeepTree(n: nat): Tree
    requires n >= 1
  {
    Branch(ObjectShape([[0x64]]), [Nest(n)])
  }

  lemma DeepIs(n: nat)
    requires n >= 1
    ensures Closed(Deep(n)) && 0 in Deep(n) && !Deep(n)[0].Array? && Denotes(false, Deep(n), Ptr(0), DeepTree(n))
    ensures Depth(DeepTree(n)) == n + 1 && Bytes(DeepTree(n)) == 2 * n + 6
  {
    NestIs(n, 1);
    var t := DeepTree(n);
    OnlyKid(t.shape, Nest(n));
    assert BodyBytes([0x64]) == 1 + BodyBytes([]);
    assert Keys(Deep(n)[0].props) == [[0x64]];
  }

  lemma {:induction false} NestOnce(n: nat, r: nat)
    requires 1 <= r <= n
    ensures var t := Nest(n - r + 1);
      && JsonStrict.MetOnce(Deep(n), Ptr(r), t)
      && (forall q :: q in JsonStrict.Expanded(Deep(n), Ptr(r), t) ==> r <= q <= n)
    decreases n - r
  {
    var g, t := Deep(n), Nest(n - r + 1);
    if r < n {
      NestOnce(n, r + 1);
      assert t.kids[..0] == [] && JsonStrict.ExpandedKids(g, g[r], []) == {};
    }
  }

  lemma DeepOnce(n: nat)
    requires n >= 1
    ensures JsonStrict.MetOnce(Deep(n), Ptr(0), DeepTree(n))
  {
    NestOnce(n, 1);
    var g, t := Deep(n), DeepTree(n);
    assert t.kids[..0] == [] && JsonStrict.ExpandedKids(g, g[0], []) == {};
  }

  /** The cloner alone does not bound the depth: of the values it accepts, one level more
      than the engine survives is refused by the wire check, and by the policy, which
      serializes the clone. */
  method DeepIsRefused(engineDepth: nat) returns (cloned: JsonClone.CloneResult, policy: Validation, wire: bool)
    requires 1 <= engineDepth && 2 * engineDepth + 6 <= JsonClone.MAX_COMPACT_BYTES
    ensures cloned.Cloned? && policy == Refused(JsonClone.NotJson) && !wire
  {
    hide Denotes, Depth, Bytes, JsonStrict.MetOnce, JsonStrict.IsProbe, DeepTree, Deep;
    var g := Deep(engineDepth);
    ghost var t := DeepTree(engineDepth);
    DeepIs(engineDepth);
    DeepOnce(engineDepth);
    PolicyNarrowsWire(g, Ptr(0), t);
    forall u | Denotes(false, g, Ptr(0), u) ensures u == t { DenotesUnique(false, g, Ptr(0), u, t); }
    assert !JsonClone.Oversized(g, Ptr(0)) && !Acceptable(g, Ptr(0), engineDepth);
    cloned := JsonClone.CloneTerminalState(g, 0);
    policy := ValidateTerminalState(g, Ptr(0), engineDepth);
    assert policy.Refused? && (policy.failure == JsonClone.TooLarge || policy.failure == JsonClone.NotJson);
    wire := JsonStrict.IsStrictJsonValue(g, 0, engineDepth);
  }
}
