/**
 Finite heaps of JavaScript values, the JSON trees they unfold to, and the size
 of a tree's compact JSON text. Both terminal-state traversals are specified
 against the relation `Denotes` defined here.
 */
module JsonGraph {
  import opened Utf16
  import opened Wrappers

  type Ref = nat

  /** A value as the traversals classify it. `Number` carries the text that
      `JSON.stringify` prints for a finite number; `NonFinite` is NaN or an
      infinity; `Other` is undefined, a function, a symbol or a bigint. */
  datatype Value =
    | Null
    | Bool(b: bool)
    | Number(digits: Text)
    | NonFinite
    | Other
    | Str(s: Text)
    | Ptr(r: Ref)

  datatype Prop = Prop(key: Text, value: Value)

  /** A heap object: an array whose `None` items are holes, a plain object with
      its own enumerable keys in order, or an object with a foreign prototype. */
  datatype Node =
    | Array(items: seq<Option<Value>>)
    | Object(props: seq<Prop>)
    | Foreign

  type Graph = map<Ref, Node>

  /** Every reference in the heap resolves. */
  ghost predicate Closed(g: Graph) {
    forall r, i :: r in g && 0 <= i < Slots(g[r]) && Child(g[r], i).Some? && Child(g[r], i).value.Ptr?
                   ==> Child(g[r], i).value.r in g
  }

  function Slots(n: Node): nat {
    match n
    case Array(items) => |items|
    case Object(props) => |props|
    case Foreign => 0
  }

  function Child(n: Node, i: nat): Option<Value>
    requires i < Slots(n)
  {
    match n
    case Array(items) => items[i]
    case Object(props) => Some(props[i].value)
  }

  // ---- Writable text ----

  /** PostgreSQL can store the string: no NUL, no unpaired surrogate. */
  predicate PgText(s: Text) { 0 !in s && WellPaired(s) }

  // ---- JSON trees ----

  datatype Shape = ArrayShape | ObjectShape(keys: seq<Text>)

  datatype Tree = Leaf(v: Value) | Branch(shape: Shape, kids: seq<Tree>)

  function Keys(props: seq<Prop>): (ks: seq<Text>)
    ensures |ks| == |props| && forall i :: 0 <= i < |ks| ==> ks[i] == props[i].key
  {
    seq(|props|, i requires 0 <= i < |props| => props[i].key)
  }

  function ShapeOf(n: Node): Shape
    requires !n.Foreign?
  {
    if n.Array? then ArrayShape else ObjectShape(Keys(n.props))
  }

  /** Legality of leaves and keys. The wire layer (`wire`) takes any string; the
      terminal policy only those that PostgreSQL can store. */
  predicate LeafOk(wire: bool, v: Value) {
    match v
    case Null => true
    case Bool(_) => true
    case Number(_) => true
    case Str(s) => wire || PgText(s)
    case _ => false
  }

  predicate SlotOk(wire: bool, n: Node, i: nat)
    requires i < Slots(n)
  {
    match n
    case Array(items) => items[i].Some?
    case Object(props) => wire || PgText(props[i].key)
  }

  /** `t` is the finite unfolding of `v` in the heap `g`, all of it strict JSON. */
  ghost predicate Denotes(wire: bool, g: Graph, v: Value, t: Tree)
    decreases t
  {
    match t
    case Leaf(w) => v == w && LeafOk(wire, v)
    case Branch(shape, kids) =>
      && v.Ptr? && v.r in g && !g[v.r].Foreign?
      && shape == ShapeOf(g[v.r]) && |kids| == Slots(g[v.r])
      && forall i :: 0 <= i < |kids| ==>
           SlotOk(wire, g[v.r], i) && Child(g[v.r], i).Some? && Denotes(wire, g, Child(g[v.r], i).value, kids[i])
  }

  lemma {:induction false} DenotesUnique(wire: bool, g: Graph, v: Value, t: Tree, u: Tree)
    requires Denotes(wire, g, v, t) && Denotes(wire, g, v, u)
    ensures t == u
    decreases t
  {
    if t.Branch? {
      forall i | 0 <= i < |t.kids| ensures t.kids[i] == u.kids[i] {
        DenotesUnique(wire, g, Child(g[v.r], i).value, t.kids[i], u.kids[i]);
      }
    }
  }

  // ---- Size of the compact JSON text ----

  /** UTF-8 bytes of a string's JSON body: short escapes, `\u00XX` escapes for
      other controls, `\uDXXX` escapes for lone surrogates, else plain UTF-8. */
  function BodyBytes(s: Text): (n: nat)
    ensures n >= |s|
  {
    if s == [] then 0
    else if |s| >= 2 && High(s[0]) && Low(s[1]) then 4 + BodyBytes(s[2..])
    else UnitBytes(s[0]) + BodyBytes(s[1..])
  }

  function UnitBytes(u: Unit): (n: nat)
    ensures n >= 1
  {
    if u == 0x22 || u == 0x5C || 8 <= u <= 10 || 12 <= u <= 13 then 2
    else if u < 0x20 || High(u) || Low(u) then 6
    else if u < 0x80 then 1
    else if u < 0x800 then 2
    else 3
  }

  function StringBytes(s: Text): nat { BodyBytes(s) + 2 }

  function LeafBytes(v: Value): nat {
    match v
    case Null => 4
    case Bool(b) => if b then 4 else 5
    case Number(digits) => |digits|
    case Str(s) => StringBytes(s)
    case _ => 0
  }

  /** Comma before slot `i`, plus the quoted key and colon in an object. */
  function Overhead(shape: Shape, i: nat): nat {
    (if i > 0 then 1 else 0) +
    if shape.ObjectShape? && i < |shape.keys| then StringBytes(shape.keys[i]) + 1 else 0
  }

  function Bytes(t: Tree): nat {
    match t
    case Leaf(v) => LeafBytes(v)
    case Branch(shape, kids) => 2 + KidBytes(shape, kids)
  }

  function KidBytes(shape: Shape, kids: seq<Tree>): nat
    decreases kids
  {
    if kids == [] then 0
    else
      KidBytes(shape, kids[..|kids| - 1]) + Overhead(shape, |kids| - 1) + Bytes(kids[|kids| - 1])
  }

  lemma {:induction false} KidBytesMonotone(shape: Shape, kids: seq<Tree>, n: nat)
    requires n <= |kids|
    ensures KidBytes(shape, kids[..n]) <= KidBytes(shape, kids)
    ensures n < |kids| ==>
              KidBytes(shape, kids[..n]) + Overhead(shape, n) + Bytes(kids[n]) <= KidBytes(shape, kids)
    decreases |kids|
  {
    if n == |kids| {
      assert kids[..n] == kids;
    } else {
      var last := |kids| - 1;
      KidBytesMonotone(shape, kids[..last], n);
      assert kids[..last][..n] == kids[..n];
    }
  }

  // ---- Weight: a measure that strictly falls on subtrees ----

  function Weight(t: Tree): (w: nat)
    ensures w >= 1
  {
    match t
    case Leaf(_) => 1
    case Branch(_, kids) => 1 + KidWeight(kids)
  }

  function KidWeight(kids: seq<Tree>): nat {
    if kids == [] then 0 else KidWeight(kids[..|kids| - 1]) + Weight(kids[|kids| - 1])
  }

  lemma {:induction false} KidLighter(kids: seq<Tree>, i: nat)
    requires i < |kids|
    ensures Weight(kids[i]) <= KidWeight(kids)
    decreases |kids|
  {
    if i < |kids| - 1 {
      KidLighter(kids[..|kids| - 1], i);
    }
  }

  // ---- Depth, and the engine's recursive serializer ----

  function Depth(t: Tree): nat {
    match t
    case Leaf(_) => 0
    case Branch(_, kids) => 1 + KidDepth(kids)
  }

  function KidDepth(kids: seq<Tree>): nat {
    if kids == [] then 0
    else
      var rest := KidDepth(kids[..|kids| - 1]);
      var last := Depth(kids[|kids| - 1]);
      if rest < last then last else rest
  }

  // ---- Acyclicity, stated on reference paths ----

  predicate Points(g: Graph, a: Ref, b: Ref) {
    a in g && exists i :: 0 <= i < Slots(g[a]) && Child(g[a], i) == Some(Ptr(b))
  }

  ghost predicate Path(g: Graph, p: seq<Ref>) {
    |p| > 0 && forall i :: 0 <= i < |p| - 1 ==> Points(g, p[i], p[i + 1])
  }

  /** No reference reachable from `root` reaches itself. */
  ghost predicate Acyclic(g: Graph, root: Ref) {
    !exists p, i :: Path(g, p) && p[0] == root && 0 <= i < |p| - 1 && p[i] == p[|p| - 1]
  }

  ghost predicate LegalNode(wire: bool, n: Node) {
    && !n.Foreign?
    && forall i :: 0 <= i < Slots(n) ==>
         SlotOk(wire, n, i) && Child(n, i).Some? && (Child(n, i).value.Ptr? || LeafOk(wire, Child(n, i).value))
  }

  /** Every reachable object is strict JSON. */
  ghost predicate LegalFrom(wire: bool, g: Graph, root: Ref) {
    forall p :: Path(g, p) && p[0] == root ==> p[|p| - 1] in g && LegalNode(wire, g[p[|p| - 1]])
  }

  /** A graph unfolds to a finite JSON tree exactly when everything reachable is
      legal and nothing reachable is cyclic. */
  lemma UnfoldsIffAcyclicAndLegal(wire: bool, g: Graph, root: Ref)
    requires Closed(g) && root in g
    ensures (exists t :: Denotes(wire, g, Ptr(root), t)) <==> Acyclic(g, root) && LegalFrom(wire, g, root)
  {
    if t :| Denotes(wire, g, Ptr(root), t) {
      forall p | Path(g, p) && p[0] == root
        ensures p[|p| - 1] in g && LegalNode(wire, g[p[|p| - 1]])
      {
        var u := TreeAlong(wire, g, p, |p| - 1, t);
        LegalHere(wire, g, p[|p| - 1], u);
      }
      UnfoldingIsAcyclic(wire, g, root, t);
    }
    if Acyclic(g, root) && LegalFrom(wire, g, root) {
      assert Path(g, [root]);
      var t := BuildTree(wire, g, root, [root]);
      assert Denotes(wire, g, Ptr(root), t);
    }
  }

  lemma UnfoldingIsAcyclic(wire: bool, g: Graph, root: Ref, t: Tree)
    requires Denotes(wire, g, Ptr(root), t)
    ensures Acyclic(g, root)
  {
    forall p, i | Path(g, p) && p[0] == root && 0 <= i < |p| - 1
      ensures p[i] != p[|p| - 1]
    {
      var u := TreeAlong(wire, g, p, i, t);
      PathSuffix(g, p, i);
      var w := TreeAlong(wire, g, p[i..], |p| - 1 - i, u);
      if p[i] == p[|p| - 1] {
        DenotesUnique(wire, g, Ptr(p[i]), u, w);
      }
    }
  }

  lemma PathSuffix(g: Graph, p: seq<Ref>, i: nat)
    requires Path(g, p) && i < |p|
    ensures Path(g, p[i..]) && p[i..][0] == p[i]
  {
    forall k | 0 <= k < |p[i..]| - 1 ensures Points(g, p[i..][k], p[i..][k + 1]) {
      assert Points(g, p[i + k], p[i + k + 1]);
    }
  }

  lemma LegalHere(wire: bool, g: Graph, r: Ref, t: Tree)
    requires Denotes(wire, g, Ptr(r), t)
    ensures r in g && LegalNode(wire, g[r])
  {
    forall i | 0 <= i < Slots(g[r])
      ensures SlotOk(wire, g[r], i) && Child(g[r], i).Some?
      ensures Child(g[r], i).value.Ptr? || LeafOk(wire, Child(g[r], i).value)
    {
      ChildTree(wire, g, r, t, i);
    }
  }

  /** A child of a denoted object is denoted by the matching, lighter subtree. */
  lemma ChildTree(wire: bool, g: Graph, r: Ref, t: Tree, i: nat)
    requires Denotes(wire, g, Ptr(r), t) && i < Slots(g[r])
    ensures t.Branch? && i < |t.kids| && SlotOk(wire, g[r], i) && Child(g[r], i).Some?
    ensures Denotes(wire, g, Child(g[r], i).value, t.kids[i])
    ensures Weight(t.kids[i]) < Weight(t)
  {
    KidLighter(t.kids, i);
  }

  /** Following a path from a denoted reference stays inside its tree. */
  lemma {:induction false} TreeAlong(wire: bool, g: Graph, p: seq<Ref>, k: nat, t: Tree) returns (u: Tree)
    requires Path(g, p) && k < |p| && Denotes(wire, g, Ptr(p[0]), t)
    ensures Denotes(wire, g, Ptr(p[k]), u)
    ensures if k == 0 then u == t else Weight(u) < Weight(t)
    decreases k
  {
    if k == 0 {
      u := t;
    } else {
      var above := TreeAlong(wire, g, p, k - 1, t);
      var a := p[k - 1];
      assert Points(g, a, p[k - 1 + 1]);
      var i :| 0 <= i < Slots(g[a]) && Child(g[a], i) == Some(Ptr(p[k]));
      ChildTree(wire, g, a, above, i);
      u := above.kids[i];
    }
  }

  /** Depth-first unfolding along a path without repeats. */
  lemma {:induction false} BuildTree(wire: bool, g: Graph, root: Ref, p: seq<Ref>) returns (t: Tree)
    requires Closed(g) && Acyclic(g, root) && LegalFrom(wire, g, root)
    requires Path(g, p) && p[0] == root
    ensures Denotes(wire, g, Ptr(p[|p| - 1]), t)
    decreases Unvisited(g, p), 1, 0
  {
    var r := p[|p| - 1];
    assert LegalNode(wire, g[r]);
    var kids := BuildKids(wire, g, root, p, Slots(g[r]));
    t := Branch(ShapeOf(g[r]), kids);
  }

  lemma {:induction false} BuildKids(wire: bool, g: Graph, root: Ref, p: seq<Ref>, n: nat) returns (kids: seq<Tree>)
    requires Closed(g) && Acyclic(g, root) && LegalFrom(wire, g, root)
    requires Path(g, p) && p[0] == root && p[|p| - 1] in g && LegalNode(wire, g[p[|p| - 1]])
    requires n <= Slots(g[p[|p| - 1]])
    ensures |kids| == n
    ensures forall i :: 0 <= i < n ==> Denotes(wire, g, Child(g[p[|p| - 1]], i).value, kids[i])
    decreases Unvisited(g, p), 0, n
  {
    if n == 0 {
      kids := [];
    } else {
      var before := BuildKids(wire, g, root, p, n - 1);
      var v := Child(g[p[|p| - 1]], n - 1).value;
      var t := Leaf(v);
      if v.Ptr? {
        StepAlong(g, root, p, n - 1);
        t := BuildTree(wire, g, root, p + [v.r]);
      }
      kids := before + [t];
    }
  }

  ghost function Unvisited(g: Graph, p: seq<Ref>): set<Ref> { set r | r in g && r !in p }

  /** In an acyclic graph a path can be extended by any child, and is then closer
      to having visited everything. */
  lemma StepAlong(g: Graph, root: Ref, p: seq<Ref>, i: nat)
    requires Closed(g) && Acyclic(g, root) && Path(g, p) && p[0] == root && p[|p| - 1] in g
    requires i < Slots(g[p[|p| - 1]]) && Child(g[p[|p| - 1]], i).Some? && Child(g[p[|p| - 1]], i).value.Ptr?
    ensures var q := p + [Child(g[p[|p| - 1]], i).value.r]; Path(g, q) && Unvisited(g, q) < Unvisited(g, p)
  {
    var r := Child(g[p[|p| - 1]], i).value.r;
    var q := p + [r];
    forall k | 0 <= k < |q| - 1 ensures Points(g, q[k], q[k + 1]) {
      if k < |p| - 1 {
        assert Points(g, p[k], p[k + 1]);
      } else {
        assert Child(g[p[|p| - 1]], i) == Some(Ptr(r));
      }
    }
    forall k | 0 <= k < |p| ensures p[k] != r {
      assert q[k] == p[k] && q[|q| - 1] == r;
    }
    assert r in Unvisited(g, p) && r !in Unvisited(g, q);
  }
}
