/**
 Sequences without repetition: queues of callers and of runs, and the key order of
 an insertion-ordered map.
 */
module UniqueSeq {

  type Id = nat

  ghost predicate Distinct(s: seq<Id>) { forall i, j :: 0 <= i < j < |s| ==> s[i] != s[j] }

  function Without(s: seq<Id>, x: Id): (r: seq<Id>)
    ensures forall y :: y in r <==> y in s && y != x
  {
    if s == [] then [] else (if s[0] == x then [] else [s[0]]) + Without(s[1..], x)
  }

  /** Deleting many keys at once. */
  function WithoutAll(s: seq<Id>, xs: seq<Id>): (r: seq<Id>)
    ensures forall y :: y in r <==> y in s && y !in xs
  {
    if xs == [] then s else Without(WithoutAll(s, xs[..|xs| - 1]), xs[|xs| - 1])
  }

  lemma {:induction false} WithoutAppend(s: seq<Id>, t: seq<Id>, x: Id)
    ensures Without(s + t, x) == Without(s, x) + Without(t, x)
  {
    if s == [] {
      assert s + t == t;
    } else {
      assert (s + t)[1..] == s[1..] + t;
      WithoutAppend(s[1..], t, x);
    }
  }

  lemma {:induction false} WithoutAbsent(s: seq<Id>, x: Id)
    requires x !in s
    ensures Without(s, x) == s
  {
    if s != [] { WithoutAbsent(s[1..], x); }
  }

  lemma DistinctHead(s: seq<Id>)
    requires s != [] && Distinct(s)
    ensures Distinct(s[1..]) && s[0] !in s[1..] && forall x :: x in s <==> x == s[0] || x in s[1..]
  {
    assert s == [s[0]] + s[1..];
  }

  lemma DistinctAppend(s: seq<Id>, x: Id)
    requires Distinct(s) && x !in s
    ensures Distinct(s + [x])
  {
  }

  lemma {:induction false} WithoutDistinct(s: seq<Id>, x: Id)
    requires Distinct(s)
    ensures Distinct(Without(s, x))
  {
    if s != [] {
      DistinctHead(s);
      WithoutDistinct(s[1..], x);
      assert Without(s, x) == (if s[0] == x then [] else [s[0]]) + Without(s[1..], x);
    }
  }

  lemma {:induction false} WithoutAllDistinct(s: seq<Id>, xs: seq<Id>)
    requires Distinct(s)
    ensures Distinct(WithoutAll(s, xs))
  {
    if xs != [] {
      WithoutAllDistinct(s, xs[..|xs| - 1]);
      WithoutDistinct(WithoutAll(s, xs[..|xs| - 1]), xs[|xs| - 1]);
    }
  }

  lemma CutsJoin(s: seq<Id>, i: nat)
    requires 0 < i < |s|
    ensures s[1..][i - 1] == s[i] && [s[0]] + (s[1..][..i - 1] + s[1..][i..]) == s[..i] + s[i + 1..]
  {
    assert s[..i] == [s[0]] + s[1..][..i - 1];
    assert s[i + 1..] == s[1..][i..];
  }

  lemma WithoutStep(s: seq<Id>, x: Id)
    requires s != []
    ensures Without(s, x) == if s[0] == x then Without(s[1..], x) else [s[0]] + Without(s[1..], x)
  {
  }

  lemma {:induction false} WithoutCuts(s: seq<Id>, i: nat)
    requires Distinct(s) && i < |s|
    ensures Without(s, s[i]) == s[..i] + s[i + 1..]
  {
    DistinctHead(s);
    assert i > 0 ==> s[0] != s[i];
    WithoutStep(s, s[i]);
    hide Without, Distinct;
    if i == 0 {
      WithoutAbsent(s[1..], s[0]);
      assert s[..0] + s[1..] == s[1..];
    } else {
      WithoutCuts(s[1..], i - 1);
      CutsJoin(s, i);
    }
  }
}
