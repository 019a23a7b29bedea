/**
 JavaScript's default string order, and sorting by a text key.
 */
module TextOrder {
  import opened Utf16

  /** Code unit by code unit; a proper prefix comes first. */
  predicate Less(a: Text, b: Text) {
    if b == [] then false
    else if a == [] then true
    else a[0] < b[0] || (a[0] == b[0] && Less(a[1..], b[1..]))
  }

  lemma {:induction false} LessTotal(a: Text, b: Text)
    ensures Less(a, b) || a == b || Less(b, a)
    ensures !(Less(a, b) && Less(b, a)) && !Less(a, a)
  {
    if a != [] {
      LessTotal(a[1..], a[1..]);
      if b != [] && a[0] == b[0] {
        LessTotal(a[1..], b[1..]);
        assert a == [a[0]] + a[1..] && b == [b[0]] + b[1..];
      }
    }
  }

  lemma {:induction false} LessTransitive(a: Text, b: Text, c: Text)
    requires Less(a, b) && Less(b, c)
    ensures Less(a, c)
  {
    if a != [] && a[0] == b[0] == c[0] { LessTransitive(a[1..], b[1..], c[1..]); }
  }

  ghost predicate Increasing<T(!new)>(s: seq<T>, key: T -> Text) {
    forall i, j :: 0 <= i < j < |s| ==> Less(key(s[i]), key(s[j]))
  }

  ghost predicate SameElements<T(!new)>(a: seq<T>, b: seq<T>) { forall x :: x in a <==> x in b }

  /** A stable insertion before the first element that is not smaller. */
  function Insert<T(!new)>(e: T, s: seq<T>, key: T -> Text): (r: seq<T>)
    ensures |r| == |s| + 1 && forall x :: x in r <==> x == e || x in s
  {
    if s == [] then [e]
    else if Less(key(s[0]), key(e)) then assert s == [s[0]] + s[1..]; [s[0]] + Insert(e, s[1..], key)
    else [e] + s
  }

  function SortBy<T(!new)>(s: seq<T>, key: T -> Text): (r: seq<T>)
    ensures |r| == |s| && forall x :: x in r <==> x in s
  {
    if s == [] then [] else assert s == [s[0]] + s[1..]; Insert(s[0], SortBy(s[1..], key), key)
  }

  lemma {:induction false} InsertBag<T(!new)>(e: T, s: seq<T>, key: T -> Text)
    ensures multiset(Insert(e, s, key)) == multiset(s) + multiset{e}
  {
    if s != [] {
      assert s == [s[0]] + s[1..];
      if Less(key(s[0]), key(e)) { InsertBag(e, s[1..], key); }
    }
  }

  /** Sorting keeps every entry as often as it was there. */
  lemma {:induction false} SortByBag<T(!new)>(s: seq<T>, key: T -> Text)
    ensures multiset(SortBy(s, key)) == multiset(s)
  {
    if s != [] {
      assert s == [s[0]] + s[1..];
      SortByBag(s[1..], key);
      InsertBag(s[0], SortBy(s[1..], key), key);
    }
  }

  lemma SameHead<T(!new)>(a: seq<T>, b: seq<T>, key: T -> Text)
    requires a != [] && b != [] && SameElements(a, b) && Increasing(a, key) && Increasing(b, key)
    ensures a[0] == b[0]
  {
    assert a[0] in b && b[0] in a;
    var i :| 0 <= i < |b| && b[i] == a[0];
    var j :| 0 <= j < |a| && a[j] == b[0];
    LessTotal(key(a[0]), key(b[0]));
  }

  lemma TailElement<T(!new)>(s: seq<T>, x: T, key: T -> Text)
    requires s != [] && Increasing(s, key)
    ensures x in s[1..] <==> x in s && x != s[0]
  {
    LessTotal(key(s[0]), key(s[0]));
    if x in s[1..] {
      var i :| 0 <= i < |s[1..]| && s[1..][i] == x;
      assert s[i + 1] == x;
    }
  }

  /** Two increasing lists of the same elements are equal. */
  lemma {:induction false} IncreasingUnique<T(!new)>(a: seq<T>, b: seq<T>, key: T -> Text)
    requires SameElements(a, b) && Increasing(a, key) && Increasing(b, key)
    ensures a == b
    decreases |a|
  {
    if a == [] {
      assert forall i :: 0 <= i < |b| ==> b[i] in a;
    } else {
      assert a[0] in b;
      SameHead(a, b, key);
      forall x ensures x in a[1..] <==> x in b[1..] {
        TailElement(a, x, key);
        TailElement(b, x, key);
      }
      IncreasingUnique(a[1..], b[1..], key);
      assert a == [a[0]] + a[1..] && b == [b[0]] + b[1..];
    }
  }

  ghost predicate DistinctKeys<T(!new)>(s: seq<T>, key: T -> Text) {
    forall i, j :: 0 <= i < j < |s| ==> key(s[i]) != key(s[j])
  }

  lemma {:induction false} SortByIncreases<T(!new)>(s: seq<T>, key: T -> Text)
    requires DistinctKeys(s, key)
    ensures Increasing(SortBy(s, key), key)
  {
    if s != [] {
      SortByIncreases(s[1..], key);
      forall x | x in SortBy(s[1..], key) ensures key(x) != key(s[0]) {
        var i :| 0 <= i < |s[1..]| && s[1..][i] == x;
        assert s[i + 1] == x;
      }
      InsertIncreases(s[0], SortBy(s[1..], key), key);
    }
  }

  lemma {:induction false} InsertIncreases<T(!new)>(e: T, s: seq<T>, key: T -> Text)
    requires Increasing(s, key) && forall x :: x in s ==> key(x) != key(e)
    ensures Increasing(Insert(e, s, key), key)
  {
    if s != [] {
      var r := Insert(e, s, key);
      LessTotal(key(s[0]), key(e));
      if Less(key(s[0]), key(e)) {
        var rest := Insert(e, s[1..], key);
        InsertIncreases(e, s[1..], key);
        forall i, j | 0 <= i < j < |r| ensures Less(key(r[i]), key(r[j])) {
          assert r[j] == rest[j - 1] && rest[j - 1] in rest;
          if i > 0 { assert r[i] == rest[i - 1]; }
          else if r[j] != e { assert r[j] in s[1..]; }
        }
      } else {
        forall i, j | 0 <= i < j < |r| ensures Less(key(r[i]), key(r[j])) {
          assert r[j] == s[j - 1];
          if i > 0 { assert r[i] == s[i - 1]; }
          else if j > 1 { LessTransitive(key(e), key(s[0]), key(s[j - 1])); }
        }
      }
    }
  }

  /** Lists of the same elements with distinct keys sort to the same list. */
  lemma SortForgetsOrder<T(!new)>(a: seq<T>, b: seq<T>, key: T -> Text)
    requires SameElements(a, b) && DistinctKeys(a, key) && DistinctKeys(b, key)
    ensures SortBy(a, key) == SortBy(b, key)
  {
    SortByIncreases(a, key);
    SortByIncreases(b, key);
    IncreasingUnique(SortBy(a, key), SortBy(b, key), key);
  }

  /** Lists with the same distinct keys in the same order sort alike only if they are equal. */
  lemma SameKeysSortAlike<T(!new)>(a: seq<T>, b: seq<T>, key: T -> Text)
    requires |a| == |b| && DistinctKeys(a, key) && forall i :: 0 <= i < |a| ==> key(a[i]) == key(b[i])
    requires SortBy(a, key) == SortBy(b, key)
    ensures a == b
  {
    forall i | 0 <= i < |a| ensures a[i] == b[i] {
      assert a[i] in SortBy(a, key) && a[i] in SortBy(b, key);
      var j :| 0 <= j < |b| && b[j] == a[i];
      assert key(a[i]) == key(a[j]);
    }
  }
}
