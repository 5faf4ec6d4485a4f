/** Sorting by a given order, as the Go library sorts are used. */
module Sorting {

  /** `le` compares any two values and is transitive; equal-ranking values may differ. */
  ghost predicate IsOrder<T(!new)>(le: (T, T) -> bool) {
    (forall a, b :: le(a, b) || le(b, a)) && (forall a, b, c :: le(a, b) && le(b, c) ==> le(a, c))
  }

  ghost predicate IsSorted<T>(s: seq<T>, le: (T, T) -> bool) { forall i, j :: 0 <= i < j < |s| ==> le(s[i], s[j]) }

  /** Stable: `x` goes before the first element that does not come before it. */
  function Insert<T>(x: T, s: seq<T>, le: (T, T) -> bool): seq<T> {
    if s == [] || le(x, s[0]) then [x] + s else [s[0]] + Insert(x, s[1..], le)
  }

  function Sort<T>(s: seq<T>, le: (T, T) -> bool): seq<T> {
    if s == [] then [] else Insert(s[0], Sort(s[1..], le), le)
  }

  lemma {:induction false} InsertSorts<T(!new)>(x: T, s: seq<T>, le: (T, T) -> bool)
    requires IsOrder(le) && IsSorted(s, le)
    ensures IsSorted(Insert(x, s, le), le) && multiset(Insert(x, s, le)) == multiset{x} + multiset(s)
  {
    if s == [] {
    } else if le(x, s[0]) {
      ConsSorted(x, s, le);
    } else {
      var rest := Insert(x, s[1..], le);
      assert s == [s[0]] + s[1..];
      InsertSorts(x, s[1..], le);
      forall y | y in rest
        ensures le(s[0], y)
      {
        assert y in multiset(rest);
        if y != x {
          assert y in s[1..];
        }
      }
      ConsSorted(s[0], rest, le);
    }
  }

  lemma ConsSorted<T(!new)>(x: T, s: seq<T>, le: (T, T) -> bool)
    requires IsOrder(le) && IsSorted(s, le) && ((forall y :: y in s ==> le(x, y)) || (s != [] && le(x, s[0])))
    ensures IsSorted([x] + s, le)
  {
    assert forall j :: 0 < j < |[x] + s| ==> ([x] + s)[j] == s[j - 1];
  }

  /** Sorting orders the elements and neither loses nor adds any. */
  lemma {:induction false} SortSorts<T(!new)>(s: seq<T>, le: (T, T) -> bool)
    requires IsOrder(le)
    ensures IsSorted(Sort(s, le), le) && multiset(Sort(s, le)) == multiset(s) && |Sort(s, le)| == |s|
  {
    if s != [] {
      SortSorts(s[1..], le);
      InsertSorts(s[0], Sort(s[1..], le), le);
      assert s == [s[0]] + s[1..];
    }
    assert |multiset(Sort(s, le))| == |multiset(s)|;
  }

  lemma SortMembers<T(!new)>(s: seq<T>, le: (T, T) -> bool)
    requires IsOrder(le)
    ensures forall x :: x in Sort(s, le) <==> x in s
  {
    SortSorts(s, le);
    assert forall x :: x in Sort(s, le) <==> x in multiset(Sort(s, le));
    assert forall x :: x in s <==> x in multiset(s);
  }

  /** Taking one element out of a permutation leaves a permutation of the others. */
  lemma PermutationWithout<T>(a: seq<T>, b: seq<T>) returns (i: nat)
    requires a != [] && multiset(a) == multiset(b)
    ensures i < |b| && b[i] == a[0] && multiset(a[1..]) == multiset(b[..i] + b[i + 1..])
    ensures |b[..i] + b[i + 1..]| == |a| - 1
  {
    assert a[0] in multiset(b);
    i :| i < |b| && b[i] == a[0];
    var rest := b[..i] + b[i + 1..];
    assert b == b[..i] + [b[i]] + b[i + 1..];
    assert a == [a[0]] + a[1..];
    assert multiset(b) == multiset(rest) + multiset{a[0]};
    assert multiset(a[1..]) == multiset(a) - multiset{a[0]};
    assert |multiset(a[1..])| == |multiset(rest)|;
  }

  // ----- there is only one way to sort -----

  predicate Distinct<T(==)>(s: seq<T>) { forall i, j :: 0 <= i < j < |s| ==> s[i] != s[j] }

  /** Sorted lists of the same elements are the same when the order tells any two of them apart. */
  lemma {:induction false} SortedUnique<T(!new)>(a: seq<T>, b: seq<T>, le: (T, T) -> bool)
    requires Distinct(a) && Distinct(b) && IsSorted(a, le) && IsSorted(b, le) && forall x :: x in a <==> x in b
    requires forall x, y :: x in a && y in a && le(x, y) && le(y, x) ==> x == y
    ensures a == b
    decreases |a|
  {
    if a == [] {
      EmptyOrHas(b);
    } else {
      assert a[0] in a && b != [];
      FirstIsLeast(a, b, le);
      RestHasRest(a, b);
      SortedUnique(a[1..], b[1..], le);
      assert a == [a[0]] + a[1..] && b == [b[0]] + b[1..];
    }
  }

  lemma EmptyOrHas<T>(s: seq<T>)
    ensures s == [] || exists x :: x in s
  {
    if s != [] {
      assert s[0] in s;
    }
  }

  lemma FirstIsLeast<T(!new)>(a: seq<T>, b: seq<T>, le: (T, T) -> bool)
    requires a != [] && b != [] && IsSorted(a, le) && IsSorted(b, le) && forall x :: x in a <==> x in b
    requires forall x, y :: x in a && y in a && le(x, y) && le(y, x) ==> x == y
    ensures a[0] == b[0]
  {
    assert a[0] in b && b[0] in a;
    var i :| 0 <= i < |b| && b[i] == a[0];
    var j :| 0 <= j < |a| && a[j] == b[0];
  }

  lemma RestHasRest<T(!new)>(a: seq<T>, b: seq<T>)
    requires a != [] && b != [] && a[0] == b[0] && Distinct(a) && Distinct(b) && forall x :: x in a <==> x in b
    ensures forall x :: x in a[1..] <==> x in b[1..]
    ensures forall x :: x in a[1..] ==> x in a
  {
    RestOf(a);
    RestOf(b);
  }

  lemma RestOf<T(!new)>(a: seq<T>)
    requires a != [] && Distinct(a)
    ensures forall x :: x in a[1..] <==> x in a && x != a[0]
  {
    assert a == [a[0]] + a[1..];
    assert a[0] !in a[1..];
  }

  lemma {:induction false} DistinctSet<T>(s: seq<T>)
    requires Distinct(s)
    ensures |set x | x in s| == |s|
  {
    if s != [] {
      DistinctSet(s[1..]);
      assert s == [s[0]] + s[1..];
      assert (set x | x in s) == {s[0]} + set x | x in s[1..];
      assert s[0] !in s[1..];
    } else {
      assert (set x | x in s) == {};
    }
  }

  /** Distinct lists of one length have the same elements when one has those of the other. */
  lemma SameElements<T>(a: seq<T>, b: seq<T>)
    requires Distinct(a) && Distinct(b) && |a| == |b| && forall x :: x in a ==> x in b
    ensures forall x :: x in a <==> x in b
  {
    var left, right := set x | x in a, set x | x in b;
    DistinctSet(a);
    DistinctSet(b);
    assert left <= right && right == left + (right - left);
    assert |right| == |left| + |right - left| && right - left == {};
    forall x | x in b
      ensures x in a
    {
      assert x in right && x !in right - left;
    }
  }
}
