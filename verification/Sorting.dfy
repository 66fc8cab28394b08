/** The standard library's stable sort, as far as the program relies on it. */
module Sorting {

  ghost predicate TotalPreorder<T(!new)>(le: (T, T) -> bool) {
    && (forall x, y :: le(x, y) || le(y, x))
    && (forall x, y, z :: le(x, y) && le(y, z) ==> le(x, z))
  }

  ghost predicate SortedBy<T>(s: seq<T>, le: (T, T) -> bool) {
    forall i, j :: 0 <= i < j < |s| ==> le(s[i], s[j])
  }

  /** x after every element of a sorted s not above it. */
  function Insert<T>(x: T, s: seq<T>, le: (T, T) -> bool): (r: seq<T>)
    ensures multiset(r) == multiset(s) + multiset{x} && |r| == |s| + 1
  {
    if s == [] then [x] else
    var n := |s| - 1;
    assert s == s[..n] + [s[n]];
    if le(s[n], x) then s + [x] else Insert(x, s[..n], le) + [s[n]]
  }

  /** slices.SortStableFunc. */
  function Sort<T>(s: seq<T>, le: (T, T) -> bool): (r: seq<T>)
    ensures multiset(r) == multiset(s) && |r| == |s|
  {
    if s == [] then [] else
    var n := |s| - 1;
    assert s == s[..n] + [s[n]];
    Insert(s[n], Sort(s[..n], le), le)
  }

  lemma {:induction false} InsertSorted<T(!new)>(x: T, s: seq<T>, le: (T, T) -> bool)
    requires TotalPreorder(le) && SortedBy(s, le)
    ensures SortedBy(Insert(x, s, le), le)
  {
    if s != [] {
      var n := |s| - 1;
      if !le(s[n], x) {
        InsertSorted(x, s[..n], le);
        var r := Insert(x, s[..n], le);
        forall i | 0 <= i < |r|
          ensures le(r[i], s[n])
        {
          assert r[i] in multiset(r);
          assert r[i] == x || r[i] in s[..n];
        }
      } else {
        assert forall i :: 0 <= i < |s| ==> le(s[i], x);
      }
    }
  }

  lemma {:induction false} SortSorted<T(!new)>(s: seq<T>, le: (T, T) -> bool)
    requires TotalPreorder(le)
    ensures SortedBy(Sort(s, le), le)
  {
    if s != [] {
      var n := |s| - 1;
      SortSorted(s[..n], le);
      InsertSorted(s[n], Sort(s[..n], le), le);
    }
  }

  /** What is sorted already stays as it is. */
  lemma {:induction false} SortOfSorted<T>(s: seq<T>, le: (T, T) -> bool)
    requires SortedBy(s, le)
    ensures Sort(s, le) == s
  {
    if s != [] {
      SortOfSorted(s[..|s| - 1], le);
    }
  }

  ghost predicate NoTies<T>(a: seq<T>, le: (T, T) -> bool) {
    forall x, y :: x in a && y in a && le(x, y) && le(y, x) ==> x == y
  }

  lemma SameHead<T>(a: seq<T>, b: seq<T>, le: (T, T) -> bool)
    requires a != [] && b != [] && multiset(a) == multiset(b)
    requires SortedBy(a, le) && SortedBy(b, le) && NoTies(a, le)
    ensures a[0] == b[0]
  {
    assert a[0] in multiset(b) && b[0] in multiset(a);
    assert a[0] in b && b[0] in a;
  }

  lemma SameLength<T>(a: seq<T>, b: seq<T>)
    requires multiset(a) == multiset(b)
    ensures |a| == |b|
  {
    assert |multiset(a)| == |a| && |multiset(b)| == |b|;
  }

  lemma TailsFit<T>(a: seq<T>, b: seq<T>, le: (T, T) -> bool)
    requires a != [] && b != [] && multiset(a) == multiset(b)
    requires SortedBy(a, le) && SortedBy(b, le) && NoTies(a, le)
    ensures a[0] == b[0] && multiset(a[1..]) == multiset(b[1..])
    ensures SortedBy(a[1..], le) && SortedBy(b[1..], le) && NoTies(a[1..], le)
  {
    SameHead(a, b, le);
    MultisetTail(a);
    MultisetTail(b);
    SortedTail(a, le);
    SortedTail(b, le);
  }

  /** A sequence has one sorted arrangement when no two of its elements tie. */
  lemma {:induction false} SortedUnique<T>(a: seq<T>, b: seq<T>, le: (T, T) -> bool)
    requires multiset(a) == multiset(b)
    requires SortedBy(a, le) && SortedBy(b, le) && NoTies(a, le)
    ensures a == b
  {
    SameLength(a, b);
    if a != [] {
      var x := a[0];
      TailsFit(a, b, le);
      SortedUnique(a[1..], b[1..], le);
      assert a == [x] + a[1..] && b == [x] + b[1..];
    }
  }

  lemma MultisetTail<T>(s: seq<T>)
    requires s != []
    ensures multiset(s[1..]) == multiset(s) - multiset{s[0]}
  {
    assert s == [s[0]] + s[1..];
  }

  lemma SortedTail<T>(s: seq<T>, le: (T, T) -> bool)
    requires s != [] && SortedBy(s, le)
    ensures SortedBy(s[1..], le)
    ensures NoTies(s, le) ==> NoTies(s[1..], le)
  {
    assert forall x :: x in s[1..] ==> x in s;
  }

  lemma Without<T>(s: seq<T>, i: nat)
    requires i < |s|
    ensures multiset(s[..i] + s[i + 1..]) == multiset(s) - multiset{s[i]}
  {
    assert s == s[..i] + [s[i]] + s[i + 1..];
  }

  /** An element counted twice stands at two places. */
  lemma TwoPlaces<T>(s: seq<T>, x: T) returns (p: nat, q: nat)
    requires multiset(s)[x] >= 2
    ensures p < q < |s| && s[p] == x && s[q] == x
  {
    assert x in multiset(s);
    var i :| 0 <= i < |s| && s[i] == x;
    Without(s, i);
    assert x in multiset(s[..i] + s[i + 1..]);
    var j :| 0 <= j < |s| - 1 && (s[..i] + s[i + 1..])[j] == x;
    p, q := if j < i then j else i, if j < i then i else j + 1;
  }

  lemma CountedTwice<T>(s: seq<T>, p: nat, q: nat)
    requires p < q < |s| && s[p] == s[q]
    ensures multiset(s)[s[p]] >= 2
  {
    Without(s, q);
    assert (s[..q] + s[q + 1..])[p] == s[p];
    assert s[p] in multiset(s[..q] + s[q + 1..]);
  }

  /** What holds of every two elements of a sequence holds of every two of a permutation of it. */
  lemma PermutedPairs<T(!new)>(a: seq<T>, b: seq<T>, r: (T, T) -> bool)
    requires multiset(a) == multiset(b)
    requires forall x, y :: r(x, y) ==> r(y, x)
    requires forall i, j :: 0 <= i < j < |a| ==> r(a[i], a[j])
    ensures forall i, j :: 0 <= i < j < |b| ==> r(b[i], b[j])
  {
    forall i, j | 0 <= i < j < |b|
      ensures r(b[i], b[j])
    {
      if b[i] == b[j] {
        CountedTwice(b, i, j);
        var p, q := TwoPlaces(a, b[i]);
      } else {
        assert b[i] in multiset(a) && b[j] in multiset(a);
        var p :| 0 <= p < |a| && a[p] == b[i];
        var q :| 0 <= q < |a| && a[q] == b[j];
      }
    }
  }
}
