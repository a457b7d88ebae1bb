/** Sorting by a comparison, as Python's sorted() and pandas' sort_values do:
    an insertion sort over a total preorder, proved to return a sorted
    permutation of its input, and the only one when the order is antisymmetric. */
module Sorting {

  /** le is total and transitive: a total preorder. */
  ghost predicate TotalPreorder<T(!new)>(le: (T, T) -> bool) {
    (forall a, b :: le(a, b) || le(b, a)) &&
    (forall a, b, c :: le(a, b) && le(b, c) ==> le(a, c))
  }

  /** le relates no two distinct values both ways. */
  ghost predicate Antisymmetric<T(!new)>(le: (T, T) -> bool) {
    forall a, b :: le(a, b) && le(b, a) ==> a == b
  }

  /** Every earlier element is le every later one. */
  ghost predicate Sorted<T>(s: seq<T>, le: (T, T) -> bool) {
    forall i, j :: 0 <= i < j < |s| ==> le(s[i], s[j])
  }

  /** x goes before the first element it is le; it follows the elements it is not. */
  function Insert<T>(x: T, s: seq<T>, le: (T, T) -> bool): (r: seq<T>)
    ensures multiset(r) == multiset(s) + multiset{x}
  {
    if s == [] then [x]
    else if le(x, s[0]) then [x] + s
    else
      assert s == [s[0]] + s[1..];
      [s[0]] + Insert(x, s[1..], le)
  }

  /** Insertion sort: the head is inserted into the sorted tail. */
  function Sort<T>(s: seq<T>, le: (T, T) -> bool): (r: seq<T>)
    ensures multiset(r) == multiset(s)
  {
    if s == [] then []
    else
      assert s == [s[0]] + s[1..];
      Insert(s[0], Sort(s[1..], le), le)
  }

  lemma {:induction false} InsertSorted<T(!new)>(x: T, s: seq<T>, le: (T, T) -> bool)
    requires TotalPreorder(le) && Sorted(s, le)
    ensures Sorted(Insert(x, s, le), le)
  {
    if s != [] && !le(x, s[0]) {
      var tail := s[1..];
      InsertSorted(x, tail, le);
      var t := Insert(x, tail, le);
      forall k | 0 <= k < |t| ensures le(s[0], t[k]) {
        assert t[k] in multiset(t);
        if t[k] != x {
          var j :| 0 <= j < |tail| && tail[j] == t[k];
          assert s[j + 1] == t[k];
        }
      }
      var r := [s[0]] + t;
      forall i, j | 0 <= i < j < |r| ensures le(r[i], r[j]) {
        if i == 0 {
          assert r[j] == t[j - 1];
        } else {
          assert r[i] == t[i - 1] && r[j] == t[j - 1];
        }
      }
    }
  }

  /** sorted(): the result is in order and holds exactly the input's elements. */
  lemma {:induction false} SortSorted<T(!new)>(s: seq<T>, le: (T, T) -> bool)
    requires TotalPreorder(le)
    ensures Sorted(Sort(s, le), le) && multiset(Sort(s, le)) == multiset(s)
  {
    if s != [] {
      SortSorted(s[1..], le);
      InsertSorted(s[0], Sort(s[1..], le), le);
    }
  }

  lemma SortedTail<T>(s: seq<T>, le: (T, T) -> bool)
    requires s != [] && Sorted(s, le)
    ensures Sorted(s[1..], le)
  {
    var t := s[1..];
    forall i, j | 0 <= i < j < |t| ensures le(t[i], t[j]) {
      assert t[i] == s[i + 1] && t[j] == s[j + 1];
    }
  }

  /** The head of a sorted sequence is le every element it holds, itself aside. */
  lemma SortedHead<T>(s: seq<T>, x: T, le: (T, T) -> bool)
    requires Sorted(s, le) && x in multiset(s) && x != s[0]
    ensures le(s[0], x)
  {
    var i :| 0 <= i < |s| && s[i] == x;
  }

  /** Under an antisymmetric order there is one sorted arrangement of a multiset:
      any sort agrees with this one. */
  lemma {:induction false} SortedUnique<T(!new)>(a: seq<T>, b: seq<T>, le: (T, T) -> bool)
    requires TotalPreorder(le) && Antisymmetric(le)
    requires Sorted(a, le) && Sorted(b, le) && multiset(a) == multiset(b)
    ensures a == b
  {
    if a == [] {
      assert |b| == |multiset(b)| == 0;
    } else {
      assert b != [] by { assert |b| == |multiset(b)| == |multiset(a)| == |a|; }
      if a[0] != b[0] {
        SortedHead(b, a[0], le);
        SortedHead(a, b[0], le);
      }
      assert a == [a[0]] + a[1..] && b == [b[0]] + b[1..];
      var a', b' := a[1..], b[1..];
      assert multiset(a') == multiset(a) - multiset{a[0]};
      assert multiset(b') == multiset(b) - multiset{b[0]};
      SortedTail(a, le);
      SortedTail(b, le);
      SortedUnique(a', b', le);
    }
  }
}
