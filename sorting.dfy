/** Stable sorting by a numeric key, as `Array.prototype.sort` with a
  * subtracting comparator does (ties keep their input order). */
module Sorting {
  import opened Core

  predicate SortedBy<T>(s: seq<T>, key: T -> real)
  {
    forall i, j :: 0 <= i < j < |s| ==> key(s[i]) <= key(s[j])
  }

  /** Inserts `x` after every element whose key is not larger than its own. */
  function Insert<T>(x: T, s: seq<T>, key: T -> real): (r: seq<T>)
    ensures |r| == |s| + 1
    ensures multiset(r) == multiset(s) + multiset{x}
  {
    if s == [] then [x]
    else if key(s[0]) > key(x) then [x] + s
    else
      var rest := Insert(x, s[1..], key);
      assert s == [s[0]] + s[1..];
      [s[0]] + rest
  }

  lemma {:induction false} InsertSorted<T>(x: T, s: seq<T>, key: T -> real)
    requires SortedBy(s, key)
    ensures SortedBy(Insert(x, s, key), key)
  {
    if s != [] && key(s[0]) <= key(x) {
      var tail := s[1..];
      InsertSorted(x, tail, key);
      var rest := Insert(x, tail, key);
      forall i | 0 <= i < |rest| ensures key(s[0]) <= key(rest[i]) {
        assert rest[i] in multiset(rest);
        if rest[i] != x {
          assert rest[i] in multiset(tail);
          var k :| 0 <= k < |tail| && tail[k] == rest[i];
          assert tail[k] == s[k + 1];
        }
      }
    }
  }

  /** Stable ascending sort by `key`. */
  function SortBy<T>(s: seq<T>, key: T -> real): (r: seq<T>)
    ensures |r| == |s|
    ensures multiset(r) == multiset(s)
  {
    if s == [] then []
    else
      assert s == s[..|s| - 1] + [s[|s| - 1]];
      Insert(s[|s| - 1], SortBy(s[..|s| - 1], key), key)
  }

  lemma {:induction false} SortBySorted<T>(s: seq<T>, key: T -> real)
    ensures SortedBy(SortBy(s, key), key)
    decreases |s|
  {
    if s != [] {
      SortBySorted(s[..|s| - 1], key);
      InsertSorted(s[|s| - 1], SortBy(s[..|s| - 1], key), key);
    }
  }

  /** `p` selects elements that all share one key. */
  ghost predicate OneKeyClass<T(!new)>(p: T -> bool, key: T -> real)
  {
    forall y, z :: p(y) && p(z) ==> key(y) == key(z)
  }

  /** Placed in front of a sorted sequence whose keys all exceed its own,
    * `x` is the last of its key class. */
  lemma InsertFrontStable<T(!new)>(x: T, s: seq<T>, key: T -> real, p: T -> bool)
    requires SortedBy(s, key) && OneKeyClass(p, key)
    requires s != [] && key(s[0]) > key(x)
    ensures Filter([x] + s, p) == Filter(s, p) + (if p(x) then [x] else [])
  {
    FilterConcat([x], s, p);
    FilterAppend([], x, p);
    assert [] + [x] == [x];
    if p(x) {
      forall k | 0 <= k < |s| ensures !p(s[k]) {
        assert key(s[0]) <= key(s[k]);
      }
      FilterNone(s, p);
    }
  }

  /** Inserting `x` keeps the elements of its key class in their order and
    * puts `x` after all of them. */
  lemma {:induction false} InsertStable<T(!new)>(x: T, s: seq<T>, key: T -> real, p: T -> bool)
    requires SortedBy(s, key) && OneKeyClass(p, key)
    ensures Filter(Insert(x, s, key), p) == Filter(s, p) + (if p(x) then [x] else [])
  {
    if s == [] {
      assert Insert(x, s, key) == [] + [x];
      FilterAppend([], x, p);
    } else if key(s[0]) > key(x) {
      InsertFrontStable(x, s, key, p);
    } else {
      var tail := s[1..];
      assert s == [s[0]] + tail;
      var rest := Insert(x, tail, key);
      assert Insert(x, s, key) == [s[0]] + rest;
      InsertStable(x, tail, key, p);
      FilterConcat([s[0]], rest, p);
      FilterConcat([s[0]], tail, p);
    }
  }

  /** Stability: the elements of one key class leave the sort in the order
    * they came in. */
  lemma {:induction false} SortByStable<T(!new)>(s: seq<T>, key: T -> real, p: T -> bool)
    requires OneKeyClass(p, key)
    ensures Filter(SortBy(s, key), p) == Filter(s, p)
    decreases |s|
  {
    if s != [] {
      var init, last := s[..|s| - 1], s[|s| - 1];
      assert s == init + [last];
      FilterAppend(init, last, p);
      var sorted := SortBy(init, key);
      assert SortBy(s, key) == Insert(last, sorted, key);
      SortByStable(init, key, p);
      SortBySorted(init, key);
      InsertStable(last, sorted, key, p);
    }
  }

  /** Stable descending sort by `key` (comparator `b.key - a.key`). */
  function SortByDescending<T>(s: seq<T>, key: T -> real): (r: seq<T>)
    ensures |r| == |s|
    ensures multiset(r) == multiset(s)
  {
    SortBy(s, x => -key(x))
  }

  /** The descending sort is stable too: ties keep their input order. */
  lemma SortByDescendingStable<T(!new)>(s: seq<T>, key: T -> real, p: T -> bool)
    requires OneKeyClass(p, key)
    ensures Filter(SortByDescending(s, key), p) == Filter(s, p)
  {
    SortByStable(s, x => -key(x), p);
  }

  /** Every element of a sorted selection is an element of the source that
    * passes the selection. */
  lemma SortedSelectionMember<T>(s: seq<T>, p: T -> bool, key: T -> real, k: nat)
    requires k < |SortByDescending(Filter(s, p), key)|
    ensures var x := SortByDescending(Filter(s, p), key)[k]; x in s && p(x)
  {
    var f := Filter(s, p);
    var x := SortByDescending(f, key)[k];
    assert x in multiset(SortByDescending(f, key));
    FilterMember(s, p, x);
  }

  lemma SortByDescendingSorted<T>(s: seq<T>, key: T -> real)
    ensures forall i, j :: 0 <= i < j < |s| ==>
      key(SortByDescending(s, key)[i]) >= key(SortByDescending(s, key)[j])
  {
    SortBySorted(s, x => -key(x));
  }

  /** The first `n` of the descending order are the largest: they come from
    * the input, in order, and nothing left out has a larger key. */
  lemma TopOfDescending<T>(s: seq<T>, key: T -> real, n: nat)
    requires 0 < n <= |s|
    ensures var top := SortByDescending(s, key)[..n];
      (forall i, j :: 0 <= i < j < n ==> key(top[i]) >= key(top[j]))
      && (forall k :: 0 <= k < n ==> top[k] in s)
      && (forall x :: x in multiset(s) - multiset(top) ==> key(x) <= key(top[n - 1]))
  {
    var sorted := SortByDescending(s, key);
    SortByDescendingSorted(s, key);
    var top := sorted[..n];
    assert sorted == top + sorted[n..];
    assert multiset(s) == multiset(top) + multiset(sorted[n..]);
    forall k | 0 <= k < n ensures top[k] in s {
      assert top[k] in multiset(sorted);
    }
    forall x | x in multiset(s) - multiset(top) ensures key(x) <= key(top[n - 1]) {
      assert x in multiset(sorted[n..]);
      var j :| n <= j < |sorted| && sorted[j] == x;
    }
  }

  /** The first `n` of the ascending order: in order, all from the input. */
  lemma TakeOfAscending<T>(s: seq<T>, key: T -> real, n: nat)
    ensures var top := Take(SortBy(s, key), n);
      SortedBy(top, key) && forall k :: 0 <= k < |top| ==> top[k] in s
  {
    var sorted := SortBy(s, key);
    SortBySorted(s, key);
    var top := Take(sorted, n);
    forall k | 0 <= k < |top| ensures top[k] in s {
      assert top[k] == sorted[k];
      assert top[k] in multiset(sorted);
    }
  }
}
