/**
 * The stable sort that `Array.prototype.sort` performs with a numeric
 * comparator `(a, b) => key(a) - key(b)` (stable since ECMAScript 2019),
 * written as an insertion sort, and `Array.prototype.filter`.
 *
 * Proved: the result is ordered by the key, is a permutation of the input,
 * keeps the input order among equal keys (stability), and is the unique such
 * ordering when keys are distinct.
 */
module Sorting {

  ghost predicate SortedBy<T>(s: seq<T>, key: T -> real)
  {
    forall i, j :: 0 <= i < j < |s| ==> key(s[i]) <= key(s[j])
  }

  ghost predicate StrictlySortedBy<T>(s: seq<T>, key: T -> real)
  {
    forall i, j :: 0 <= i < j < |s| ==> key(s[i]) < key(s[j])
  }

  /** No two positions of `s` share a value of `f`. */
  ghost predicate DistinctBy<T, K>(s: seq<T>, f: T -> K)
  {
    forall i, j :: 0 <= i < j < |s| ==> f(s[i]) != f(s[j])
  }

  /** Inserts `x` before the first element whose key is not smaller. */
  function Insert<T>(x: T, s: seq<T>, key: T -> real): (r: seq<T>)
    ensures |r| == |s| + 1
  {
    if s == [] || key(x) <= key(s[0]) then [x] + s
    else [s[0]] + Insert(x, s[1..], key)
  }

  /** The stable sort of `s` by ascending `key`. */
  function SortBy<T>(s: seq<T>, key: T -> real): (r: seq<T>)
    ensures |r| == |s|
  {
    if s == [] then []
    else Insert(s[0], SortBy(s[1..], key), key)
  }

  lemma {:induction false} InsertPermutation<T>(x: T, s: seq<T>, key: T -> real)
    ensures multiset(Insert(x, s, key)) == multiset{x} + multiset(s)
  {
    if s != [] && key(x) > key(s[0]) {
      InsertPermutation(x, s[1..], key);
      assert s == [s[0]] + s[1..];
    }
  }

  /** Sorting is a permutation. */
  lemma {:induction false} SortByPermutation<T>(s: seq<T>, key: T -> real)
    ensures multiset(SortBy(s, key)) == multiset(s)
  {
    if s != [] {
      SortByPermutation(s[1..], key);
      InsertPermutation(s[0], SortBy(s[1..], key), key);
      assert s == [s[0]] + s[1..];
    }
  }

  lemma {:induction false} InsertSorted<T>(x: T, s: seq<T>, key: T -> real)
    requires SortedBy(s, key)
    ensures SortedBy(Insert(x, s, key), key)
  {
    if s != [] && key(x) > key(s[0]) {
      var rest := Insert(x, s[1..], key);
      InsertSorted(x, s[1..], key);
      InsertPermutation(x, s[1..], key);
      forall j | 0 <= j < |rest|
        ensures key(s[0]) <= key(rest[j])
      {
        assert rest[j] in multiset(rest);
        if rest[j] != x {
          assert rest[j] in multiset(s[1..]);
          var k :| 0 <= k < |s[1..]| && s[1..][k] == rest[j];
          assert s[k + 1] == rest[j];
        }
      }
    }
  }

  /** Sorting orders by the key. */
  lemma {:induction false} SortBySorted<T>(s: seq<T>, key: T -> real)
    ensures SortedBy(SortBy(s, key), key)
  {
    if s != [] {
      SortBySorted(s[1..], key);
      InsertSorted(s[0], SortBy(s[1..], key), key);
    }
  }

  /** The elements of `s` whose key equals `k`, in their order in `s`. */
  function WithKey<T>(s: seq<T>, key: T -> real, k: real): (r: seq<T>)
    ensures |r| <= |s|
  {
    if s == [] then []
    else (if key(s[0]) == k then [s[0]] else []) + WithKey(s[1..], key, k)
  }

  lemma WithKeyCons<T>(y: T, s: seq<T>, key: T -> real, k: real)
    ensures WithKey([y] + s, key, k) == (if key(y) == k then [y] else []) + WithKey(s, key, k)
  {
    assert ([y] + s)[0] == y && ([y] + s)[1..] == s;
  }

  lemma {:induction false} InsertWithKey<T>(x: T, s: seq<T>, key: T -> real, k: real)
    ensures WithKey(Insert(x, s, key), key, k) == (if key(x) == k then [x] else []) + WithKey(s, key, k)
  {
    var xs := if key(x) == k then [x] else [];
    if s != [] && key(x) > key(s[0]) {
      var head := if key(s[0]) == k then [s[0]] else [];
      var rest := Insert(x, s[1..], key);
      assert Insert(x, s, key) == [s[0]] + rest;
      InsertWithKey(x, s[1..], key, k);
      assert WithKey(rest, key, k) == xs + WithKey(s[1..], key, k);
      WithKeyCons(s[0], rest, key, k);
      assert WithKey(Insert(x, s, key), key, k) == head + WithKey(rest, key, k);
      assert WithKey(s, key, k) == head + WithKey(s[1..], key, k);
      assert key(x) == k ==> head == [];
    } else {
      WithKeyCons(x, s, key, k);
    }
  }

  /** Stability: among elements with the same key, sorting keeps the input order. */
  lemma {:induction false} SortByStable<T>(s: seq<T>, key: T -> real, k: real)
    ensures WithKey(SortBy(s, key), key, k) == WithKey(s, key, k)
  {
    if s != [] {
      SortByStable(s[1..], key, k);
      InsertWithKey(s[0], SortBy(s[1..], key), key, k);
    }
  }

  lemma HeadsEqual<T>(a: seq<T>, b: seq<T>, key: T -> real)
    requires StrictlySortedBy(a, key) && StrictlySortedBy(b, key)
    requires multiset(a) == multiset(b) && a != [] && b != []
    ensures a[0] == b[0]
  {
    assert a[0] in multiset(a);
    assert b[0] in multiset(b);
    var i :| 0 <= i < |a| && a[i] == b[0];
    var j :| 0 <= j < |b| && b[j] == a[0];
    assert key(a[0]) <= key(a[i]);
    assert key(b[0]) <= key(b[j]);
    assert i == 0;
  }

  lemma MultisetTail<T>(a: seq<T>, b: seq<T>)
    requires a != [] && b != [] && a[0] == b[0] && multiset(a) == multiset(b)
    ensures multiset(a[1..]) == multiset(b[1..])
  {
    assert a == [a[0]] + a[1..];
    assert b == [b[0]] + b[1..];
    assert multiset(a) == multiset{a[0]} + multiset(a[1..]);
    assert multiset(b) == multiset{b[0]} + multiset(b[1..]);
    assert multiset(a[1..]) == multiset(a) - multiset{a[0]};
  }

  /** Two strictly ordered permutations of one another are equal. */
  lemma {:induction false} StrictlySortedUnique<T>(a: seq<T>, b: seq<T>, key: T -> real)
    requires StrictlySortedBy(a, key) && StrictlySortedBy(b, key)
    requires multiset(a) == multiset(b)
    ensures a == b
    decreases |a|
  {
    if a != [] {
      assert |b| == |a| by { assert |multiset(a)| == |a| && |multiset(b)| == |b|; }
      HeadsEqual(a, b, key);
      MultisetTail(a, b);
      StrictlySortedUnique(a[1..], b[1..], key);
      assert a == [a[0]] + a[1..] && b == [b[0]] + b[1..];
    } else {
      assert |b| == 0 by { assert |multiset(b)| == |b|; }
    }
  }

  /** A sorted sequence whose keys are pairwise distinct is strictly sorted. */
  lemma SortedDistinctIsStrict<T>(s: seq<T>, key: T -> real)
    requires SortedBy(s, key) && DistinctBy(s, key)
    ensures StrictlySortedBy(s, key)
  {
  }

  lemma {:induction false} InsertDistinct<T, K>(x: T, s: seq<T>, key: T -> real, f: T -> K)
    requires DistinctBy(s, f)
    requires forall y :: y in s ==> f(y) != f(x)
    ensures DistinctBy(Insert(x, s, key), f)
  {
    if s == [] || key(x) <= key(s[0]) {
      ConsDistinct(x, s, f);
    } else {
      var rest := Insert(x, s[1..], key);
      assert DistinctBy(s[1..], f) by {
        forall i, j | 0 <= i < j < |s[1..]| ensures f(s[1..][i]) != f(s[1..][j]) {
          assert s[1..][i] == s[i + 1] && s[1..][j] == s[j + 1];
        }
      }
      InsertDistinct(x, s[1..], key, f);
      InsertPermutation(x, s[1..], key);
      forall y | y in rest
        ensures f(y) != f(s[0])
      {
        assert y in multiset(rest);
        if y != x {
          assert y in multiset(s[1..]);
          var k :| 0 <= k < |s[1..]| && s[1..][k] == y;
          assert s[k + 1] == y;
        }
      }
      ConsDistinct(s[0], rest, f);
    }
  }

  /** Putting an element in front of distinct elements whose attributes all differ from its own keeps them distinct. */
  lemma ConsDistinct<T, K>(y: T, t: seq<T>, f: T -> K)
    requires DistinctBy(t, f)
    requires forall z :: z in t ==> f(z) != f(y)
    ensures DistinctBy([y] + t, f)
  {
    var r := [y] + t;
    forall i, j | 0 <= i < j < |r| ensures f(r[i]) != f(r[j]) {
      assert r[j] == t[j - 1];
      if i > 0 {
        assert r[i] == t[i - 1];
      }
    }
  }

  /** Sorting keeps pairwise-distinct attributes (ids, timestamps) distinct. */
  lemma {:induction false} SortByDistinct<T, K>(s: seq<T>, key: T -> real, f: T -> K)
    requires DistinctBy(s, f)
    ensures DistinctBy(SortBy(s, key), f)
  {
    if s != [] {
      var rest := SortBy(s[1..], key);
      SortByDistinct(s[1..], key, f);
      SortByPermutation(s[1..], key);
      forall y | y in rest
        ensures f(y) != f(s[0])
      {
        assert y in multiset(rest);
        assert y in multiset(s[1..]);
        var k :| 0 <= k < |s[1..]| && s[1..][k] == y;
        assert s[k + 1] == y;
      }
      InsertDistinct(s[0], rest, key, f);
    }
  }

  /** The first position of `s` whose key exceeds `k`, or |s|. */
  function FirstAbove<T>(s: seq<T>, key: T -> real, k: real): (p: nat)
    ensures p <= |s|
    ensures forall i :: 0 <= i < p ==> key(s[i]) <= k
    ensures p < |s| ==> key(s[p]) > k
  {
    if s == [] || key(s[0]) > k then 0 else 1 + FirstAbove(s[1..], key, k)
  }

  /**
   * Appending to a sorted sequence and sorting again places the new element
   * after every element whose key is not larger and before the rest; the
   * old elements keep their order.
   */
  lemma {:induction false} SortAppendToSorted<T>(s: seq<T>, x: T, key: T -> real)
    requires SortedBy(s, key)
    ensures var p := FirstAbove(s, key, key(x));
      SortBy(s + [x], key) == s[..p] + [x] + s[p..]
  {
    if s == [] {
      assert SortBy([x], key) == Insert(x, [], key);
    } else {
      var tail := s[1..];
      assert (s + [x])[1..] == tail + [x];
      SortAppendToSorted(tail, x, key);
      var q := FirstAbove(tail, key, key(x));
      var t := tail[..q] + [x] + tail[q..];
      assert SortBy(s + [x], key) == Insert(s[0], t, key);
      if key(s[0]) <= key(x) {
        InsertHeadBefore(s, x, key, q);
      } else {
        InsertHeadAfter(s, x, key);
      }
    }
  }

  lemma InsertHeadBefore<T>(s: seq<T>, x: T, key: T -> real, q: nat)
    requires SortedBy(s, key) && s != [] && key(s[0]) <= key(x)
    requires q == FirstAbove(s[1..], key, key(x))
    ensures var p := FirstAbove(s, key, key(x));
      Insert(s[0], s[1..][..q] + [x] + s[1..][q..], key) == s[..p] + [x] + s[p..]
  {
    var tail := s[1..];
    var t := tail[..q] + [x] + tail[q..];
    assert FirstAbove(s, key, key(x)) == q + 1;
    assert key(s[0]) <= key(t[0]) by {
      if q > 0 {
        assert t[0] == s[1];
        assert key(s[0]) <= key(s[1]);
      } else {
        assert t[0] == x;
      }
    }
    InsertAtFront(s[0], t, key);
    SplitAfterHead(s, x, q);
  }

  /** An element whose key does not exceed the first one's goes in front. */
  lemma InsertAtFront<T>(y: T, t: seq<T>, key: T -> real)
    requires t != [] && key(y) <= key(t[0])
    ensures Insert(y, t, key) == [y] + t
  {
  }

  /** Putting the head back in front of a split tail splits the whole sequence one place later. */
  lemma SplitAfterHead<T>(s: seq<T>, x: T, q: nat)
    requires s != [] && q <= |s| - 1
    ensures [s[0]] + (s[1..][..q] + [x] + s[1..][q..]) == s[..q + 1] + [x] + s[q + 1..]
  {
    assert s[..q + 1] == [s[0]] + s[1..][..q];
    assert s[q + 1..] == s[1..][q..];
  }

  lemma InsertHeadAfter<T>(s: seq<T>, x: T, key: T -> real)
    requires SortedBy(s, key) && s != [] && key(s[0]) > key(x)
    ensures FirstAbove(s, key, key(x)) == 0
    ensures var tail := s[1..]; var q := FirstAbove(tail, key, key(x));
      Insert(s[0], tail[..q] + [x] + tail[q..], key) == [x] + s
  {
    var tail := s[1..];
    if tail != [] {
      assert key(tail[0]) > key(x);
    }
    var q := FirstAbove(tail, key, key(x));
    assert q == 0;
    var t := tail[..q] + [x] + tail[q..];
    assert t == [x] + tail;
    assert Insert(s[0], tail, key) == [s[0]] + tail;
    assert [s[0]] + tail == s;
    assert t[1..] == tail;
  }

  /** `Array.prototype.filter`. */
  function Filter<T(!new)>(s: seq<T>, keep: T -> bool): (r: seq<T>)
    ensures |r| <= |s|
    ensures forall x :: x in r <==> x in s && keep(x)
  {
    if s == [] then []
    else (if keep(s[0]) then [s[0]] else []) + Filter(s[1..], keep)
  }

  /** Filtering a sorted sequence leaves it sorted. */
  lemma {:induction false} FilterSorted<T(!new)>(s: seq<T>, keep: T -> bool, key: T -> real)
    requires SortedBy(s, key)
    ensures SortedBy(Filter(s, keep), key)
  {
    if s != [] {
      FilterSorted(s[1..], keep, key);
      var rest := Filter(s[1..], keep);
      forall y | y in rest
        ensures key(s[0]) <= key(y)
      {
        var k :| 0 <= k < |s[1..]| && s[1..][k] == y;
        assert s[k + 1] == y;
      }
    }
  }
}
