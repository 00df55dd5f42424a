/** Order-preserving filtering and key-ordered sorting of sequences, the two
    collection operations (`filter`, `sorted(by:)`) the screens are built on. */
module Seqs {

  /** The elements of `s` that satisfy `p`, in their original order. */
  function Filter<T>(s: seq<T>, p: T -> bool): (r: seq<T>)
    ensures |r| <= |s|
    ensures forall i :: 0 <= i < |r| ==> p(r[i]) && r[i] in s
  {
    if |s| == 0 then []
    else if p(s[0]) then [s[0]] + Filter(s[1..], p)
    else Filter(s[1..], p)
  }

  /** Filtering keeps every satisfying element exactly as often as it occurs
      and drops every other one. */
  lemma {:induction false} FilterCount<T>(s: seq<T>, p: T -> bool, x: T)
    ensures multiset(Filter(s, p))[x] == if p(x) then multiset(s)[x] else 0
  {
    if |s| > 0 {
      assert s == [s[0]] + s[1..];
      FilterCount(s[1..], p, x);
    }
  }

  lemma FilterCountAll<T>(s: seq<T>, p: T -> bool)
    ensures forall x :: multiset(Filter(s, p))[x] == if p(x) then multiset(s)[x] else 0
  {
    forall x ensures multiset(Filter(s, p))[x] == if p(x) then multiset(s)[x] else 0 {
      FilterCount(s, p, x);
    }
  }

  /** Filtering distributes over concatenation, so it never reorders. */
  lemma {:induction false} FilterConcat<T>(a: seq<T>, b: seq<T>, p: T -> bool)
    ensures Filter(a + b, p) == Filter(a, p) + Filter(b, p)
  {
    if |a| == 0 {
      assert a + b == b;
    } else {
      assert (a + b)[1..] == a[1..] + b;
      FilterConcat(a[1..], b, p);
    }
  }

  /** Filtering by a predicate and by its negation splits `s` without loss. */
  lemma FilterPartition<T>(s: seq<T>, p: T -> bool, q: T -> bool)
    requires forall x :: q(x) == !p(x)
    ensures multiset(Filter(s, p)) + multiset(Filter(s, q)) == multiset(s)
  {
    FilterCountAll(s, p);
    FilterCountAll(s, q);
    assert forall x :: (multiset(Filter(s, p)) + multiset(Filter(s, q)))[x] == multiset(s)[x];
  }

  /** A filter is empty exactly when no element satisfies the predicate. */
  lemma {:induction false} FilterEmpty<T>(s: seq<T>, p: T -> bool)
    ensures Filter(s, p) == [] <==> forall i :: 0 <= i < |s| ==> !p(s[i])
  {
    if |s| > 0 {
      FilterEmpty(s[1..], p);
      assert forall i :: 1 <= i < |s| ==> s[i] == s[1..][i - 1];
    }
  }

  /** A filter with a predicate that always holds keeps everything. */
  lemma {:induction false} FilterAll<T>(s: seq<T>, p: T -> bool)
    requires forall i :: 0 <= i < |s| ==> p(s[i])
    ensures Filter(s, p) == s
  {
    if |s| > 0 {
      assert forall i :: 0 <= i < |s[1..]| ==> s[1..][i] == s[i + 1];
      FilterAll(s[1..], p);
    }
  }

  /** Keys never decrease along `s`. */
  predicate SortedBy<T>(s: seq<T>, key: T -> int) {
    forall i, j :: 0 <= i < j < |s| ==> key(s[i]) <= key(s[j])
  }

  /** Filtering a sorted sequence leaves it sorted. */
  lemma {:induction false} FilterSorted<T>(s: seq<T>, p: T -> bool, key: T -> int)
    requires SortedBy(s, key)
    ensures SortedBy(Filter(s, p), key)
  {
    if |s| > 0 {
      assert SortedBy(s[1..], key) by {
        assert forall i :: 0 <= i < |s[1..]| ==> s[1..][i] == s[i + 1];
      }
      FilterSorted(s[1..], p, key);
      var rest := Filter(s[1..], p);
      if p(s[0]) {
        forall i | 0 <= i < |rest|
          ensures key(s[0]) <= key(rest[i])
        {
          HeadIsLeast(s, key, rest[i]);
        }
        ConsSorted(s[0], rest, key);
      }
    }
  }

  /** A head no larger than every element of a sorted tail keeps it sorted. */
  lemma ConsSorted<T>(h: T, t: seq<T>, key: T -> int)
    requires SortedBy(t, key)
    requires forall i :: 0 <= i < |t| ==> key(h) <= key(t[i])
    ensures SortedBy([h] + t, key)
  {
    var r := [h] + t;
    forall i, j | 0 <= i < j < |r|
      ensures key(r[i]) <= key(r[j])
    {
      assert r[j] == t[j - 1];
      if i > 0 {
        assert r[i] == t[i - 1];
      }
    }
  }

  /** In a sorted sequence no later element has a smaller key than the head. */
  lemma HeadIsLeast<T>(s: seq<T>, key: T -> int, x: T)
    requires |s| > 0 && SortedBy(s, key) && x in s[1..]
    ensures key(s[0]) <= key(x)
  {
    var k :| 0 <= k < |s[1..]| && s[1..][k] == x;
    assert s[k + 1] == x;
  }

  /** Inserts `x` into the sorted `s` before the first element whose key is
      not smaller. */
  function InsertBy<T>(x: T, s: seq<T>, key: T -> int): (r: seq<T>)
    requires SortedBy(s, key)
    ensures SortedBy(r, key)
    ensures multiset(r) == multiset(s) + multiset{x}
    ensures |r| == |s| + 1
    ensures forall i :: 0 <= i < |r| ==> r[i] == x || r[i] in s
  {
    if |s| == 0 then [x]
    else if key(x) <= key(s[0]) then [x] + s
    else
      assert SortedBy(s[1..], key) by {
        assert forall i :: 0 <= i < |s[1..]| ==> s[1..][i] == s[i + 1];
      }
      var rest := InsertBy(x, s[1..], key);
      assert s == [s[0]] + s[1..];
      forall i | 0 <= i < |rest|
        ensures key(s[0]) <= key(rest[i])
      {
        if rest[i] != x {
          HeadIsLeast(s, key, rest[i]);
        }
      }
      ConsSorted(s[0], rest, key);
      [s[0]] + rest
  }

  /** A permutation of `s` ordered by non-decreasing key. Which of several
      equal-key orders is chosen is not part of any contract. */
  function SortBy<T>(s: seq<T>, key: T -> int): (r: seq<T>)
    ensures SortedBy(r, key)
    ensures multiset(r) == multiset(s)
    ensures |r| == |s|
  {
    if |s| == 0 then []
    else
      assert s == [s[0]] + s[1..];
      InsertBy(s[0], SortBy(s[1..], key), key)
  }
}
