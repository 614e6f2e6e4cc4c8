/**
 * The two list operations every component of the dashboard is built from:
 * `Array.prototype.filter` and the backend's `ORDER BY` on an integer column.
 */
module Query {

  /** `r` keeps some of the elements of `s`, in their original relative order. */
  ghost predicate SubsequenceOf<T>(r: seq<T>, s: seq<T>)
    decreases |s|
  {
    if r == [] then true
    else if s == [] then false
    else if r[0] == s[0] then SubsequenceOf(r[1..], s[1..])
    else SubsequenceOf(r, s[1..])
  }

  /** `s.filter(p)`: the elements satisfying `p`, in order. */
  function Filter<T(!new)>(s: seq<T>, p: T -> bool): (r: seq<T>)
    ensures |r| <= |s|
    ensures forall i :: 0 <= i < |r| ==> p(r[i])
    ensures multiset(r) <= multiset(s)
  {
    if s == [] then []
    else
      var rest := Filter(s[1..], p);
      assert s == [s[0]] + s[1..];
      if p(s[0]) then [s[0]] + rest else rest
  }

  /** An element is kept exactly when it occurs in `s` and satisfies `p`. */
  lemma {:induction false} FilterMembers<T(!new)>(s: seq<T>, p: T -> bool, x: T)
    ensures x in Filter(s, p) <==> x in s && p(x)
  {
    if s != [] {
      FilterMembers(s[1..], p, x);
      assert s == [s[0]] + s[1..];
      var r := Filter(s, p);
      if x in r {
        assert x in multiset(r);
        assert x in multiset(s);
      }
    }
  }

  /** Filtering a non-empty sequence decides its first element, then filters the rest. */
  lemma FilterCons<T(!new)>(x: T, t: seq<T>, p: T -> bool)
    ensures Filter([x] + t, p) == if p(x) then [x] + Filter(t, p) else Filter(t, p)
  {
    assert ([x] + t)[1..] == t;
  }

  /** Each value is kept as often as it occurs when it satisfies `p`, and never otherwise. */
  lemma {:induction false} FilterCount<T(!new)>(s: seq<T>, p: T -> bool, x: T)
    ensures multiset(Filter(s, p))[x] == if p(x) then multiset(s)[x] else 0
  {
    if s != [] {
      FilterCount(s[1..], p, x);
      assert s == [s[0]] + s[1..];
      assert multiset(s) == multiset{s[0]} + multiset(s[1..]);
      if p(s[0]) {
        assert multiset(Filter(s, p)) == multiset{s[0]} + multiset(Filter(s[1..], p));
      }
    }
  }

  /** The kept elements keep their relative order. */
  lemma {:induction false} FilterIsSubsequence<T(!new)>(s: seq<T>, p: T -> bool)
    ensures SubsequenceOf(Filter(s, p), s)
  {
    if s != [] {
      FilterIsSubsequence(s[1..], p);
      if p(s[0]) {
        assert ([s[0]] + Filter(s[1..], p))[1..] == Filter(s[1..], p);
      }
    }
  }

  /** Filtering with a predicate every element satisfies changes nothing. */
  lemma {:induction false} FilterKeepsAll<T(!new)>(s: seq<T>, p: T -> bool)
    requires forall i :: 0 <= i < |s| ==> p(s[i])
    ensures Filter(s, p) == s
  {
    if s != [] {
      FilterKeepsAll(s[1..], p);
    }
  }

  /** When no element satisfies the predicate, nothing is kept. */
  lemma {:induction false} FilterDropsAll<T(!new)>(s: seq<T>, p: T -> bool)
    requires forall i :: 0 <= i < |s| ==> !p(s[i])
    ensures Filter(s, p) == []
  {
    if s != [] {
      FilterDropsAll(s[1..], p);
    }
  }

  /** Filtering distributes over concatenation. */
  lemma {:induction false} FilterAppend<T(!new)>(a: seq<T>, b: seq<T>, p: T -> bool)
    ensures Filter(a + b, p) == Filter(a, p) + Filter(b, p)
  {
    if a == [] {
      assert a + b == b;
    } else {
      assert (a + b)[1..] == a[1..] + b;
      FilterAppend(a[1..], b, p);
    }
  }

  /** Two predicates that agree on the elements of `s` filter it identically. */
  lemma {:induction false} FilterAgree<T(!new)>(s: seq<T>, p: T -> bool, q: T -> bool)
    requires forall i :: 0 <= i < |s| ==> p(s[i]) == q(s[i])
    ensures Filter(s, p) == Filter(s, q)
  {
    if s != [] {
      FilterAgree(s[1..], p, q);
    }
  }

  /** Filtering by `p` and by its negation splits `s` in two: the two lengths add up to `|s|`. */
  lemma {:induction false} FilterPartition<T(!new)>(s: seq<T>, p: T -> bool, q: T -> bool)
    requires forall i :: 0 <= i < |s| ==> q(s[i]) == !p(s[i])
    ensures |Filter(s, p)| + |Filter(s, q)| == |s|
  {
    if s != [] {
      var t := s[1..];
      assert forall i :: 0 <= i < |t| ==> q(t[i]) == !p(t[i]) by {
        forall i | 0 <= i < |t| ensures q(t[i]) == !p(t[i]) {
          assert t[i] == s[i + 1];
        }
      }
      FilterPartition(t, p, q);
      if p(s[0]) {
        assert Filter(s, p) == [s[0]] + Filter(t, p);
        assert Filter(s, q) == Filter(t, q);
      } else {
        assert Filter(s, p) == Filter(t, p);
        assert Filter(s, q) == [s[0]] + Filter(t, q);
      }
    }
  }

  /** `s` is in ascending order of `key` (for a descending order, pass the negated key). */
  ghost predicate SortedBy<T>(s: seq<T>, key: T -> int) {
    forall i, j :: 0 <= i < j < |s| ==> key(s[i]) <= key(s[j])
  }

  /** Inserts `x` before the first element whose key is not smaller. */
  function InsertByKey<T>(x: T, s: seq<T>, key: T -> int): (r: seq<T>)
    ensures |r| == |s| + 1
    ensures multiset(r) == multiset(s) + multiset{x}
  {
    if s == [] then [x]
    else if key(x) <= key(s[0]) then [x] + s
    else
      assert s == [s[0]] + s[1..];
      [s[0]] + InsertByKey(x, s[1..], key)
  }

  /** Every element after an insertion is the inserted one or one of the originals. */
  lemma InsertedFrom<T>(x: T, s: seq<T>, key: T -> int, k: int)
    requires 0 <= k < |s| + 1
    ensures var r := InsertByKey(x, s, key); r[k] == x || exists j :: 0 <= j < |s| && s[j] == r[k]
  {
    var r := InsertByKey(x, s, key);
    assert r[k] in multiset(r);
  }

  /** Insertion keeps a sorted sequence sorted. */
  lemma {:induction false} InsertByKeySorted<T>(x: T, s: seq<T>, key: T -> int)
    requires SortedBy(s, key)
    ensures SortedBy(InsertByKey(x, s, key), key)
  {
    if s != [] && key(x) > key(s[0]) {
      var rest := InsertByKey(x, s[1..], key);
      InsertByKeySorted(x, s[1..], key);
      forall k | 0 <= k < |rest| ensures key(s[0]) <= key(rest[k]) {
        InsertedFrom(x, s[1..], key, k);
        if rest[k] != x {
          var j :| 0 <= j < |s| - 1 && s[1..][j] == rest[k];
          assert s[j + 1] == rest[k];
        }
      }
      var r := [s[0]] + rest;
      forall i, j | 0 <= i < j < |r| ensures key(r[i]) <= key(r[j]) {
        assert r[j] == rest[j - 1];
        if i > 0 {
          assert r[i] == rest[i - 1];
        }
      }
    }
  }

  function OrderBy<T>(s: seq<T>, key: T -> int): (r: seq<T>)
    ensures |r| == |s|
    ensures multiset(r) == multiset(s)
    ensures SortedBy(r, key)
  {
    if s == [] then []
    else
      assert s == [s[0]] + s[1..];
      InsertByKeySorted(s[0], OrderBy(s[1..], key), key);
      InsertByKey(s[0], OrderBy(s[1..], key), key)
  }
}
