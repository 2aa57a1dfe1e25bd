/**
 * The list operations the reducers and the pages perform on lists of id-keyed records:
 * `Array.prototype.filter`, `findIndex` followed by an in-place write, `filter` by id,
 * `map` replace-by-id, and de-duplication through a `Set`.
 * A record's key is given by a function value (`key`), so one definition serves every entity.
 */
module Seqs {

  /** `r` is an order-preserving subsequence of `s`. */
  predicate IsSubseq<T(==,!new)>(r: seq<T>, s: seq<T>)
    decreases |s|
  {
    |r| <= |s| &&
    (r == [] || (r[0] == s[0] && IsSubseq(r[1..], s[1..])) || IsSubseq(r, s[1..]))
  }

  /** `Array.prototype.filter`: the elements of `s` that satisfy `p`, in their original order. */
  function Filter<T(==,!new)>(s: seq<T>, p: T -> bool): (r: seq<T>)
    ensures |r| <= |s|
    ensures forall x :: x in r <==> x in s && p(x)
    ensures IsSubseq(r, s)
  {
    if s == [] then []
    else
      var rest := Filter(s[1..], p);
      assert forall x :: x in s <==> x == s[0] || x in s[1..];
      if p(s[0]) then
        assert ([s[0]] + rest)[1..] == rest;
        [s[0]] + rest
      else rest
  }

  /** `s.filter(p).length`. */
  function Count<T(==,!new)>(s: seq<T>, p: T -> bool): nat
  {
    |Filter(s, p)|
  }

  /** Filtering a concatenation filters each part. */
  lemma {:induction false} FilterAppend<T(!new)>(a: seq<T>, b: seq<T>, p: T -> bool)
    ensures Filter(a + b, p) == Filter(a, p) + Filter(b, p)
  {
    if a == [] {
      assert a + b == b;
    } else {
      assert (a + b)[1..] == a[1..] + b;
      FilterAppend(a[1..], b, p);
    }
  }

  /** `Count` split by a second predicate: the elements satisfying `p` either satisfy `q` or do not. */
  lemma {:induction false} CountSplit<T(!new)>(s: seq<T>, p: T -> bool, q: T -> bool, pq: T -> bool, pnq: T -> bool)
    requires forall x :: pq(x) == (p(x) && q(x)) && pnq(x) == (p(x) && !q(x))
    ensures Count(s, p) == Count(s, pq) + Count(s, pnq)
  {
    if s != [] {
      CountSplit(s[1..], p, q, pq, pnq);
    }
  }

  /** When every element satisfies exactly one of three predicates, their counts add up to the length. */
  lemma {:induction false} CountThree<T(!new)>(s: seq<T>, p: T -> bool, q: T -> bool, r: T -> bool)
    requires forall x :: (p(x) || q(x) || r(x)) && !(p(x) && q(x)) && !(p(x) && r(x)) && !(q(x) && r(x))
    ensures Count(s, p) + Count(s, q) + Count(s, r) == |s|
  {
    if s != [] {
      CountThree(s[1..], p, q, r);
    }
  }

  /** A filter whose predicate holds of every element keeps the whole list. */
  lemma {:induction false} FilterAll<T(!new)>(s: seq<T>, p: T -> bool)
    requires forall x :: x in s ==> p(x)
    ensures Filter(s, p) == s
  {
    if s != [] {
      assert forall x :: x in s[1..] ==> x in s;
      FilterAll(s[1..], p);
    }
  }

  /** Filtering twice by the same predicate changes nothing the second time. */
  lemma FilterIdempotent<T(!new)>(s: seq<T>, p: T -> bool)
    ensures Filter(Filter(s, p), p) == Filter(s, p)
  {
    FilterAll(Filter(s, p), p);
  }

  /** `j` is the index `findIndex` returns: the first element whose key is `k`. */
  predicate IsFirstMatch<T, K(==)>(s: seq<T>, key: T -> K, k: K, j: int)
  {
    0 <= j < |s| && key(s[j]) == k && forall m :: 0 <= m < j ==> key(s[m]) != k
  }

  /** No element of `s` has key `k`. */
  predicate NoMatch<T, K(==)>(s: seq<T>, key: T -> K, k: K)
  {
    forall j :: 0 <= j < |s| ==> key(s[j]) != k
  }

  /** `Array.prototype.findIndex` on the key: the first index whose key is `k`, or -1. */
  function FindIndex<T, K(==)>(s: seq<T>, key: T -> K, k: K): (i: int)
    ensures -1 <= i < |s|
    ensures i >= 0 ==> IsFirstMatch(s, key, k, i)
    ensures i == -1 <==> NoMatch(s, key, k)
  {
    if s == [] then -1
    else if key(s[0]) == k then 0
    else
      var i := FindIndex(s[1..], key, k);
      if i == -1 then -1 else i + 1
  }

  /**
   * The reducers' `const index = list.findIndex(e => e.id === payload.id);
   * if (index !== -1) list[index] = payload;`: the first element with the payload's key is
   * replaced by the payload, and nothing else changes.
   */
  function ReplaceFirst<T, K(==)>(s: seq<T>, key: T -> K, x: T): (r: seq<T>)
    ensures |r| == |s|
    ensures forall j :: 0 <= j < |s| ==> r[j] == if IsFirstMatch(s, key, key(x), j) then x else s[j]
    ensures NoMatch(s, key, key(x)) ==> r == s
    ensures !NoMatch(s, key, key(x)) ==> x in r
  {
    var i := FindIndex(s, key, key(x));
    if i == -1 then s
    else
      assert forall j :: 0 <= j < |s| && j != i ==> !IsFirstMatch(s, key, key(x), j);
      s[i := x]
  }

  /** Replacing the first match by an element with the same key twice gives the same list as once. */
  lemma ReplaceFirstTwice<T, K>(s: seq<T>, key: T -> K, x: T)
    ensures ReplaceFirst(ReplaceFirst(s, key, x), key, x) == ReplaceFirst(s, key, x)
  {
    var r := ReplaceFirst(s, key, x);
    if !NoMatch(s, key, key(x)) {
      var i := FindIndex(s, key, key(x));
      assert IsFirstMatch(r, key, key(x), i);
      forall j | 0 <= j < |r| && j != i
        ensures !IsFirstMatch(r, key, key(x), j)
      {
        if j > i { assert key(r[i]) == key(x); }
      }
    }
  }

  /** `list.filter(e => e.id !== k)`: every element whose key is `k` is removed, order kept. */
  function RemoveKey<T(==,!new), K(==)>(s: seq<T>, key: T -> K, k: K): (r: seq<T>)
    ensures |r| <= |s|
    ensures forall x :: x in r <==> x in s && key(x) != k
    ensures IsSubseq(r, s)
    ensures NoMatch(s, key, k) ==> r == s
  {
    if s == [] then []
    else
      var rest := RemoveKey(s[1..], key, k);
      assert forall x :: x in s <==> x == s[0] || x in s[1..];
      if key(s[0]) != k then
        assert ([s[0]] + rest)[1..] == rest;
        [s[0]] + rest
      else rest
  }

  /** Removing by key is idempotent, and nothing with that key survives. */
  lemma {:induction false} RemoveKeyIdempotent<T(!new), K>(s: seq<T>, key: T -> K, k: K)
    ensures NoMatch(RemoveKey(s, key, k), key, k)
    ensures RemoveKey(RemoveKey(s, key, k), key, k) == RemoveKey(s, key, k)
  {
    var r := RemoveKey(s, key, k);
    forall j | 0 <= j < |r| ensures key(r[j]) != k {
      assert r[j] in r;
    }
  }

  /** Removing by key drops exactly the elements with that key: the two parts add up to the list. */
  lemma {:induction false} RemoveKeyCount<T(!new), K>(s: seq<T>, key: T -> K, k: K, hasKey: T -> bool)
    requires forall x :: hasKey(x) == (key(x) == k)
    ensures |RemoveKey(s, key, k)| + Count(s, hasKey) == |s|
  {
    if s != [] {
      RemoveKeyCount(s[1..], key, k, hasKey);
    }
  }

  /** `Array.from(new Set(s))`: the distinct elements of `s` in first-occurrence order. */
  function Dedup<T(==,!new)>(s: seq<T>): (r: seq<T>)
    ensures forall x :: x in r <==> x in s
    ensures forall i, j :: 0 <= i < j < |r| ==> r[i] != r[j]
  {
    DedupAfter(s, {})
  }

  /** Scans `s` left to right, keeping each element not in `seen` and not met before. */
  function DedupAfter<T(==,!new)>(s: seq<T>, seen: set<T>): (r: seq<T>)
    ensures forall x :: x in r <==> x in s && x !in seen
    ensures forall i, j :: 0 <= i < j < |r| ==> r[i] != r[j]
    decreases |s|
  {
    if s == [] then []
    else if s[0] in seen then
      var rest := DedupAfter(s[1..], seen);
      assert forall x :: x in s <==> x == s[0] || x in s[1..];
      rest
    else
      var rest := DedupAfter(s[1..], seen + {s[0]});
      assert forall x :: x in s <==> x == s[0] || x in s[1..];
      [s[0]] + rest
  }

  /** The index of the first occurrence of `x` in `s`. */
  function FirstIndexOf<T(==,!new)>(s: seq<T>, x: T): (i: nat)
    requires x in s
    ensures i < |s| && s[i] == x && forall m :: 0 <= m < i ==> s[m] != x
  {
    if s[0] == x then 0 else 1 + FirstIndexOf(s[1..], x)
  }

  /** `Dedup` keeps first-occurrence order: earlier results first occur earlier in `s`. */
  lemma DedupOrder<T(!new)>(s: seq<T>, i: int, j: int)
    requires 0 <= i < j < |Dedup(s)|
    ensures Dedup(s)[i] in s && Dedup(s)[j] in s
    ensures FirstIndexOf(s, Dedup(s)[i]) < FirstIndexOf(s, Dedup(s)[j])
  {
    DedupAfterOrder(s, {}, i, j);
  }

  lemma {:induction false} DedupAfterOrder<T(!new)>(s: seq<T>, seen: set<T>, i: int, j: int)
    requires 0 <= i < j < |DedupAfter(s, seen)|
    ensures DedupAfter(s, seen)[i] in s && DedupAfter(s, seen)[j] in s
    ensures FirstIndexOf(s, DedupAfter(s, seen)[i]) < FirstIndexOf(s, DedupAfter(s, seen)[j])
    decreases |s|
  {
    var r := DedupAfter(s, seen);
    var x, y := r[i], r[j];
    assert x in r && y in r;
    if s[0] in seen {
      DedupAfterOrder(s[1..], seen, i, j);
      ShiftOrder(s, x, y);
    } else {
      var rest := DedupAfter(s[1..], seen + {s[0]});
      assert r == [s[0]] + rest;
      if i == 0 {
        FirstIndexOfTail(s, y);
      } else {
        assert x == rest[i - 1] && y == rest[j - 1];
        assert x in rest && y in rest;
        assert x !in seen + {s[0]} && y !in seen + {s[0]};
        DedupAfterOrder(s[1..], seen + {s[0]}, i - 1, j - 1);
        ShiftOrder(s, x, y);
      }
    }
  }

  lemma ShiftOrder<T(!new)>(s: seq<T>, x: T, y: T)
    requires |s| > 0 && x != s[0] && y != s[0] && x in s[1..] && y in s[1..]
    requires FirstIndexOf(s[1..], x) < FirstIndexOf(s[1..], y)
    ensures x in s && y in s && FirstIndexOf(s, x) < FirstIndexOf(s, y)
  {
    FirstIndexOfTail(s, x);
    FirstIndexOfTail(s, y);
  }

  lemma FirstIndexOfTail<T(!new)>(s: seq<T>, x: T)
    requires x in s && x != s[0]
    ensures x in s[1..] && FirstIndexOf(s, x) == 1 + FirstIndexOf(s[1..], x)
  {
  }
}
