/** The stream operations the estimator is built from, on sequences: `filter`,
    `summingDouble` over a `map`, and the stable descending `sorted`. */
module Sequences {

  /** `stream.filter(p)`: the elements satisfying `p`, in encounter order. */
  function Filter<T>(s: seq<T>, p: T -> bool): (r: seq<T>)
    ensures |r| <= |s|
  {
    if s == [] then []
    else (if p(s[0]) then [s[0]] else []) + Filter(s[1..], p)
  }

  /** `stream.map(f).collect(summingDouble(...))` under exact arithmetic, in encounter order. */
  function Sum<T>(s: seq<T>, f: T -> real): real {
    if s == [] then 0.0 else f(s[0]) + Sum(s[1..], f)
  }

  lemma {:induction false} FilterAppend<T>(s: seq<T>, t: seq<T>, p: T -> bool)
    ensures Filter(s + t, p) == Filter(s, p) + Filter(t, p)
  {
    if s == [] {
      assert s + t == t;
    } else {
      var head := if p(s[0]) then [s[0]] else [];
      assert (s + t)[0] == s[0];
      assert (s + t)[1..] == s[1..] + t;
      FilterAppend(s[1..], t, p);
      calc {
        Filter(s + t, p);
        head + Filter(s[1..] + t, p);
        head + (Filter(s[1..], p) + Filter(t, p));
        (head + Filter(s[1..], p)) + Filter(t, p);
        Filter(s, p) + Filter(t, p);
      }
    }
  }

  lemma {:induction false} SumAppend<T>(s: seq<T>, t: seq<T>, f: T -> real)
    ensures Sum(s + t, f) == Sum(s, f) + Sum(t, f)
  {
    if s == [] {
      assert s + t == t;
    } else {
      assert (s + t)[1..] == s[1..] + t;
      SumAppend(s[1..], t, f);
    }
  }

  /** Summing a filtered sequence takes the first element's value when it passes the filter. */
  lemma SumFilterCons<T>(s: seq<T>, f: T -> real, p: T -> bool)
    requires s != []
    ensures Sum(Filter(s, p), f) == (if p(s[0]) then f(s[0]) else 0.0) + Sum(Filter(s[1..], p), f)
  {
    SumAppend(if p(s[0]) then [s[0]] else [], Filter(s[1..], p), f);
  }

  /** The filter keeps exactly the elements that satisfy the predicate. */
  lemma {:induction false} FilterMembers<T>(s: seq<T>, p: T -> bool)
    ensures forall x :: x in Filter(s, p) <==> x in s && p(x)
  {
    if s != [] {
      FilterMembers(s[1..], p);
      assert forall x :: x in s <==> x == s[0] || x in s[1..];
    }
  }

  /** Filtering with a predicate that no element satisfies leaves nothing. */
  lemma {:induction false} FilterNone<T>(s: seq<T>, p: T -> bool)
    requires forall i :: 0 <= i < |s| ==> !p(s[i])
    ensures Filter(s, p) == []
  {
    if s != [] {
      FilterNone(s[1..], p);
    }
  }

  /** Filtering with a predicate that every element satisfies keeps the whole sequence. */
  lemma {:induction false} FilterAll<T>(s: seq<T>, p: T -> bool)
    requires forall x :: x in s ==> p(x)
    ensures Filter(s, p) == s
  {
    if s != [] {
      FilterAll(s[1..], p);
    }
  }

  /** `p` and `q` partition `s`: together the two filters hold every element of `s`
      exactly as often as `s` does. */
  lemma {:induction false} FilterPartition<T>(s: seq<T>, p: T -> bool, q: T -> bool)
    requires forall x :: x in s ==> q(x) == !p(x)
    ensures multiset(Filter(s, p)) + multiset(Filter(s, q)) == multiset(s)
  {
    if s != [] {
      var x, rest := s[0], s[1..];
      assert s == [x] + rest;
      assert forall y :: y in rest ==> y in s;
      FilterPartition(rest, p, q);
      if p(x) {
        assert Filter(s, p) == [x] + Filter(rest, p);
        assert Filter(s, q) == Filter(rest, q);
      } else {
        assert Filter(s, p) == Filter(rest, p);
        assert Filter(s, q) == [x] + Filter(rest, q);
      }
    }
  }

  /** Summing the two halves of a partition gives the sum of the whole. */
  lemma {:induction false} SumPartition<T>(s: seq<T>, f: T -> real, p: T -> bool, q: T -> bool)
    requires forall x :: x in s ==> q(x) == !p(x)
    ensures Sum(Filter(s, p), f) + Sum(Filter(s, q), f) == Sum(s, f)
  {
    if s != [] {
      SumPartition(s[1..], f, p, q);
      var head := if p(s[0]) then [s[0]] else [];
      var tail := if q(s[0]) then [s[0]] else [];
      SumAppend(head, Filter(s[1..], p), f);
      SumAppend(tail, Filter(s[1..], q), f);
    }
  }

  /** Filtering by a disjunction of two disjoint predicates sums to the two sums. */
  lemma {:induction false} SumDisjointUnion<T>(s: seq<T>, f: T -> real, p: T -> bool, q: T -> bool, pq: T -> bool)
    requires forall x :: x in s ==> pq(x) == (p(x) || q(x)) && !(p(x) && q(x))
    ensures Sum(Filter(s, pq), f) == Sum(Filter(s, p), f) + Sum(Filter(s, q), f)
  {
    if s != [] {
      SumDisjointUnion(s[1..], f, p, q, pq);
      SumAppend(if pq(s[0]) then [s[0]] else [], Filter(s[1..], pq), f);
      SumAppend(if p(s[0]) then [s[0]] else [], Filter(s[1..], p), f);
      SumAppend(if q(s[0]) then [s[0]] else [], Filter(s[1..], q), f);
    }
  }

  /** A sum of two quantities per element is the sum of the two sums. */
  lemma {:induction false} SumOfSums<T>(s: seq<T>, f: T -> real, g: T -> real, h: T -> real)
    requires forall x :: x in s ==> h(x) == f(x) + g(x)
    ensures Sum(s, h) == Sum(s, f) + Sum(s, g)
  {
    if s != [] {
      SumOfSums(s[1..], f, g, h);
    }
  }

  lemma {:induction false} SumNonNegative<T>(s: seq<T>, f: T -> real)
    requires forall x :: x in s ==> f(x) >= 0.0
    ensures Sum(s, f) >= 0.0
  {
    if s != [] {
      SumNonNegative(s[1..], f);
    }
  }

  /** The sum does not depend on the order of the elements. */
  lemma {:induction false} SumPermutation<T>(s: seq<T>, t: seq<T>, f: T -> real)
    requires multiset(s) == multiset(t)
    ensures Sum(s, f) == Sum(t, f)
    decreases |s|
  {
    if s != [] {
      var x := s[0];
      assert x in multiset(t);
      var k :| 0 <= k < |t| && t[k] == x;
      var rest := t[..k] + t[k + 1..];
      assert t == t[..k] + [x] + t[k + 1..];
      assert s == [x] + s[1..];
      assert multiset(t) == multiset(t[..k]) + multiset{x} + multiset(t[k + 1..]);
      assert multiset(s) == multiset{x} + multiset(s[1..]);
      assert multiset(rest) == multiset(t[..k]) + multiset(t[k + 1..]);
      assert multiset(s[1..]) == multiset(s) - multiset{x};
      assert multiset(rest) == multiset(t) - multiset{x};
      SumPermutation(s[1..], rest, f);
      SumAppend(t[..k] + [x], t[k + 1..], f);
      SumAppend(t[..k], [x], f);
      SumAppend(t[..k], t[k + 1..], f);
    } else {
      assert t == [];
    }
  }

  /** Ordered non-increasingly by `key`. */
  ghost predicate Descending<T>(s: seq<T>, key: T -> real) {
    forall i, j :: 0 <= i < j < |s| ==> key(s[j]) <= key(s[i])
  }

  /** The elements whose key is exactly `k`, in order: what a stable sort must not reorder. */
  function WithKey<T>(s: seq<T>, key: T -> real, k: real): seq<T> {
    if s == [] then []
    else (if key(s[0]) == k then [s[0]] else []) + WithKey(s[1..], key, k)
  }

  /** Places `x` before the first element whose key is not larger than its own. */
  function Insert<T>(x: T, s: seq<T>, key: T -> real): (r: seq<T>)
    requires Descending(s, key)
    ensures |r| == |s| + 1 && (r[0] == x || (s != [] && r[0] == s[0]))
    ensures Descending(r, key)
    ensures multiset(r) == multiset(s) + multiset{x}
  {
    if s == [] then [x]
    else if key(s[0]) <= key(x) then [x] + s
    else
      var rest := Insert(x, s[1..], key);
      assert forall j :: 0 <= j < |rest| ==> key(rest[j]) <= key(rest[0]);
      assert key(rest[0]) <= key(s[0]);
      assert s == [s[0]] + s[1..];
      [s[0]] + rest
  }

  /** `sorted(Comparator.comparing(key).reversed())`: a stable sort, largest key first. */
  function SortDescending<T>(s: seq<T>, key: T -> real): (r: seq<T>)
    ensures Descending(r, key)
    ensures multiset(r) == multiset(s)
  {
    if s == [] then []
    else
      assert s == [s[0]] + s[1..];
      Insert(s[0], SortDescending(s[1..], key), key)
  }

  lemma {:induction false} InsertWithKey<T>(x: T, s: seq<T>, key: T -> real, k: real)
    requires Descending(s, key)
    ensures WithKey(Insert(x, s, key), key, k) ==
      (if key(x) == k then [x] else []) + WithKey(s, key, k)
  {
    if s == [] {
    } else if key(s[0]) <= key(x) {
      assert ([x] + s)[1..] == s;
    } else {
      InsertWithKey(x, s[1..], key, k);
      assert ([s[0]] + Insert(x, s[1..], key))[1..] == Insert(x, s[1..], key);
      if key(x) == k {
        // every element before the insertion point has a key larger than k
        assert key(s[0]) != k;
      }
    }
  }

  /** Stability: among elements with equal keys the input order is kept. */
  lemma {:induction false} SortDescendingStable<T>(s: seq<T>, key: T -> real, k: real)
    ensures WithKey(SortDescending(s, key), key, k) == WithKey(s, key, k)
  {
    if s != [] {
      SortDescendingStable(s[1..], key, k);
      InsertWithKey(s[0], SortDescending(s[1..], key), key, k);
    }
  }

  /** `listing` is `s` sorted stably, largest key first: ordered, the same elements, and
      elements with equal keys in their order in `s`. */
  ghost predicate StableSortOf<T>(listing: seq<T>, s: seq<T>, key: T -> real) {
    && Descending(listing, key)
    && multiset(listing) == multiset(s)
    && forall k :: WithKey(listing, key, k) == WithKey(s, key, k)
  }

  lemma SortDescendingIsStableSort<T>(s: seq<T>, key: T -> real)
    ensures StableSortOf(SortDescending(s, key), s, key)
  {
    forall k ensures WithKey(SortDescending(s, key), key, k) == WithKey(s, key, k) {
      SortDescendingStable(s, key, k);
    }
  }

  /** With strictly increasing ranks the last element outranks every other one. */
  lemma {:induction false} IncreasingRanksBound<T>(s: seq<T>, rank: T -> int)
    requires forall i :: 0 < i < |s| ==> rank(s[i - 1]) < rank(s[i])
    ensures forall k :: 0 <= k < |s| - 1 ==> rank(s[k]) < rank(s[|s| - 1])
  {
    if |s| > 1 {
      var init := s[..|s| - 1];
      IncreasingRanksBound(init, rank);
      assert forall k :: 0 <= k < |init| ==> init[k] == s[k];
    }
  }

  /** A sequence whose elements have strictly increasing ranks has no repeated element. */
  lemma {:induction false} IncreasingRanksDistinct<T>(s: seq<T>, rank: T -> int)
    requires forall i :: 0 < i < |s| ==> rank(s[i - 1]) < rank(s[i])
    ensures |set x | x in s| == |s|
  {
    if s != [] {
      var init, last := s[..|s| - 1], s[|s| - 1];
      assert forall k :: 0 <= k < |init| ==> init[k] == s[k];
      IncreasingRanksDistinct(init, rank);
      IncreasingRanksBound(s, rank);
      assert last !in init;
      assert s == init + [last];
      assert (set x | x in s) == (set x | x in init) + {last};
    }
  }
}
