/** Order-preserving filtering of sequences (`Array.prototype.filter`) and what it guarantees. */
module Seqs {
  import opened Common

  /** The elements of `s` that satisfy `f`, in their original order. */
  function Filter<T(==)>(f: T -> bool, s: seq<T>): (r: seq<T>)
    ensures |r| <= |s|
    ensures forall x :: x in r ==> x in s && f(x)
  {
    if s == [] then []
    else Filter(f, s[..|s| - 1]) + (if f(s[|s| - 1]) then [s[|s| - 1]] else [])
  }

  /** `r` can be obtained from `s` by deleting elements: the order of what remains is kept. */
  predicate IsSubsequence<T(==)>(r: seq<T>, s: seq<T>)
    decreases |s|
  {
    if r == [] then true
    else if s == [] then false
    else
      (r[|r| - 1] == s[|s| - 1] && IsSubsequence(r[..|r| - 1], s[..|s| - 1]))
      || IsSubsequence(r, s[..|s| - 1])
  }

  /** No element occurs twice. */
  predicate Distinct<T(==)>(s: seq<T>) {
    forall i, j :: 0 <= i < j < |s| ==> s[i] != s[j]
  }

  /** Every element of `s` that satisfies `f` is kept. */
  lemma {:induction false} FilterKeepsAll<T>(f: T -> bool, s: seq<T>, x: T)
    requires x in s && f(x)
    ensures x in Filter(f, s)
  {
    var init := s[..|s| - 1];
    if x != s[|s| - 1] {
      assert s == init + [s[|s| - 1]];
      FilterKeepsAll(f, init, x);
    }
  }

  /** Filtering keeps the relative order of the surviving elements. */
  lemma {:induction false} FilterIsSubsequence<T>(f: T -> bool, s: seq<T>)
    ensures IsSubsequence(Filter(f, s), s)
  {
    if s != [] {
      var init := s[..|s| - 1];
      FilterIsSubsequence(f, init);
      var r := Filter(f, s);
      if f(s[|s| - 1]) {
        assert r[..|r| - 1] == Filter(f, init);
      } else {
        assert r == Filter(f, init);
        SubsequenceOfPrefix(r, init, s);
      }
    }
  }

  /** A subsequence of a prefix-by-one is a subsequence of the whole. */
  lemma SubsequenceOfPrefix<T>(r: seq<T>, init: seq<T>, s: seq<T>)
    requires s != [] && init == s[..|s| - 1]
    requires IsSubsequence(r, init)
    ensures IsSubsequence(r, s)
  {
  }

  /** When every element passes, filtering changes nothing. */
  lemma {:induction false} FilterAllPass<T>(f: T -> bool, s: seq<T>)
    requires forall i :: 0 <= i < |s| ==> f(s[i])
    ensures Filter(f, s) == s
  {
    if s != [] {
      var init := s[..|s| - 1];
      assert forall i :: 0 <= i < |init| ==> init[i] == s[i];
      FilterAllPass(f, init);
      SnocSplit(s);
    }
  }

  /** A non-empty sequence is its front followed by its last element. */
  lemma SnocSplit<T>(s: seq<T>)
    requires s != []
    ensures s == s[..|s| - 1] + [s[|s| - 1]]
  {
  }

  /** Filtering distributes over concatenation: the survivors of `a` come before those of `b`. */
  lemma {:induction false} FilterAppend<T>(f: T -> bool, a: seq<T>, b: seq<T>)
    ensures Filter(f, a + b) == Filter(f, a) + Filter(f, b)
  {
    if b != [] {
      var binit := b[..|b| - 1];
      assert (a + b)[..|a + b| - 1] == a + binit;
      FilterAppend(f, a, binit);
    } else {
      assert a + b == a;
    }
  }

  /** Filtering a sequence without duplicates gives a sequence without duplicates. */
  lemma {:induction false} FilterKeepsDistinct<T>(f: T -> bool, s: seq<T>)
    requires Distinct(s)
    ensures Distinct(Filter(f, s))
  {
    if s != [] {
      var init := s[..|s| - 1];
      var last := s[|s| - 1];
      FilterKeepsDistinct(f, init);
      if f(last) {
        var r := Filter(f, s);
        assert last !in init;
        assert forall i :: 0 <= i < |r| - 1 ==> r[i] in Filter(f, init);
      }
    }
  }

  /** Filtering by a stricter test after a looser one is the same as filtering by the stricter
      test alone. */
  lemma {:induction false} FilterNested<T>(f: T -> bool, g: T -> bool, s: seq<T>)
    requires forall x :: g(x) ==> f(x)
    ensures Filter(g, Filter(f, s)) == Filter(g, s)
  {
    if s != [] {
      var init := s[..|s| - 1];
      var last := s[|s| - 1];
      FilterNested(f, g, init);
      var tail := if f(last) then [last] else [];
      FilterAppend(g, Filter(f, init), tail);
      if tail != [] {
        assert Filter(g, tail) == Filter(g, []) + (if g(last) then [last] else []);
      }
    }
  }

  /** `s.map(f).filter(present)`: the present results of `f`, in order. */
  function FilterMap<A, B>(f: A -> Option<B>, s: seq<A>): (r: seq<B>)
    ensures |r| <= |s|
  {
    if s == [] then []
    else
      var y := f(s[|s| - 1]);
      FilterMap(f, s[..|s| - 1]) + (if y.Some? then [y.value] else [])
  }

  /** Nothing is dropped exactly when every element has a result, and then the results are in
      place. */
  lemma {:induction false} FilterMapFull<A, B>(f: A -> Option<B>, s: seq<A>)
    ensures |FilterMap(f, s)| == |s| <==> forall i :: 0 <= i < |s| ==> f(s[i]).Some?
    ensures |FilterMap(f, s)| == |s| ==> forall i :: 0 <= i < |s| ==> FilterMap(f, s)[i] == f(s[i]).value
  {
    if s != [] {
      var init := s[..|s| - 1];
      FilterMapFull(f, init);
      assert forall i :: 0 <= i < |init| ==> s[i] == init[i];
    }
  }

  /** Filtering a sequence with one more element at the front. */
  lemma {:induction false} FilterPrepend<T>(f: T -> bool, x: T, t: seq<T>)
    ensures Filter(f, [x] + t) == (if f(x) then [x] else []) + Filter(f, t)
  {
    FilterAppend(f, [x], t);
    assert [x][..0] == [];
    assert Filter(f, [x]) == (if f(x) then [x] else []);
  }

  lemma AppendAssoc<T>(a: seq<T>, b: seq<T>, c: seq<T>)
    ensures a + (b + c) == (a + b) + c
  {
  }

  /** Ascending by `key`. */
  predicate SortedBy<T>(key: T -> int, s: seq<T>) {
    forall i, j :: 0 <= i < j < |s| ==> key(s[i]) <= key(s[j])
  }

  /** Insert `x` before the first element whose key is not smaller. */
  function InsertBy<T>(key: T -> int, x: T, t: seq<T>): (r: seq<T>)
    ensures multiset(r) == multiset([x] + t)
  {
    if t == [] || key(x) <= key(t[0]) then [x] + t
    else
      assert t == [t[0]] + t[1..];
      [t[0]] + InsertBy(key, x, t[1..])
  }

  /** What an insertion holds: the inserted element and the old ones. */
  lemma InsertByMembers<T>(key: T -> int, x: T, t: seq<T>, y: T)
    requires y in InsertBy(key, x, t)
    ensures y == x || y in t
  {
    assert y in multiset(InsertBy(key, x, t));
  }

  lemma {:induction false} InsertBySorted<T>(key: T -> int, x: T, t: seq<T>)
    requires SortedBy(key, t)
    ensures SortedBy(key, InsertBy(key, x, t))
  {
    if t == [] || key(x) <= key(t[0]) {
      assert forall i :: 0 <= i < |t| ==> key(t[0]) <= key(t[i]);
      ConsSorted(key, x, t);
    } else {
      var t1 := t[1..];
      assert forall i :: 0 <= i < |t1| ==> t1[i] == t[i + 1];
      InsertBySorted(key, x, t1);
      var rest := InsertBy(key, x, t1);
      forall i | 0 <= i < |rest|
        ensures key(t[0]) <= key(rest[i])
      {
        InsertByMembers(key, x, t1, rest[i]);
        if rest[i] != x {
          var j :| 0 <= j < |t1| && t1[j] == rest[i];
          assert t1[j] == t[j + 1];
        }
      }
      ConsSorted(key, t[0], rest);
    }
  }

  /** A sorted sequence stays sorted under a new first element no greater than any of its own. */
  lemma ConsSorted<T>(key: T -> int, h: T, s: seq<T>)
    requires SortedBy(key, s)
    requires forall i :: 0 <= i < |s| ==> key(h) <= key(s[i])
    ensures SortedBy(key, [h] + s)
  {
    var r := [h] + s;
    assert forall i :: 1 <= i < |r| ==> r[i] == s[i - 1];
  }

  /** `s.sort((a, b) => key(a) - key(b))`: a stable insertion sort by `key`. */
  function SortBy<T>(key: T -> int, s: seq<T>): (r: seq<T>)
    ensures multiset(r) == multiset(s) && |r| == |s|
  {
    if s == [] then []
    else
      assert s == [s[0]] + s[1..];
      InsertBy(key, s[0], SortBy(key, s[1..]))
  }

  lemma {:induction false} SortBySorted<T>(key: T -> int, s: seq<T>)
    ensures SortedBy(key, SortBy(key, s))
  {
    if s != [] {
      SortBySorted(key, s[1..]);
      InsertBySorted(key, s[0], SortBy(key, s[1..]));
    }
  }

  function KeyIs<T>(key: T -> int, k: int): T -> bool {
    (x: T) => key(x) == k
  }

  lemma {:induction false} InsertByStable<T>(key: T -> int, x: T, t: seq<T>, k: int)
    ensures Filter(KeyIs(key, k), InsertBy(key, x, t)) == Filter(KeyIs(key, k), [x] + t)
  {
    if t != [] && key(x) > key(t[0]) {
      var f := KeyIs(key, k);
      var t0, t1 := t[0], t[1..];
      assert t == [t0] + t1;
      var px := if f(x) then [x] else [];
      var p0 := if f(t0) then [t0] else [];
      // `x` and `t0` have different keys, so at most one of them is kept.
      assert p0 + px == px + p0 by {
        if f(x) { assert p0 == []; } else { assert px == []; }
      }
      calc {
        Filter(f, InsertBy(key, x, t));
        { assert InsertBy(key, x, t) == [t0] + InsertBy(key, x, t1); }
        Filter(f, [t0] + InsertBy(key, x, t1));
        { FilterPrepend(f, t0, InsertBy(key, x, t1)); }
        p0 + Filter(f, InsertBy(key, x, t1));
        { InsertByStable(key, x, t1, k); }
        p0 + Filter(f, [x] + t1);
        { FilterPrepend(f, x, t1); }
        p0 + (px + Filter(f, t1));
        { AppendAssoc(p0, px, Filter(f, t1)); }
        (px + p0) + Filter(f, t1);
        { AppendAssoc(px, p0, Filter(f, t1)); }
        px + (p0 + Filter(f, t1));
        { FilterPrepend(f, t0, t1); }
        px + Filter(f, t);
        { FilterPrepend(f, x, t); }
        Filter(f, [x] + t);
      }
    }
  }

  /** The sort is stable: elements with equal keys keep their relative order. */
  lemma {:induction false} SortByStable<T>(key: T -> int, s: seq<T>, k: int)
    ensures Filter(KeyIs(key, k), SortBy(key, s)) == Filter(KeyIs(key, k), s)
  {
    if s != [] {
      var f := KeyIs(key, k);
      SortByStable(key, s[1..], k);
      InsertByStable(key, s[0], SortBy(key, s[1..]), k);
      FilterPrepend(f, s[0], SortBy(key, s[1..]));
      assert s == [s[0]] + s[1..];
      FilterPrepend(f, s[0], s[1..]);
    }
  }
}
