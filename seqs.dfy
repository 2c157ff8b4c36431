/** The two array operations every list view of the portal is built from:
    `Array.prototype.filter` and the stable `Array.prototype.sort` with a
    "newest first" comparator `(a, b) => key(b) - key(a)`. */
module Seqs {
  import opened Common

  /** `s.filter(p)`: the elements that pass `p`, in their original order. */
  function Filter<T(==)>(s: seq<T>, p: T -> bool): (r: seq<T>)
    ensures |r| <= |s|
    ensures forall i :: 0 <= i < |r| ==> p(r[i])
  {
    if s == [] then []
    else
      assert s == [s[0]] + s[1..];
      (if p(s[0]) then [s[0]] else []) + Filter(s[1..], p)
  }

  /** `s.findIndex(p)`, with `None` for -1: the first position whose element
      passes. `s.find(p)` is the element there and `s.some(p)` is `Some?`. */
  function IndexWhere<T>(s: seq<T>, p: T -> bool): (r: Option<nat>)
    ensures r.Some? ==> r.value < |s| && p(s[r.value])
    ensures r.Some? ==> forall j :: 0 <= j < r.value ==> !p(s[j])
    ensures r.None? <==> forall j :: 0 <= j < |s| ==> !p(s[j])
  {
    if s == [] then None
    else if p(s[0]) then Some(0)
    else
      match IndexWhere(s[1..], p)
      case None => None
      case Some(i) => Some(i + 1)
  }

  /** An element occurs in the filtered list as often as in the input when it
      passes, and not at all otherwise. */
  lemma {:induction false} FilterOccurrences<T>(s: seq<T>, p: T -> bool, x: T)
    ensures multiset(Filter(s, p))[x] == if p(x) then multiset(s)[x] else 0
  {
    if s != [] {
      assert s == [s[0]] + s[1..];
      FilterOccurrences(s[1..], p, x);
    }
  }

  /** Filtering distributes over concatenation: the filter keeps relative order. */
  lemma {:induction false} FilterConcat<T>(a: seq<T>, b: seq<T>, p: T -> bool)
    ensures Filter(a + b, p) == Filter(a, p) + Filter(b, p)
  {
    if a == [] {
      assert a + b == b;
    } else {
      assert (a + b)[0] == a[0];
      assert (a + b)[1..] == a[1..] + b;
      FilterConcat(a[1..], b, p);
    }
  }

  /** Every element the filter keeps comes from the input. */
  lemma {:induction false} FilterFrom<T>(s: seq<T>, p: T -> bool)
    ensures forall x :: x in Filter(s, p) ==> x in s
  {
    if s != [] {
      FilterFrom(s[1..], p);
    }
  }

  /** A filter every element passes keeps the list as it is. */
  lemma {:induction false} FilterKeepsAll<T>(s: seq<T>, p: T -> bool)
    requires forall i :: 0 <= i < |s| ==> p(s[i])
    ensures Filter(s, p) == s
  {
    if s != [] {
      FilterKeepsAll(s[1..], p);
      assert s == [s[0]] + s[1..];
    }
  }

  /** `s.slice(0, n)`. */
  function Take<T>(s: seq<T>, n: nat): (r: seq<T>)
    ensures |r| <= n && |r| <= |s|
    ensures r == s[..|r|]
    ensures |s| <= n ==> r == s
  {
    if |s| <= n then s else s[..n]
  }

  /** Two filters with disjoint predicates together keep at most every element. */
  lemma {:induction false} FilterDisjointCount<T>(s: seq<T>, p: T -> bool, q: T -> bool)
    requires forall i :: 0 <= i < |s| ==> !(p(s[i]) && q(s[i]))
    ensures |Filter(s, p)| + |Filter(s, q)| <= |s|
  {
    if s != [] {
      FilterDisjointCount(s[1..], p, q);
    }
  }

  /** Filtering with a predicate that implies another keeps no more elements. */
  lemma {:induction false} FilterMonotone<T>(s: seq<T>, p: T -> bool, q: T -> bool)
    requires forall i :: 0 <= i < |s| ==> p(s[i]) ==> q(s[i])
    ensures |Filter(s, p)| <= |Filter(s, q)|
  {
    if s != [] {
      FilterMonotone(s[1..], p, q);
    }
  }

  ghost predicate SortedDesc<T>(s: seq<T>, key: T -> int) {
    forall i, j :: 0 <= i < j < |s| ==> key(s[i]) >= key(s[j])
  }

  /** Places `x` in front of the first element whose key is not larger than its
      own, which keeps `x` ahead of equal keys that came after it. */
  function Insert<T>(x: T, s: seq<T>, key: T -> int): (r: seq<T>)
    ensures |r| == |s| + 1
    ensures r[0] == x || (s != [] && r[0] == s[0])
  {
    if s == [] then [x]
    else if key(s[0]) <= key(x) then [x] + s
    else [s[0]] + Insert(x, s[1..], key)
  }

  lemma {:induction false} InsertSorted<T>(x: T, s: seq<T>, key: T -> int)
    requires SortedDesc(s, key)
    ensures SortedDesc(Insert(x, s, key), key)
  {
    if s != [] && key(s[0]) > key(x) {
      var t := Insert(x, s[1..], key);
      InsertSorted(x, s[1..], key);
      assert key(t[0]) <= key(s[0]);
      assert Insert(x, s, key) == [s[0]] + t;
    }
  }

  lemma {:induction false} InsertPermutes<T>(x: T, s: seq<T>, key: T -> int)
    ensures multiset(Insert(x, s, key)) == multiset(s) + multiset{x}
  {
    if s != [] && key(s[0]) > key(x) {
      InsertPermutes(x, s[1..], key);
      assert s == [s[0]] + s[1..];
    }
  }

  /** The stable sort, newest (largest key) first. */
  function SortDesc<T>(s: seq<T>, key: T -> int): (r: seq<T>)
    ensures SortedDesc(r, key)
    ensures multiset(r) == multiset(s)
  {
    if s == [] then []
    else
      var t := SortDesc(s[1..], key);
      InsertSorted(s[0], t, key);
      InsertPermutes(s[0], t, key);
      assert s == [s[0]] + s[1..];
      Insert(s[0], t, key)
  }

  /** A bound on every key of the input bounds every key of the filtered list. */
  lemma {:induction false} FilterBounded<T>(s: seq<T>, key: T -> int, p: T -> bool, k: int)
    requires forall i :: 0 <= i < |s| ==> key(s[i]) <= k
    ensures forall i :: 0 <= i < |Filter(s, p)| ==> key(Filter(s, p)[i]) <= k
  {
    if s != [] {
      FilterBounded(s[1..], key, p, k);
    }
  }

  lemma {:induction false} FilterSorted<T>(s: seq<T>, key: T -> int, p: T -> bool)
    requires SortedDesc(s, key)
    ensures SortedDesc(Filter(s, p), key)
  {
    if s != [] {
      FilterSorted(s[1..], key, p);
      FilterBounded(s[1..], key, p, key(s[0]));
    }
  }

  /** Filtering after an insertion is inserting into the filtered list, or
      nothing when the inserted element does not pass. */
  lemma {:induction false} FilterInsert<T>(x: T, s: seq<T>, key: T -> int, p: T -> bool)
    requires SortedDesc(s, key)
    ensures Filter(Insert(x, s, key), p) ==
            if p(x) then Insert(x, Filter(s, p), key) else Filter(s, p)
  {
    if s == [] {
      assert [x][1..] == [];
    } else if key(s[0]) <= key(x) {
      FilterInsertFront(x, s, key, p);
    } else {
      FilterInsert(x, s[1..], key, p);
      FilterInsertBehind(x, s, key, p);
    }
  }

  lemma {:induction false} FilterInsertFront<T>(x: T, s: seq<T>, key: T -> int, p: T -> bool)
    requires SortedDesc(s, key)
    requires s != [] && key(s[0]) <= key(x)
    ensures Filter(Insert(x, s, key), p) ==
            if p(x) then Insert(x, Filter(s, p), key) else Filter(s, p)
  {
    var xs := [x] + s;
    assert Insert(x, s, key) == xs;
    assert xs[0] == x && xs[1..] == s;
    assert Filter(xs, p) == (if p(x) then [x] else []) + Filter(s, p);
    FilterBounded(s, key, p, key(x));
    var t := Filter(s, p);
    if p(x) && t != [] {
      assert key(t[0]) <= key(x);
      assert Insert(x, t, key) == [x] + t;
    }
  }

  lemma {:induction false} FilterInsertBehind<T>(x: T, s: seq<T>, key: T -> int, p: T -> bool)
    requires s != [] && key(s[0]) > key(x)
    requires Filter(Insert(x, s[1..], key), p) ==
             if p(x) then Insert(x, Filter(s[1..], p), key) else Filter(s[1..], p)
    ensures Filter(Insert(x, s, key), p) ==
            if p(x) then Insert(x, Filter(s, p), key) else Filter(s, p)
  {
    var rest := Insert(x, s[1..], key);
    assert Insert(x, s, key) == [s[0]] + rest;
    var ys := [s[0]] + rest;
    assert ys[0] == s[0] && ys[1..] == rest;
    var head := if p(s[0]) then [s[0]] else [];
    assert Filter(ys, p) == head + Filter(rest, p);
    var f1 := Filter(s[1..], p);
    assert Filter(s, p) == head + f1;
    if p(s[0]) && p(x) {
      var fs := [s[0]] + f1;
      assert fs[0] == s[0] && fs[1..] == f1;
      assert Insert(x, fs, key) == [s[0]] + Insert(x, f1, key);
    } else if p(x) {
      assert head + f1 == f1;
    }
  }

  /** Sorting then filtering (the news grid, the registrations table) gives the
      same list as filtering then sorting (the events endpoint). */
  lemma {:induction false} FilterSortCommute<T>(s: seq<T>, key: T -> int, p: T -> bool)
    ensures Filter(SortDesc(s, key), p) == SortDesc(Filter(s, p), key)
  {
    if s != [] {
      var sorted1 := SortDesc(s[1..], key);
      var f1 := Filter(s[1..], p);
      FilterSortCommute(s[1..], key, p);
      FilterInsert(s[0], sorted1, key, p);
      assert SortDesc(s, key) == Insert(s[0], sorted1, key);
      if p(s[0]) {
        var fs := [s[0]] + f1;
        assert Filter(s, p) == fs;
        assert fs[0] == s[0] && fs[1..] == f1;
        assert SortDesc(fs, key) == Insert(s[0], SortDesc(f1, key), key);
      } else {
        assert Filter(s, p) == f1;
      }
    }
  }
}
