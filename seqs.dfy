/**
 * The list operations the read-only routes are built from: `filter`, a
 * left-to-right `reduce` that adds up one number per element, and a stable
 * `sort` by a numeric key (ascending; a descending comparator `b - a` is an
 * ascending sort by the negated key).
 */
module Seqs {

  /** `s.filter(keep)`: the elements that pass, in their order. */
  function Filter<T(!new)>(s: seq<T>, keep: T -> bool): (r: seq<T>)
    ensures |r| <= |s|
    ensures forall i :: 0 <= i < |r| ==> keep(r[i])
  {
    if s == [] then []
    else
      var init, last := s[..|s| - 1], s[|s| - 1];
      assert s == init + [last];
      Filter(init, keep) + (if keep(last) then [last] else [])
  }

  /** Filtering keeps every passing element as often as it occurs, and no other. */
  lemma {:induction false} FilterCounts<T(!new)>(s: seq<T>, keep: T -> bool)
    ensures forall x :: multiset(Filter(s, keep))[x] == if keep(x) then multiset(s)[x] else 0
    decreases |s|
  {
    if s != [] {
      var init, last := s[..|s| - 1], s[|s| - 1];
      assert s == init + [last];
      FilterCounts(init, keep);
      assert multiset(s) == multiset(init) + multiset{last};
    }
  }

  /** Filtering a concatenation filters each part, in order. */
  lemma {:induction false} FilterAppend<T(!new)>(a: seq<T>, b: seq<T>, keep: T -> bool)
    ensures Filter(a + b, keep) == Filter(a, keep) + Filter(b, keep)
    decreases |b|
  {
    if b == [] {
      assert a + b == a;
    } else {
      var init, last := b[..|b| - 1], b[|b| - 1];
      assert b == init + [last];
      assert a + b == (a + init) + [last];
      var fa, fi, tail := Filter(a, keep), Filter(init, keep), if keep(last) then [last] else [];
      FilterSnoc(a + init, last, keep);
      FilterSnoc(init, last, keep);
      FilterAppend(a, init, keep);
      assert Filter(a + b, keep) == (fa + fi) + tail;
      assert Filter(b, keep) == fi + tail;
      assert (fa + fi) + tail == fa + (fi + tail);
    }
  }

  lemma FilterSnoc<T(!new)>(s: seq<T>, x: T, keep: T -> bool)
    ensures Filter(s + [x], keep) == Filter(s, keep) + (if keep(x) then [x] else [])
  {
    assert (s + [x])[..|s|] == s;
  }

  /** A one-element list keeps its element exactly when it passes. */
  lemma FilterSingle<T(!new)>(x: T, keep: T -> bool)
    ensures Filter([x], keep) == if keep(x) then [x] else []
  {
    assert [x][..0] == [];
  }

  /** `s.reduce((acc, x) => acc + f(x), 0)` */
  function Sum<T>(s: seq<T>, f: T -> int): int
  {
    if s == [] then 0 else Sum(s[..|s| - 1], f) + f(s[|s| - 1])
  }

  lemma {:induction false} SumConcat<T>(a: seq<T>, b: seq<T>, f: T -> int)
    ensures Sum(a + b, f) == Sum(a, f) + Sum(b, f)
    decreases |b|
  {
    if b != [] {
      var init := b[..|b| - 1];
      assert (a + b)[..|a + b| - 1] == a + init;
      SumConcat(a, init, f);
    } else {
      assert a + b == a;
    }
  }

  /** The sum does not depend on the order of the elements. */
  lemma {:induction false} SumPermutation<T>(a: seq<T>, b: seq<T>, f: T -> int)
    requires multiset(a) == multiset(b)
    ensures Sum(a, f) == Sum(b, f)
    decreases |a|
  {
    if a == [] {
      assert |multiset(b)| == 0;
    } else {
      var init, x := a[..|a| - 1], a[|a| - 1];
      assert a == init + [x];
      assert x in multiset(b);
      var i :| 0 <= i < |b| && b[i] == x;
      var rest := b[..i] + b[i + 1..];
      assert b == b[..i] + [x] + b[i + 1..];
      assert multiset(a) == multiset(init) + multiset([x]);
      assert multiset(b) == multiset(b[..i]) + multiset([x]) + multiset(b[i + 1..]);
      assert multiset(rest) + multiset([x]) == multiset(init) + multiset([x]);
      assert multiset(rest) == multiset(init) by {
        forall y ensures multiset(rest)[y] == multiset(init)[y] {
          assert (multiset(rest) + multiset([x]))[y] == (multiset(init) + multiset([x]))[y];
        }
      }
      SumPermutation(init, rest, f);
      SumConcat(b[..i] + [x], b[i + 1..], f);
      SumConcat(b[..i], [x], f);
      SumConcat(b[..i], b[i + 1..], f);
      assert Sum([x], f) == f(x) by { assert [x][..0] == []; }
    }
  }

  predicate SortedBy<T>(s: seq<T>, key: T -> int)
  {
    forall i, j :: 0 <= i < j < |s| ==> key(s[i]) <= key(s[j])
  }

  lemma SortedAppend<T>(s: seq<T>, x: T, key: T -> int)
    requires SortedBy(s, key)
    requires forall i :: 0 <= i < |s| ==> key(s[i]) <= key(x)
    ensures SortedBy(s + [x], key)
  {
    var r := s + [x];
    forall i, j | 0 <= i < j < |r| ensures key(r[i]) <= key(r[j]) {
      if j < |s| { assert r[i] == s[i] && r[j] == s[j]; }
    }
  }

  /**
   * Inserts `x` into a sorted list after every element whose key is not
   * greater than its own, so equal keys keep their arrival order.
   */
  function Insert<T>(s: seq<T>, x: T, key: T -> int): (r: seq<T>)
    requires SortedBy(s, key)
    ensures SortedBy(r, key)
    ensures multiset(r) == multiset(s) + multiset{x}
  {
    if s == [] || key(s[|s| - 1]) <= key(x) then
      assert forall i :: 0 <= i < |s| ==> key(s[i]) <= key(x) by {
        forall i | 0 <= i < |s| ensures key(s[i]) <= key(x) {
          if i < |s| - 1 { assert key(s[i]) <= key(s[|s| - 1]); }
        }
      }
      SortedAppend(s, x, key);
      s + [x]
    else
      var init, last := s[..|s| - 1], s[|s| - 1];
      assert s == init + [last];
      var rest := Insert(init, x, key);
      assert forall i :: 0 <= i < |rest| ==> key(rest[i]) <= key(last) by {
        forall i | 0 <= i < |rest| ensures key(rest[i]) <= key(last) {
          assert rest[i] in multiset(rest);
          if rest[i] != x {
            var j :| 0 <= j < |init| && init[j] == rest[i];
            assert s[j] == init[j];
          }
        }
      }
      SortedAppend(rest, last, key);
      rest + [last]
  }

  /** A stable insertion sort by ascending key. */
  function SortBy<T>(s: seq<T>, key: T -> int): (r: seq<T>)
    ensures SortedBy(r, key)
    ensures multiset(r) == multiset(s)
    ensures |r| == |s|
  {
    if s == [] then []
    else
      var init, last := s[..|s| - 1], s[|s| - 1];
      assert s == init + [last];
      var r := Insert(SortBy(init, key), last, key);
      assert |r| == |multiset(r)|;
      r
  }
}
