/** Order-preserving filtering and removal by index: the two ways the
    handlers rewrite the arrays embedded in post and profile documents. */
module Seqs {

  /** The elements of `s` that satisfy `keep`, in their original order.
      Defined from the back, the way a `reduce` that pushes every kept
      element onto an accumulator builds its result. */
  function Filter<T(==)>(s: seq<T>, keep: T -> bool): (r: seq<T>)
    ensures |r| <= |s|
    ensures forall i :: 0 <= i < |r| ==> r[i] in s && keep(r[i])
    ensures forall i :: 0 <= i < |s| && keep(s[i]) ==> s[i] in r
    decreases |s|
  {
    if s == [] then []
    else
      var init := s[..|s| - 1];
      var last := s[|s| - 1];
      assert s == init + [last];
      Filter(init, keep) + (if keep(last) then [last] else [])
  }

  /** `a` can be obtained from `b` by deleting elements: what it means
      for a list to keep the order of the one it came from. */
  ghost predicate IsSubsequence<T>(a: seq<T>, b: seq<T>)
    decreases |b|
  {
    if a == [] then true
    else if b == [] then false
    else
      (a[|a| - 1] == b[|b| - 1] && IsSubsequence(a[..|a| - 1], b[..|b| - 1]))
      || IsSubsequence(a, b[..|b| - 1])
  }

  /** The position of the first element that satisfies `p`, or -1 when
      none does: `findIndex`, and `indexOf` for an equality test. */
  function FirstIndex<T>(s: seq<T>, p: T -> bool): (i: int)
    ensures -1 <= i < |s|
    ensures i >= 0 ==> p(s[i])
    ensures forall k :: 0 <= k < |s| && (i < 0 || k < i) ==> !p(s[k])
  {
    if s == [] then -1
    else if p(s[0]) then 0
    else
      var j := FirstIndex(s[1..], p);
      if j < 0 then -1 else j + 1
  }

  /** No element occurs twice. */
  predicate NoDuplicates<T(==)>(s: seq<T>)
  {
    forall i, j :: 0 <= i < j < |s| ==> s[i] != s[j]
  }

  lemma {:induction false} FilterIsSubsequence<T>(s: seq<T>, keep: T -> bool)
    ensures IsSubsequence(Filter(s, keep), s)
    decreases |s|
  {
    if s != [] {
      var init := s[..|s| - 1];
      var last := s[|s| - 1];
      FilterIsSubsequence(init, keep);
      var f := Filter(init, keep);
      if keep(last) {
        var r := f + [last];
        assert Filter(s, keep) == r;
        assert r[..|r| - 1] == f;
      } else {
        assert Filter(s, keep) == f;
      }
    }
  }

  lemma {:induction false} FilterAppend<T>(a: seq<T>, b: seq<T>, keep: T -> bool)
    ensures Filter(a + b, keep) == Filter(a, keep) + Filter(b, keep)
    decreases |b|
  {
    if b == [] {
      assert a + b == a;
    } else {
      var init := b[..|b| - 1];
      FilterAppend(a, init, keep);
      assert (a + b)[..|a + b| - 1] == a + init;
      assert (a + b)[|a + b| - 1] == b[|b| - 1];
    }
  }

  lemma {:induction false} FilterKeepsAll<T>(s: seq<T>, keep: T -> bool)
    requires forall i :: 0 <= i < |s| ==> keep(s[i])
    ensures Filter(s, keep) == s
    decreases |s|
  {
    if s != [] {
      var init := s[..|s| - 1];
      assert s == init + [s[|s| - 1]];
      FilterKeepsAll(init, keep);
    }
  }

  /** Filtering a second time with the same test changes nothing. */
  lemma FilterIdempotent<T>(s: seq<T>, keep: T -> bool)
    ensures Filter(Filter(s, keep), keep) == Filter(s, keep)
  {
    FilterKeepsAll(Filter(s, keep), keep);
  }

  lemma {:induction false} FilterNoDuplicates<T>(s: seq<T>, keep: T -> bool)
    requires NoDuplicates(s)
    ensures NoDuplicates(Filter(s, keep))
    decreases |s|
  {
    if s != [] {
      var init := s[..|s| - 1];
      var last := s[|s| - 1];
      assert NoDuplicates(init) by {
        forall i, j | 0 <= i < j < |init| ensures init[i] != init[j] {
          assert init[i] == s[i] && init[j] == s[j];
        }
      }
      FilterNoDuplicates(init, keep);
      var f := Filter(init, keep);
      if keep(last) {
        assert last !in init by {
          forall i | 0 <= i < |init| ensures init[i] != last {
            assert init[i] == s[i];
          }
        }
        var r := f + [last];
        forall i, j | 0 <= i < j < |r| ensures r[i] != r[j] {
          if j == |f| {
            assert r[i] == f[i] && f[i] in f;
          } else {
            assert r[i] == f[i] && r[j] == f[j];
          }
        }
      }
    }
  }

  /** A list without duplicates that holds one value only has at most one
      element. */
  lemma SingleValueNoDuplicates<T>(s: seq<T>, x: T)
    requires NoDuplicates(s)
    requires forall i :: 0 <= i < |s| ==> s[i] == x
    ensures |s| <= 1
  {
    if |s| > 1 {
      FirstTwoDiffer(s);
      assert false;
    }
  }

  lemma FirstTwoDiffer<T>(s: seq<T>)
    requires NoDuplicates(s) && |s| > 1
    ensures s[0] != s[1]
  {
  }

  /** A test and its negation split a list in two. */
  lemma {:induction false} FilterComplementLength<T>(s: seq<T>, keep: T -> bool, drop: T -> bool)
    requires forall x :: drop(x) == !keep(x)
    ensures |Filter(s, keep)| + |Filter(s, drop)| == |s|
    decreases |s|
  {
    if s != [] {
      FilterComplementLength(s[..|s| - 1], keep, drop);
    }
  }

  /** A list without its element at `i`: `splice(i, 1)` for an index in
      range. */
  function RemoveAt<T>(s: seq<T>, i: nat): (r: seq<T>)
    requires i < |s|
    ensures |r| == |s| - 1
    ensures forall k :: 0 <= k < i ==> r[k] == s[k]
    ensures forall k :: i <= k < |r| ==> r[k] == s[k + 1]
    ensures multiset(r) + multiset{s[i]} == multiset(s)
  {
    assert s == s[..i] + [s[i]] + s[i + 1..];
    s[..i] + s[i + 1..]
  }
}
