/**
 * Sequence operations the storefront takes from JavaScript arrays: `filter`
 * (Keep), a `reduce` that adds up a per-element amount (SumOf) and the stable
 * `sort` with a numeric comparator (SortByRank: ascending by an integer rank,
 * equal ranks in their original order).
 */
module Sequences {

  /** The elements of `s` that satisfy `keep`, in their original order. */
  function Keep<T>(s: seq<T>, keep: T -> bool): (r: seq<T>)
    ensures |r| <= |s|
    ensures forall i :: 0 <= i < |r| ==> r[i] in s && keep(r[i])
    ensures forall i :: 0 <= i < |s| && keep(s[i]) ==> s[i] in r
  {
    if s == [] then [] else (if keep(s[0]) then [s[0]] else []) + Keep(s[1..], keep)
  }

  /** `r` can be obtained from `s` by deleting elements. */
  predicate IsSubsequence<T(==)>(r: seq<T>, s: seq<T>)
    decreases |s|
  {
    if r == [] then true
    else if s == [] then false
    else (r[0] == s[0] && IsSubsequence(r[1..], s[1..])) || IsSubsequence(r, s[1..])
  }

  lemma {:induction false} KeepIsSubsequence<T>(s: seq<T>, keep: T -> bool)
    ensures IsSubsequence(Keep(s, keep), s)
  {
    if s != [] {
      KeepIsSubsequence(s[1..], keep);
      var rest := Keep(s[1..], keep);
      if keep(s[0]) {
        assert Keep(s, keep) == [s[0]] + rest;
        assert ([s[0]] + rest)[1..] == rest;
      } else {
        assert Keep(s, keep) == rest;
      }
    }
  }

  lemma {:induction false} SubsequenceReflexive<T>(s: seq<T>)
    ensures IsSubsequence(s, s)
  {
    if s != [] {
      SubsequenceReflexive(s[1..]);
    }
  }

  lemma {:induction false} SubsequenceTransitive<T>(a: seq<T>, b: seq<T>, c: seq<T>)
    requires IsSubsequence(a, b) && IsSubsequence(b, c)
    ensures IsSubsequence(a, c)
    decreases |c|
  {
    if a == [] {
    } else if b == [] {
      assert false;
    } else if c == [] {
      assert false;
    } else if IsSubsequence(b, c[1..]) {
      SubsequenceTransitive(a, b, c[1..]);
    } else {
      assert b[0] == c[0] && IsSubsequence(b[1..], c[1..]);
      if a[0] == b[0] && IsSubsequence(a[1..], b[1..]) {
        SubsequenceTransitive(a[1..], b[1..], c[1..]);
      } else {
        SubsequenceTransitive(a, b[1..], c[1..]);
      }
    }
  }

  /** Keeping with a predicate every element satisfies changes nothing. */
  lemma {:induction false} KeepAll<T>(s: seq<T>, keep: T -> bool)
    requires forall i :: 0 <= i < |s| ==> keep(s[i])
    ensures Keep(s, keep) == s
  {
    if s != [] {
      KeepAll(s[1..], keep);
      assert [s[0]] + s[1..] == s;
    }
  }

  lemma {:induction false} KeepConcat<T>(a: seq<T>, b: seq<T>, keep: T -> bool)
    ensures Keep(a + b, keep) == Keep(a, keep) + Keep(b, keep)
  {
    if a != [] {
      KeepConcat(a[1..], b, keep);
      assert (a + b)[1..] == a[1..] + b;
    } else {
      assert a + b == b;
    }
  }

  /** An element is kept exactly when it is in `s` and satisfies `keep`. */
  lemma KeepMembers<T>(s: seq<T>, keep: T -> bool, x: T)
    ensures x in Keep(s, keep) <==> x in s && keep(x)
  {
    var r := Keep(s, keep);
    if x in r {
      var i :| 0 <= i < |r| && r[i] == x;
    }
    if x in s && keep(x) {
      var i :| 0 <= i < |s| && s[i] == x;
    }
  }

  /** `filter` keeps every passing occurrence: a passing element appears as often as in `s`, any other not at all. */
  lemma {:induction false} KeepCount<T>(s: seq<T>, keep: T -> bool, x: T)
    ensures multiset(Keep(s, keep))[x] == if keep(x) then multiset(s)[x] else 0
  {
    if s != [] {
      KeepCount(s[1..], keep, x);
      assert s == [s[0]] + s[1..];
    }
  }

  predicate NoDuplicates<T(==)>(s: seq<T>)
  {
    forall i, j :: 0 <= i < j < |s| ==> s[i] != s[j]
  }

  /** Filtering a list without duplicates leaves a list without duplicates. */
  lemma {:induction false} KeepNoDuplicates<T>(s: seq<T>, keep: T -> bool)
    requires NoDuplicates(s)
    ensures NoDuplicates(Keep(s, keep))
  {
    if s != [] {
      KeepNoDuplicates(s[1..], keep);
      var rest := Keep(s[1..], keep);
      assert s[0] !in s[1..];
      assert s[0] !in rest;
    }
  }

  /** Two predicates that agree everywhere keep the same elements. */
  lemma {:induction false} KeepExtensional<T>(s: seq<T>, f: T -> bool, g: T -> bool)
    requires forall x :: f(x) == g(x)
    ensures Keep(s, f) == Keep(s, g)
  {
    if s != [] {
      KeepExtensional(s[1..], f, g);
    }
  }

  /** The left-to-right sum `((0 + f(s[0])) + f(s[1])) + ...`, as `reduce` computes it. */
  function SumOf<T>(s: seq<T>, f: T -> int): int
  {
    if s == [] then 0 else SumOf(s[..|s| - 1], f) + f(s[|s| - 1])
  }

  lemma {:induction false} SumOfConcat<T>(a: seq<T>, b: seq<T>, f: T -> int)
    ensures SumOf(a + b, f) == SumOf(a, f) + SumOf(b, f)
    decreases |b|
  {
    if b == [] {
      assert a + b == a;
    } else {
      var b' := b[..|b| - 1];
      assert (a + b)[..|a + b| - 1] == a + b';
      SumOfConcat(a, b', f);
    }
  }

  lemma {:induction false} SumOfNonNegative<T>(s: seq<T>, f: T -> int)
    requires forall i :: 0 <= i < |s| ==> f(s[i]) >= 0
    ensures SumOf(s, f) >= 0
  {
    if s != [] {
      SumOfNonNegative(s[..|s| - 1], f);
    }
  }

  predicate SortedBy<T>(s: seq<T>, rank: T -> int)
  {
    forall i, j :: 0 <= i < j < |s| ==> rank(s[i]) <= rank(s[j])
  }

  /**
   * Inserts `x` after every element whose rank is not greater than its own:
   * one step of a stable insertion sort, scanning from the right.
   */
  function Insert<T>(s: seq<T>, x: T, rank: T -> int): (r: seq<T>)
    ensures |r| == |s| + 1
    ensures multiset(r) == multiset(s) + multiset{x}
  {
    if s == [] || rank(s[|s| - 1]) <= rank(x) then s + [x]
    else
      assert s == s[..|s| - 1] + [s[|s| - 1]];
      Insert(s[..|s| - 1], x, rank) + [s[|s| - 1]]
  }

  /** Stable sort, ascending by `rank`. */
  function SortByRank<T>(s: seq<T>, rank: T -> int): (r: seq<T>)
    ensures |r| == |s|
    ensures multiset(r) == multiset(s)
  {
    if s == [] then []
    else
      assert s == s[..|s| - 1] + [s[|s| - 1]];
      Insert(SortByRank(s[..|s| - 1], rank), s[|s| - 1], rank)
  }

  lemma {:induction false} InsertSorted<T>(s: seq<T>, x: T, rank: T -> int)
    requires SortedBy(s, rank)
    ensures SortedBy(Insert(s, x, rank), rank)
    decreases |s|
  {
    if s == [] || rank(s[|s| - 1]) <= rank(x) {
    } else {
      var init, last := s[..|s| - 1], s[|s| - 1];
      InsertSorted(init, x, rank);
      var r := Insert(init, x, rank);
      forall y | y in multiset(r)
        ensures rank(y) <= rank(last)
      {
        if y in multiset(init) {
          var k :| 0 <= k < |init| && init[k] == y;
          assert s[k] == y;
        }
      }
      forall i | 0 <= i < |r|
        ensures rank(r[i]) <= rank(last)
      {
        assert r[i] in multiset(r);
      }
    }
  }

  lemma {:induction false} SortByRankSorted<T>(s: seq<T>, rank: T -> int)
    ensures SortedBy(SortByRank(s, rank), rank)
  {
    if s != [] {
      SortByRankSorted(s[..|s| - 1], rank);
      InsertSorted(SortByRank(s[..|s| - 1], rank), s[|s| - 1], rank);
    }
  }

  /** The elements of `s` whose rank is `k`, in their order in `s`. */
  function WithRank<T>(s: seq<T>, rank: T -> int, k: int): seq<T>
  {
    if s == [] then []
    else WithRank(s[..|s| - 1], rank, k) + (if rank(s[|s| - 1]) == k then [s[|s| - 1]] else [])
  }

  lemma SortedInit<T>(s: seq<T>, rank: T -> int)
    requires s != [] && SortedBy(s, rank)
    ensures SortedBy(s[..|s| - 1], rank)
  {
  }

  /** Appending one element extends the group of its rank only. */
  lemma WithRankSnoc<T>(s: seq<T>, x: T, rank: T -> int, k: int)
    ensures WithRank(s + [x], rank, k) == WithRank(s, rank, k) + (if rank(x) == k then [x] else [])
  {
    assert (s + [x])[..|s|] == s;
  }

  lemma {:induction false} InsertWithRank<T>(s: seq<T>, x: T, rank: T -> int, k: int)
    requires SortedBy(s, rank)
    ensures WithRank(Insert(s, x, rank), rank, k)
         == WithRank(s, rank, k) + (if rank(x) == k then [x] else [])
    decreases |s|
  {
    if s == [] || rank(s[|s| - 1]) <= rank(x) {
      WithRankSnoc(s, x, rank, k);
    } else {
      var init, last := s[..|s| - 1], s[|s| - 1];
      assert s == init + [last];
      SortedInit(s, rank);
      InsertWithRank(init, x, rank, k);
      var r := Insert(init, x, rank);
      assert Insert(s, x, rank) == r + [last];
      WithRankSnoc(r, last, rank, k);
      WithRankSnoc(init, last, rank, k);
      // `last` outranks `x`, so at most one of them belongs to group `k`
      assert rank(x) == k ==> rank(last) != k;
    }
  }

  /** Stability: sorting keeps the relative order of every group of equal-rank elements. */
  lemma {:induction false} SortByRankStable<T>(s: seq<T>, rank: T -> int, k: int)
    ensures WithRank(SortByRank(s, rank), rank, k) == WithRank(s, rank, k)
  {
    if s != [] {
      var init, last := s[..|s| - 1], s[|s| - 1];
      SortByRankStable(init, rank, k);
      SortByRankSorted(init, rank);
      InsertWithRank(SortByRank(init, rank), last, rank, k);
    }
  }

  lemma {:induction false} SumOfInsert<T>(s: seq<T>, x: T, rank: T -> int, f: T -> int)
    ensures SumOf(Insert(s, x, rank), f) == SumOf(s, f) + f(x)
    decreases |s|
  {
    if s == [] || rank(s[|s| - 1]) <= rank(x) {
      assert (s + [x])[..|s|] == s;
    } else {
      var init, last := s[..|s| - 1], s[|s| - 1];
      SumOfInsert(init, x, rank, f);
      var r := Insert(init, x, rank);
      assert (r + [last])[..|r|] == r;
    }
  }

  /** Sorting does not change a sum. */
  lemma {:induction false} SumOfSortByRank<T>(s: seq<T>, rank: T -> int, f: T -> int)
    ensures SumOf(SortByRank(s, rank), f) == SumOf(s, f)
  {
    if s != [] {
      SumOfSortByRank(s[..|s| - 1], rank, f);
      SumOfInsert(SortByRank(s[..|s| - 1], rank), s[|s| - 1], rank, f);
    }
  }

  lemma InsertPastLast<T>(init: seq<T>, last: T, x: T, rank: T -> int)
    requires rank(last) > rank(x)
    ensures Insert(init + [last], x, rank) == Insert(init, x, rank) + [last]
  {
    assert (init + [last])[..|init|] == init;
  }

  /** Where `Insert` puts `x`: after `pre`, whose last rank is not greater, and before `post`, whose ranks all are. */
  lemma {:induction false} InsertBetween<T>(pre: seq<T>, x: T, post: seq<T>, rank: T -> int)
    requires pre == [] || rank(pre[|pre| - 1]) <= rank(x)
    requires forall k :: 0 <= k < |post| ==> rank(post[k]) > rank(x)
    ensures Insert(pre + post, x, rank) == pre + [x] + post
    decreases |post|
  {
    if post == [] {
      assert pre + post == pre;
    } else {
      var post', last := post[..|post| - 1], post[|post| - 1];
      assert forall k :: 0 <= k < |post'| ==> post'[k] == post[k];
      InsertBetween(pre, x, post', rank);
      ConcatSnoc(pre, post);
      InsertPastLast(pre + post', last, x, rank);
      ConcatSnoc(pre + [x], post);
    }
  }

  /** `a + b` with `b` non-empty is `a` plus all of `b` but its last, then that last. */
  lemma ConcatSnoc<T>(a: seq<T>, b: seq<T>)
    requires b != []
    ensures a + b == (a + b[..|b| - 1]) + [b[|b| - 1]]
  {
  }

  lemma SwapShape<T>(init: seq<T>, last: T, x: T, post: seq<T>, rest: seq<T>)
    ensures (init + [last] + [x] + post + rest)[|init| := x][|init| + 1 := last]
         == init + [x] + ([last] + post) + rest
  {
  }

  lemma SortByRankSnoc<T>(s: seq<T>, i: nat, rank: T -> int)
    requires i < |s|
    ensures SortByRank(s[..i + 1], rank) == Insert(SortByRank(s[..i], rank), s[i], rank)
  {
    assert s[..i + 1][..i] == s[..i];
  }

  /** The pieces of an array state `sorted prefix + untouched suffix`. */
  lemma Pieces<T>(s: seq<T>, i: nat, rank: T -> int, state: seq<T>)
    requires i < |s| && state == SortByRank(s[..i], rank) + s[i..]
    ensures state[..i] == SortByRank(s[..i], rank)
    ensures state[i] == s[i] && state[i + 1..] == s[i + 1..]
  {
  }

  lemma SplitLast<T>(s: seq<T>)
    requires s != []
    ensures s == s[..|s| - 1] + [s[|s| - 1]]
  {
  }

  /** Moves `a[i]` leftwards into the sorted run `a[..i]`, after every element of rank not greater. */
  method SinkInto<T>(a: array<T>, i: int, rank: T -> int)
    requires 0 <= i < a.Length
    modifies a
    ensures a[..] == Insert(old(a[..i]), old(a[i]), rank) + old(a[i + 1..])
  {
    ghost var sorted, rest := a[..i], a[i + 1..];
    var x := a[i];
    ghost var pre, post := sorted, [];
    assert a[..] == pre + [x] + post + rest;
    var j := i;
    while 0 < j && rank(a[j - 1]) > rank(x)
      invariant 0 <= j <= i && |pre| == j
      invariant a[..] == pre + [x] + post + rest
      invariant pre + post == sorted
      invariant forall k :: 0 <= k < |post| ==> rank(post[k]) > rank(x)
    {
      ghost var init, last := pre[..j - 1], pre[j - 1];
      assert a[j - 1] == last by { assert a[j - 1] == a[..][j - 1]; }
      ghost var cur := a[..];
      a[j - 1], a[j] := a[j], a[j - 1];
      assert a[..] == init + [x] + ([last] + post) + rest by {
        assert a[..] == cur[j - 1 := x][j := last];
        SplitLast(pre);
        SwapShape(init, last, x, post, rest);
      }
      assert init + ([last] + post) == sorted;
      pre, post := init, [last] + post;
      j := j - 1;
    }
    assert j > 0 ==> a[j - 1] == a[..][j - 1] == pre[j - 1];
    InsertBetween(pre, x, post, rank);
  }

  /**
   * The in-place stable sort: an insertion sort that moves each new element
   * leftwards past every element of strictly greater rank.
   */
  method SortInPlace<T>(a: array<T>, rank: T -> int)
    modifies a
    ensures a[..] == SortByRank(old(a[..]), rank)
  {
    ghost var s := a[..];
    var i := 0;
    while i < a.Length
      invariant 0 <= i <= a.Length == |s|
      invariant a[..] == SortByRank(s[..i], rank) + s[i..]
    {
      Pieces(s, i, rank, a[..]);
      SinkInto(a, i, rank);
      SortByRankSnoc(s, i, rank);
      i := i + 1;
    }
    assert s[a.Length..] == [];
    assert s[..a.Length] == s;
  }
}
