/**
 * Generic list operations the time tracker builds its queries from:
 * `findIndex`/`find`, `filter`, a stable sort by a comparator, and the
 * prefix cuts `slice(0, n)` and Prisma's `take`.
 */
module Listing {
  import opened Wrappers

  /** Index of the first element satisfying `p`, or -1 (`Array.prototype.findIndex`). */
  function FindIndex<T>(s: seq<T>, p: T -> bool): (i: int)
    ensures -1 <= i < |s|
    ensures i == -1 <==> forall k :: 0 <= k < |s| ==> !p(s[k])
    ensures 0 <= i ==> p(s[i]) && forall k :: 0 <= k < i ==> !p(s[k])
  {
    if |s| == 0 then -1
    else if p(s[0]) then 0
    else
      var j := FindIndex(s[1..], p);
      assert forall k :: 1 <= k < |s| ==> s[k] == s[1..][k - 1];
      if j == -1 then -1 else j + 1
  }

  /** The first element satisfying `p` (`Array.prototype.find`, `undefined` as `None`). */
  function FindFirst<T>(s: seq<T>, p: T -> bool): (r: Option<T>)
    ensures r.None? <==> forall k :: 0 <= k < |s| ==> !p(s[k])
    ensures r.Some? ==> r.value in s && p(r.value)
    ensures r.Some? ==> exists i :: 0 <= i < |s| && s[i] == r.value && forall k :: 0 <= k < i ==> !p(s[k])
  {
    var i := FindIndex(s, p);
    if i == -1 then None else Some(s[i])
  }

  /** The elements satisfying `p`, in their original order (`Array.prototype.filter`). */
  function Filter<T>(s: seq<T>, p: T -> bool): (r: seq<T>)
    ensures |r| <= |s|
    ensures forall i :: 0 <= i < |r| ==> r[i] in s && p(r[i])
    ensures forall i :: 0 <= i < |s| && p(s[i]) ==> s[i] in r
    ensures multiset(r) <= multiset(s)
  {
    if |s| == 0 then []
    else
      assert s == [s[0]] + s[1..];
      (if p(s[0]) then [s[0]] else []) + Filter(s[1..], p)
  }

  /** Removing the element at `i` (`splice(i, 1)`). */
  function RemoveAt<T>(s: seq<T>, i: nat): (r: seq<T>)
    requires i < |s|
    ensures |r| == |s| - 1
    ensures forall k :: 0 <= k < i ==> r[k] == s[k]
    ensures forall k :: i <= k < |r| ==> r[k] == s[k + 1]
    ensures multiset(r) + multiset{s[i]} == multiset(s)
  {
    assert s == s[..i] + [s[i]] + s[i + 1..];
    s[..i] + s[i + 1..]
  }

  /** Filtering twice is filtering once by the conjunction. */
  lemma {:induction false} FilterCompose<T>(s: seq<T>, p: T -> bool, q: T -> bool, pq: T -> bool)
    requires forall x :: pq(x) == (p(x) && q(x))
    ensures Filter(Filter(s, p), q) == Filter(s, pq)
  {
    if |s| > 0 {
      FilterCompose(s[1..], p, q, pq);
      var head := if p(s[0]) then [s[0]] else [];
      assert Filter(s, p) == head + Filter(s[1..], p);
      FilterAppend(head, Filter(s[1..], p), q);
    }
  }

  /** A filter every element passes changes nothing. */
  lemma {:induction false} FilterKeepsAll<T>(s: seq<T>, p: T -> bool)
    requires forall x :: x in s ==> p(x)
    ensures Filter(s, p) == s
  {
    if |s| > 0 {
      FilterKeepsAll(s[1..], p);
    }
  }

  /** Two predicates that agree on the elements filter alike. */
  lemma {:induction false} FilterAgree<T>(s: seq<T>, p: T -> bool, q: T -> bool)
    requires forall x :: x in s ==> p(x) == q(x)
    ensures Filter(s, p) == Filter(s, q)
  {
    if |s| > 0 {
      FilterAgree(s[1..], p, q);
    }
  }

  /** A weaker predicate keeps at least as many elements. */
  lemma {:induction false} FilterCountMono<T>(s: seq<T>, p: T -> bool, q: T -> bool)
    requires forall x :: x in s && p(x) ==> q(x)
    ensures |Filter(s, p)| <= |Filter(s, q)|
  {
    if |s| > 0 {
      FilterCountMono(s[1..], p, q);
    }
  }

  /** Filtering distributes over concatenation. */
  lemma {:induction false} FilterAppend<T>(a: seq<T>, b: seq<T>, p: T -> bool)
    ensures Filter(a + b, p) == Filter(a, p) + Filter(b, p)
  {
    if |a| == 0 {
      assert a + b == b;
    } else {
      assert (a + b)[1..] == a[1..] + b;
      FilterAppend(a[1..], b, p);
    }
  }

  /** How often `x` survives a filter depends only on how often it is in the input. */
  lemma {:induction false} FilterMultiplicity<T>(s: seq<T>, p: T -> bool, x: T)
    ensures multiset(Filter(s, p))[x] == if p(x) then multiset(s)[x] else 0
  {
    if |s| > 0 {
      FilterMultiplicity(s[1..], p, x);
      assert s == [s[0]] + s[1..];
    }
  }

  /** Filtering two permutations of each other gives two permutations of each other. */
  lemma FilterPermutation<T>(a: seq<T>, b: seq<T>, p: T -> bool)
    requires multiset(a) == multiset(b)
    ensures multiset(Filter(a, p)) == multiset(Filter(b, p))
  {
    forall x ensures multiset(Filter(a, p))[x] == multiset(Filter(b, p))[x] {
      FilterMultiplicity(a, p, x);
      FilterMultiplicity(b, p, x);
    }
  }

  /** `find` looks at the head, then at the rest. */
  lemma FindFirstUnfold<T>(s: seq<T>, p: T -> bool)
    requires |s| > 0
    ensures FindFirst(s, p) == if p(s[0]) then Some(s[0]) else FindFirst(s[1..], p)
  {
    if !p(s[0]) {
      var j := FindIndex(s[1..], p);
      assert FindIndex(s, p) == if j == -1 then -1 else j + 1;
    }
  }

  /** The first match among the elements passing a weaker filter is the first match overall. */
  lemma {:induction false} FindFirstWithin<T>(s: seq<T>, p: T -> bool, q: T -> bool)
    requires forall x :: p(x) ==> q(x)
    ensures FindFirst(Filter(s, q), p) == FindFirst(s, p)
  {
    if |s| > 0 {
      FindFirstWithin(s[1..], p, q);
      FindFirstUnfold(s, p);
      var t := Filter(s, q);
      if q(s[0]) {
        assert t == [s[0]] + Filter(s[1..], q);
        assert t[1..] == Filter(s[1..], q);
        FindFirstUnfold(t, p);
      } else {
        assert t == Filter(s[1..], q);
      }
    }
  }

  // ---------------------------------------------------------------------
  // Keys: distinct primary keys, and a key that is still free.
  // ---------------------------------------------------------------------

  predicate KeysDistinct<T, K(==)>(s: seq<T>, key: T -> K) {
    forall i, j :: 0 <= i < j < |s| ==> key(s[i]) != key(s[j])
  }

  predicate KeyFree<T, K(==)>(s: seq<T>, key: T -> K, k: K) {
    forall i :: 0 <= i < |s| ==> key(s[i]) != k
  }

  lemma KeysDistinctAppend<T, K>(s: seq<T>, key: T -> K, x: T)
    requires KeysDistinct(s, key) && KeyFree(s, key, key(x))
    ensures KeysDistinct(s + [x], key)
  {
  }

  lemma KeysDistinctReplace<T, K>(s: seq<T>, key: T -> K, i: nat, x: T)
    requires KeysDistinct(s, key) && i < |s| && key(x) == key(s[i])
    ensures KeysDistinct(s[i := x], key)
  {
  }

  lemma KeysDistinctRemove<T, K>(s: seq<T>, key: T -> K, i: nat)
    requires KeysDistinct(s, key) && i < |s|
    ensures KeysDistinct(RemoveAt(s, i), key)
  {
    var t := RemoveAt(s, i);
    forall a, b | 0 <= a < b < |t| ensures key(t[a]) != key(t[b]) {
      var a' := if a < i then a else a + 1;
      var b' := if b < i then b else b + 1;
      assert t[a] == s[a'] && t[b] == s[b'];
    }
  }

  // ---------------------------------------------------------------------
  // Sorting. `le(a, b)` means "a may come before b"; JavaScript's comparator
  // `cmp` gives `le(a, b) == (cmp(a, b) <= 0)`. `Array.prototype.sort` is
  // stable, so its result is the one insertion sort below produces.
  // ---------------------------------------------------------------------

  ghost predicate TotalPreorder<T(!new)>(le: (T, T) -> bool) {
    && (forall a, b :: le(a, b) || le(b, a))
    && (forall a, b, c :: le(a, b) && le(b, c) ==> le(a, c))
  }

  predicate SortedBy<T>(s: seq<T>, le: (T, T) -> bool) {
    forall i, j :: 0 <= i < j < |s| ==> le(s[i], s[j])
  }

  /** No two distinct positions hold elements that are equivalent under `le`. */
  predicate TieFree<T>(s: seq<T>, le: (T, T) -> bool) {
    forall i, j :: 0 <= i < |s| && 0 <= j < |s| && i != j ==> !le(s[i], s[j]) || !le(s[j], s[i])
  }

  /** Inserts `x` after every element that may precede it: the step of a stable insertion sort. */
  function Insert<T>(s: seq<T>, x: T, le: (T, T) -> bool): (r: seq<T>)
    ensures |r| == |s| + 1
    ensures multiset(r) == multiset(s) + multiset{x}
  {
    if |s| == 0 then [x]
    else if le(s[0], x) then
      assert s == [s[0]] + s[1..];
      [s[0]] + Insert(s[1..], x, le)
    else [x] + s
  }

  /** Stable sort of `s` by `le`: each element is inserted after its predecessors in `s`. */
  function SortBy<T>(s: seq<T>, le: (T, T) -> bool): (r: seq<T>)
    ensures |r| == |s|
    ensures multiset(r) == multiset(s)
  {
    if |s| == 0 then []
    else
      assert s == s[..|s| - 1] + [s[|s| - 1]];
      Insert(SortBy(s[..|s| - 1], le), s[|s| - 1], le)
  }

  /** Sorting keeps exactly the elements it was given. */
  lemma SortByMembers<T>(s: seq<T>, le: (T, T) -> bool)
    ensures forall x :: x in SortBy(s, le) <==> x in s
  {
    forall x ensures x in SortBy(s, le) <==> x in s {
      assert x in SortBy(s, le) <==> x in multiset(SortBy(s, le));
      assert x in s <==> x in multiset(s);
    }
  }

  /** A sorted filter result holds exactly the elements of `s` passing `p`. */
  lemma SortedFilterMembers<T>(s: seq<T>, p: T -> bool, le: (T, T) -> bool)
    ensures forall x :: x in SortBy(Filter(s, p), le) ==> x in s && p(x)
    ensures forall i :: 0 <= i < |s| && p(s[i]) ==> s[i] in SortBy(Filter(s, p), le)
  {
    var f := Filter(s, p);
    var r := SortBy(f, le);
    forall x | x in r ensures x in s && p(x) {
      assert x in multiset(r);
      assert x in f;
      var i :| 0 <= i < |f| && f[i] == x;
    }
    forall i | 0 <= i < |s| && p(s[i]) ensures s[i] in r {
      assert s[i] in multiset(f);
      assert s[i] in multiset(r);
    }
  }

  lemma {:induction false} InsertSorted<T(!new)>(s: seq<T>, x: T, le: (T, T) -> bool)
    requires TotalPreorder(le)
    requires SortedBy(s, le)
    ensures SortedBy(Insert(s, x, le), le)
  {
    if |s| > 0 && le(s[0], x) {
      InsertSorted(s[1..], x, le);
      var r := Insert(s, x, le);
      var t := Insert(s[1..], x, le);
      assert r == [s[0]] + t;
      forall j | 1 <= j < |r| ensures le(s[0], r[j]) {
        assert r[j] in multiset(t);
        assert r[j] in multiset(s[1..]) + multiset{x};
        if r[j] != x {
          assert r[j] in s[1..];
        }
      }
    }
  }

  /** The sort's result is ordered by `le`. */
  lemma {:induction false} SortBySorted<T(!new)>(s: seq<T>, le: (T, T) -> bool)
    requires TotalPreorder(le)
    ensures SortedBy(SortBy(s, le), le)
  {
    if |s| > 0 {
      SortBySorted(s[..|s| - 1], le);
      InsertSorted(SortBy(s[..|s| - 1], le), s[|s| - 1], le);
    }
  }

  /** Two sorted arrangements of the same tie-free contents start with the same element. */
  lemma SortedHeadsAgree<T>(x: seq<T>, y: seq<T>, le: (T, T) -> bool)
    requires SortedBy(x, le) && SortedBy(y, le)
    requires TieFree(x, le)
    requires multiset(x) == multiset(y)
    requires |x| > 0
    ensures |y| > 0 && x[0] == y[0]
  {
    assert |multiset(x)| == |multiset(y)|;
    assert y[0] in multiset(x);
    var k :| 0 <= k < |x| && x[k] == y[0];
    assert x[0] in multiset(y);
    var m :| 0 <= m < |y| && y[m] == x[0];
    assert k == 0;
  }

  /** Sorting a sequence without ties is determined by its contents alone. */
  lemma {:induction false} SortedUnique<T>(x: seq<T>, y: seq<T>, le: (T, T) -> bool)
    requires SortedBy(x, le) && SortedBy(y, le)
    requires TieFree(x, le)
    requires multiset(x) == multiset(y)
    ensures x == y
  {
    if |x| == 0 {
      assert |multiset(y)| == 0;
    } else {
      SortedHeadsAgree(x, y, le);
      assert x == [x[0]] + x[1..];
      assert y == [y[0]] + y[1..];
      assert multiset(x[1..]) == multiset(x) - multiset{x[0]};
      assert multiset(y[1..]) == multiset(y) - multiset{y[0]};
      SortedUnique(x[1..], y[1..], le);
    }
  }

  lemma {:induction false} InsertTieFree<T>(s: seq<T>, x: T, le: (T, T) -> bool)
    requires TieFree(s, le)
    requires forall y :: y in s ==> !le(x, y) || !le(y, x)
    ensures TieFree(Insert(s, x, le), le)
  {
    if |s| > 0 && le(s[0], x) {
      InsertTieFree(s[1..], x, le);
      var r := Insert(s, x, le);
      var t := Insert(s[1..], x, le);
      assert r == [s[0]] + t;
      forall j | 1 <= j < |r| ensures !le(s[0], r[j]) || !le(r[j], s[0]) {
        assert r[j] in multiset(t);
        assert r[j] in multiset(s[1..]) + multiset{x};
        if r[j] != x {
          var k :| 0 <= k < |s[1..]| && s[1..][k] == r[j];
          assert s[k + 1] == r[j];
        }
      }
    }
  }

  lemma TieFreePrefix<T>(s: seq<T>, n: nat, le: (T, T) -> bool)
    requires TieFree(s, le) && n <= |s|
    ensures TieFree(s[..n], le)
  {
    var pre := s[..n];
    forall i, j | 0 <= i < n && 0 <= j < n && i != j ensures !le(pre[i], pre[j]) || !le(pre[j], pre[i]) {
      assert pre[i] == s[i] && pre[j] == s[j];
    }
  }

  /** In a tie-free sequence, the last element ties with nothing the rest sorts into. */
  lemma LastApartFromRest<T>(s: seq<T>, n: nat, le: (T, T) -> bool)
    requires TieFree(s, le) && n == |s| - 1
    ensures forall y :: y in SortBy(s[..n], le) ==> !le(s[n], y) || !le(y, s[n])
  {
    var pre := s[..n];
    var sorted := SortBy(pre, le);
    forall y | y in sorted ensures !le(s[n], y) || !le(y, s[n]) {
      assert y in multiset(sorted);
      assert y in multiset(pre);
      var k :| 0 <= k < n && pre[k] == y;
      assert s[k] == y && k != n;
    }
  }

  /** Sorting keeps a tie-free sequence tie-free. */
  lemma {:induction false} SortByTieFree<T>(s: seq<T>, le: (T, T) -> bool)
    requires TieFree(s, le)
    ensures TieFree(SortBy(s, le), le)
  {
    if |s| > 0 {
      var n := |s| - 1;
      TieFreePrefix(s, n, le);
      SortByTieFree(s[..n], le);
      LastApartFromRest(s, n, le);
      InsertTieFree(SortBy(s[..n], le), s[n], le);
    }
  }

  /** Filtering keeps a tie-free sequence tie-free. */
  lemma {:induction false} FilterTieFree<T>(s: seq<T>, p: T -> bool, le: (T, T) -> bool)
    requires TieFree(s, le)
    ensures TieFree(Filter(s, p), le)
  {
    if |s| > 0 {
      FilterTieFree(s[1..], p, le);
      var t := Filter(s[1..], p);
      if p(s[0]) {
        var r := Filter(s, p);
        assert r == [s[0]] + t;
        forall j | 1 <= j < |r| ensures !le(s[0], r[j]) || !le(r[j], s[0]) {
          assert r[j] in s[1..];
          var k :| 0 <= k < |s[1..]| && s[1..][k] == r[j];
          assert s[k + 1] == r[j];
        }
      }
    }
  }

  /** Stable sorting by `le` as a loop over the input, inserting one element at a time. */
  method Sort<T>(s: seq<T>, le: (T, T) -> bool) returns (r: seq<T>)
    ensures r == SortBy(s, le)
  {
    r := [];
    for i := 0 to |s|
      invariant r == SortBy(s[..i], le)
    {
      assert s[..i + 1][..i] == s[..i];
      r := Insert(r, s[i], le);
    }
    assert s[..|s|] == s;
  }

  /** Every leading part of a sorted filter result holds only elements of `s` passing `p`, in order. */
  lemma PrefixOfSortedFilter<T(!new)>(s: seq<T>, p: T -> bool, le: (T, T) -> bool, r: seq<T>)
    requires r <= SortBy(Filter(s, p), le)
    ensures forall i :: 0 <= i < |r| ==> r[i] in s && p(r[i])
    ensures TotalPreorder(le) ==> SortedBy(r, le)
  {
    var sorted := SortBy(Filter(s, p), le);
    forall i | 0 <= i < |r| ensures r[i] in s && p(r[i]) {
      assert r[i] == sorted[i];
      assert sorted[i] in multiset(sorted);
      assert r[i] in Filter(s, p);
    }
    if TotalPreorder(le) {
      SortBySorted(Filter(s, p), le);
      forall i, j | 0 <= i < j < |r| ensures le(r[i], r[j]) {
        assert r[i] == sorted[i] && r[j] == sorted[j];
      }
    }
  }

  /**
   * `r` is a leading part of some arrangement of `s` sorted by `le`: what a
   * database `orderBy` with `take` may return when rows tie, since the order
   * among equal keys is left to the database.
   */
  ghost predicate TopBy<T(!new)>(r: seq<T>, s: seq<T>, le: (T, T) -> bool) {
    exists full: seq<T> :: SortedBy(full, le) && multiset(full) == multiset(s) && r <= full
  }

  /** Everything a top-`n` query leaves out comes, in the order, no earlier than what it kept. */
  lemma TopByLeavesLater<T(!new)>(r: seq<T>, s: seq<T>, le: (T, T) -> bool, x: T)
    requires TopBy(r, s, le) && 0 < |r|
    requires x in multiset(s) - multiset(r)
    ensures le(r[|r| - 1], x)
  {
    var full: seq<T> :| SortedBy(full, le) && multiset(full) == multiset(s) && r <= full;
    var tail := full[|r|..];
    assert full == r + tail;
    assert multiset(full) == multiset(r) + multiset(tail);
    assert x in multiset(tail);
    var k :| 0 <= k < |tail| && tail[k] == x;
    assert full[|r| + k] == x && full[|r| - 1] == r[|r| - 1];
  }

  /** A stable sort followed by `take` is one of the answers `TopBy` allows. */
  lemma TakeOfSortIsTop<T(!new)>(s: seq<T>, le: (T, T) -> bool, n: Option<nat>)
    requires TotalPreorder(le)
    ensures TopBy(Take(SortBy(s, le), n), s, le)
  {
    SortBySorted(s, le);
  }

  // ---------------------------------------------------------------------
  // Prefixes.
  // ---------------------------------------------------------------------

  /** `s.slice(0, n)` for an integer `n`: a negative end counts from the back. */
  function SlicePrefix<T>(s: seq<T>, n: int): (r: seq<T>)
    ensures r <= s
    ensures 0 <= n ==> |r| == if n < |s| then n else |s|
    ensures n < 0 ==> |r| == if |s| + n < 0 then 0 else |s| + n
  {
    if 0 <= n then (if n < |s| then s[..n] else s)
    else if |s| + n < 0 then []
    else s[..|s| + n]
  }

  /** Prisma's `take`: at most `n` leading rows, all of them when absent. */
  function Take<T>(s: seq<T>, n: Option<nat>): (r: seq<T>)
    ensures r <= s
    ensures n.None? ==> r == s
    ensures n.Some? ==> |r| == if n.value < |s| then n.value else |s|
  {
    if n.Some? && n.value < |s| then s[..n.value] else s
  }
}
