/**
 * Selection and ordering as the backend does it: Python slices `s[:n]`, list
 * filtering, `sorted(..., key=..., reverse=True)` (a stable sort, so equal keys keep
 * their order) and `max(..., key=...)` (the first maximal item wins).
 */
module Ranking {
  import opened Wrappers

  function Min(a: int, b: int): int { if a <= b then a else b }
  function Max(a: int, b: int): int { if a >= b then a else b }
  function Abs(x: real): real { if x < 0.0 then -x else x }

  /** Python's `s[:n]`; a negative `n` drops `-n` items from the end. */
  function SliceTo<T>(s: seq<T>, n: int): (r: seq<T>)
    ensures |r| == if n >= 0 then Min(n, |s|) else Max(0, |s| + n)
    ensures r == s[..|r|]
  {
    if n >= 0 then (if n <= |s| then s[..n] else s)
    else if |s| + n >= 0 then s[..|s| + n] else []
  }

  /** SQL `LIMIT n`: the first n rows; a negative limit means no limit. */
  function SqlLimit<T>(s: seq<T>, n: int): (r: seq<T>)
    ensures n >= 0 ==> |r| == Min(n, |s|)
    ensures n < 0 ==> r == s
    ensures r == s[..|r|]
  {
    if n < 0 || n >= |s| then s else s[..n]
  }

  /** `[x for x in s if p(x)]`. */
  function Filter<T>(s: seq<T>, p: T -> bool): (r: seq<T>)
    ensures |r| <= |s|
    ensures forall i :: 0 <= i < |r| ==> r[i] in s && p(r[i])
    ensures forall i :: 0 <= i < |s| && p(s[i]) ==> s[i] in r
  {
    if s == [] then []
    else
      var rest := Filter(s[1..], p);
      assert forall i :: 1 <= i < |s| ==> s[i] == s[1..][i - 1];
      if p(s[0]) then [s[0]] + rest else rest
  }

  /** A filter every item passes keeps the sequence as it is. */
  lemma {:induction false} FilterAll<T>(s: seq<T>, p: T -> bool)
    requires forall i :: 0 <= i < |s| ==> p(s[i])
    ensures Filter(s, p) == s
  {
    if s != [] {
      FilterAll(s[1..], p);
      assert s == [s[0]] + s[1..];
    }
  }

  /** Two filters one after the other are one filter on the conjunction. */
  lemma {:induction false} FilterFilter<T>(s: seq<T>, p: T -> bool, q: T -> bool, both: T -> bool)
    requires forall x :: both(x) == (p(x) && q(x))
    ensures Filter(Filter(s, p), q) == Filter(s, both)
  {
    if s != [] {
      FilterFilter(s[1..], p, q, both);
      if p(s[0]) {
        assert Filter(s, p) == [s[0]] + Filter(s[1..], p);
        assert (Filter(s, p))[1..] == Filter(s[1..], p);
      }
    }
  }

  /** How many items of `s` pass `p`. */
  function CountIf<T>(s: seq<T>, p: T -> bool): nat {
    if s == [] then 0 else (if p(s[0]) then 1 else 0) + CountIf(s[1..], p)
  }

  /**
   * The item at position `k` that passes `p` is item number `CountIf(s[..k], p)` of
   * the filtered list: the filter keeps exactly the passing items, in their order.
   */
  lemma {:induction false} FilterAt<T>(s: seq<T>, p: T -> bool, k: nat)
    requires k < |s| && p(s[k])
    ensures |Filter(s, p)| == CountIf(s, p)
    ensures CountIf(s[..k], p) < |Filter(s, p)|
    ensures Filter(s, p)[CountIf(s[..k], p)] == s[k]
  {
    if k == 0 {
      FilterCount(s, p);
    } else {
      FilterAt(s[1..], p, k - 1);
      assert s[..k][1..] == s[1..][..k - 1];
    }
  }

  lemma {:induction false} FilterCount<T>(s: seq<T>, p: T -> bool)
    ensures |Filter(s, p)| == CountIf(s, p)
  {
    if s != [] {
      FilterCount(s[1..], p);
    }
  }

  /** `FilterAt` for every passing position at once. */
  lemma FilterIndexed<T>(s: seq<T>, p: T -> bool)
    ensures |Filter(s, p)| == CountIf(s, p)
    ensures forall k :: 0 <= k < |s| && p(s[k]) ==>
      CountIf(s[..k], p) < |Filter(s, p)| && Filter(s, p)[CountIf(s[..k], p)] == s[k]
  {
    FilterCount(s, p);
    forall k | 0 <= k < |s| && p(s[k])
      ensures CountIf(s[..k], p) < |Filter(s, p)| && Filter(s, p)[CountIf(s[..k], p)] == s[k]
    {
      FilterAt(s, p, k);
    }
  }

  /** `[x for x in s if x is not None]`: the present values, in order. */
  function Somes<T>(s: seq<Option<T>>): (r: seq<T>)
    ensures |r| <= |s|
  {
    if s == [] then [] else (if s[0].Some? then [s[0].value] else []) + Somes(s[1..])
  }

  /** Appending one more item appends its value when it is present. */
  lemma {:induction false} SomesSnoc<T>(s: seq<Option<T>>, x: Option<T>)
    ensures Somes(s + [x]) == Somes(s) + (if x.Some? then [x.value] else [])
  {
    if s != [] {
      assert (s + [x])[1..] == s[1..] + [x];
      SomesSnoc(s[1..], x);
    } else {
      assert [x][1..] == [];
    }
  }

  /** `sub` is `s` with some items left out, the rest in their order. */
  ghost predicate Subsequence<T>(sub: seq<T>, s: seq<T>)
    decreases |s|
  {
    if sub == [] then true
    else if s == [] then false
    else if sub[0] == s[0] then Subsequence(sub[1..], s[1..])
    else Subsequence(sub, s[1..])
  }

  /** Filtering keeps the order of the items it keeps. */
  lemma {:induction false} FilterSubsequence<T>(s: seq<T>, p: T -> bool)
    ensures Subsequence(Filter(s, p), s)
  {
    if s != [] {
      FilterSubsequence(s[1..], p);
      if p(s[0]) {
        assert ([s[0]] + Filter(s[1..], p))[1..] == Filter(s[1..], p);
      }
    }
  }

  ghost predicate SortedDesc<T>(s: seq<T>, key: T -> real) {
    forall i, j :: 0 <= i < j < |s| ==> key(s[i]) >= key(s[j])
  }

  /** Places `x` in front of the first item whose key does not exceed `x`'s key. */
  function Insert<T>(x: T, s: seq<T>, key: T -> real): (r: seq<T>)
    ensures |r| == |s| + 1
    ensures multiset(r) == multiset(s) + multiset{x}
    ensures forall i :: 0 <= i < |r| ==> r[i] == x || r[i] in s
  {
    if s == [] then [x]
    else if key(s[0]) <= key(x) then [x] + s
    else
      assert s == [s[0]] + s[1..];
      [s[0]] + Insert(x, s[1..], key)
  }

  lemma {:induction false} InsertSorted<T>(x: T, s: seq<T>, key: T -> real)
    requires SortedDesc(s, key)
    ensures SortedDesc(Insert(x, s, key), key)
  {
    if s != [] && key(s[0]) > key(x) {
      InsertSorted(x, s[1..], key);
      var r := Insert(x, s, key);
      assert r[1..] == Insert(x, s[1..], key);
      forall j | 1 <= j < |r|
        ensures key(r[0]) >= key(r[j])
      {
        if r[j] != x {
          var i :| 0 <= i < |s[1..]| && s[1..][i] == r[j];
          assert s[i + 1] == r[j];
        }
      }
    }
  }

  /** `sorted(s, key=key, reverse=True)`. */
  function SortDesc<T>(s: seq<T>, key: T -> real): (r: seq<T>)
    ensures |r| == |s|
    ensures multiset(r) == multiset(s)
    ensures SortedDesc(r, key)
  {
    if s == [] then []
    else
      assert s == [s[0]] + s[1..];
      InsertSorted(s[0], SortDesc(s[1..], key), key);
      Insert(s[0], SortDesc(s[1..], key), key)
  }

  /**
   * The first `m` items of the descending sort (`ORDER BY key DESC LIMIT m`, or
   * `sorted(...)[:m]`): they are sorted, each comes from `s`, and none left out has
   * a greater key than one kept.
   */
  lemma SortedPrefix<T>(s: seq<T>, key: T -> real, m: nat)
    requires m <= |s|
    ensures var top := SortDesc(s, key)[..m];
      && SortedDesc(top, key)
      && (forall i :: 0 <= i < m ==> top[i] in s)
      && (forall x :: x in s && x !in top ==> forall i :: 0 <= i < m ==> key(x) <= key(top[i]))
  {
    var sorted := SortDesc(s, key);
    PermutedPrefix(s, sorted, key, m);
  }

  /** `SortedPrefix` for any sorted permutation `sorted` of `s`. */
  lemma PermutedPrefix<T>(s: seq<T>, sorted: seq<T>, key: T -> real, m: nat)
    requires m <= |sorted| && multiset(sorted) == multiset(s) && SortedDesc(sorted, key)
    ensures SortedDesc(sorted[..m], key)
    ensures forall i :: 0 <= i < m ==> sorted[i] in s
    ensures forall x :: x in s && x !in sorted[..m] ==> forall i :: 0 <= i < m ==> key(x) <= key(sorted[i])
  {
    forall i | 0 <= i < m
      ensures sorted[i] in s
    {
      assert sorted[i] in multiset(sorted);
    }
    forall x | x in s && x !in sorted[..m]
      ensures forall i :: 0 <= i < m ==> key(x) <= key(sorted[i])
    {
      assert x in multiset(sorted);
      assert forall i :: 0 <= i < m ==> sorted[..m][i] == sorted[i];
      var j :| 0 <= j < |sorted| && sorted[j] == x;
    }
  }

  /** The items whose key equals `k`, in order. */
  function WithKey<T>(s: seq<T>, key: T -> real, k: real): seq<T> {
    if s == [] then []
    else if key(s[0]) == k then [s[0]] + WithKey(s[1..], key, k)
    else WithKey(s[1..], key, k)
  }

  lemma {:induction false} InsertWithKey<T>(x: T, s: seq<T>, key: T -> real, k: real)
    ensures WithKey(Insert(x, s, key), key, k)
         == if key(x) == k then [x] + WithKey(s, key, k) else WithKey(s, key, k)
  {
    if s != [] && key(s[0]) > key(x) {
      InsertWithKey(x, s[1..], key, k);
      var r := Insert(x, s, key);
      assert r[1..] == Insert(x, s[1..], key);
    } else {
      var r := Insert(x, s, key);
      assert r[1..] == s;
    }
  }

  /** The sort is stable: items with equal keys keep their relative order. */
  lemma {:induction false} SortDescStable<T>(s: seq<T>, key: T -> real, k: real)
    ensures WithKey(SortDesc(s, key), key, k) == WithKey(s, key, k)
  {
    if s != [] {
      SortDescStable(s[1..], key, k);
      InsertWithKey(s[0], SortDesc(s[1..], key), key, k);
    }
  }

  /** `max(range(len(s)), key=...)`: the index of the first item with the largest key. */
  function ArgMax<T>(s: seq<T>, key: T -> real): (r: nat)
    requires |s| > 0
    ensures r < |s|
    ensures forall j :: 0 <= j < |s| ==> key(s[j]) <= key(s[r])
    ensures forall j :: 0 <= j < r ==> key(s[j]) < key(s[r])
  {
    if |s| == 1 then 0
    else
      var m := ArgMax(s[1..], key) + 1;
      assert forall j :: 1 <= j < |s| ==> s[j] == s[1..][j - 1];
      if key(s[0]) >= key(s[m]) then 0 else m
  }

  /** `le` compares every pair and is transitive, as an SQL `ORDER BY` compares rows. */
  ghost predicate TotalPreorder<T(!new)>(le: (T, T) -> bool) {
    && (forall a, b :: le(a, b) || le(b, a))
    && (forall a, b, c :: le(a, b) && le(b, c) ==> le(a, c))
  }

  ghost predicate SortedBy<T>(s: seq<T>, le: (T, T) -> bool) {
    forall i, j :: 0 <= i < j < |s| ==> le(s[i], s[j])
  }

  /** Places `x` in front of the first item it may precede. */
  function InsertBy<T>(x: T, s: seq<T>, le: (T, T) -> bool): (r: seq<T>)
    ensures |r| == |s| + 1
    ensures multiset(r) == multiset(s) + multiset{x}
    ensures forall i :: 0 <= i < |r| ==> r[i] == x || r[i] in s
  {
    if s == [] then [x]
    else if le(x, s[0]) then [x] + s
    else
      assert s == [s[0]] + s[1..];
      [s[0]] + InsertBy(x, s[1..], le)
  }

  lemma {:induction false} InsertBySorted<T(!new)>(x: T, s: seq<T>, le: (T, T) -> bool)
    requires TotalPreorder(le) && SortedBy(s, le)
    ensures SortedBy(InsertBy(x, s, le), le)
  {
    var r := InsertBy(x, s, le);
    if s != [] && le(x, s[0]) {
      forall i, j | 0 <= i < j < |r|
        ensures le(r[i], r[j])
      {
        if i == 0 && j > 1 {
          assert le(s[0], s[j - 1]);
        }
      }
    } else if s != [] {
      InsertBySorted(x, s[1..], le);
      assert r[1..] == InsertBy(x, s[1..], le);
      forall j | 1 <= j < |r|
        ensures le(r[0], r[j])
      {
        if r[j] != x {
          var i :| 0 <= i < |s[1..]| && s[1..][i] == r[j];
          assert s[i + 1] == r[j];
        }
      }
    }
  }

  /** `ORDER BY` with the comparison `le`, as an insertion sort; equal rows keep their order. */
  function SortBy<T>(s: seq<T>, le: (T, T) -> bool): (r: seq<T>)
    ensures |r| == |s|
    ensures multiset(r) == multiset(s)
  {
    if s == [] then []
    else
      assert s == [s[0]] + s[1..];
      InsertBy(s[0], SortBy(s[1..], le), le)
  }

  /** Under a total preorder, the sort leaves every pair in order. */
  lemma {:induction false} SortBySorted<T(!new)>(s: seq<T>, le: (T, T) -> bool)
    requires TotalPreorder(le)
    ensures SortedBy(SortBy(s, le), le)
  {
    if s != [] {
      SortBySorted(s[1..], le);
      InsertBySorted(s[0], SortBy(s[1..], le), le);
    }
  }
}
