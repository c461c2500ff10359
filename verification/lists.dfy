/** The list operations the reducers and pages perform on arrays:
    `findIndex` and in-place replacement, `filter`, the stable
    `Array.prototype.sort` by a numeric key, index-based edits, and the
    toggle of an id in an id list. */
module Lists {

  /** `a` is an order-preserving subsequence of `b`. */
  ghost predicate IsSubsequence<T>(a: seq<T>, b: seq<T>)
    decreases |b|
  {
    |a| == 0 || (|b| > 0 && (if a[0] == b[0] then IsSubsequence(a[1..], b[1..])
                             else IsSubsequence(a, b[1..])))
  }

  lemma {:induction false} SubsequenceOfSelf<T>(a: seq<T>)
    ensures IsSubsequence(a, a)
    decreases |a|
  {
    if |a| > 0 {
      SubsequenceOfSelf(a[1..]);
    }
  }

  lemma {:induction false} SubsequenceDropHead<T>(a: seq<T>, b: seq<T>)
    requires |a| > 0 && IsSubsequence(a, b)
    ensures IsSubsequence(a[1..], b)
    decreases |b|, 1
  {
    if a[0] != b[0] {
      SubsequenceDropHead(a, b[1..]);
    }
    SubsequenceWeaken(a[1..], b);
  }

  /** A subsequence of the tail is a subsequence of the whole. */
  lemma {:induction false} SubsequenceWeaken<T>(c: seq<T>, b: seq<T>)
    requires |b| > 0 && IsSubsequence(c, b[1..])
    ensures IsSubsequence(c, b)
    decreases |b|, 0
  {
    if |c| > 0 && c[0] == b[0] {
      SubsequenceDropHead(c, b[1..]);
    }
  }

  lemma SubsequenceSkip<T>(a: seq<T>, b: seq<T>, x: T)
    requires IsSubsequence(a, b)
    ensures IsSubsequence(a, [x] + b)
  {
    assert ([x] + b)[1..] == b;
    SubsequenceWeaken(a, [x] + b);
  }

  /** `xs.findIndex(x => keyOf(x) === key)`: the first position whose key
      matches, or -1. */
  function IndexOfKey<T, K(==)>(xs: seq<T>, keyOf: T -> K, key: K): (k: int)
    ensures -1 <= k < |xs|
    ensures k == -1 <==> forall i :: 0 <= i < |xs| ==> keyOf(xs[i]) != key
    ensures k >= 0 ==> keyOf(xs[k]) == key && forall i :: 0 <= i < k ==> keyOf(xs[i]) != key
  {
    if |xs| == 0 then -1
    else if keyOf(xs[0]) == key then 0
    else
      var k := IndexOfKey(xs[1..], keyOf, key);
      if k == -1 then -1 else k + 1
  }

  /** `i = xs.findIndex(...); if (i !== -1) xs[i] = f(xs[i])`: the first
      element with the key is rewritten, every other position is kept. */
  function UpdateFirstByKey<T, K(==)>(xs: seq<T>, keyOf: T -> K, key: K, f: T -> T): (r: seq<T>)
    ensures |r| == |xs|
    ensures (forall i :: 0 <= i < |xs| ==> keyOf(xs[i]) != key) ==> r == xs
    ensures forall i :: 0 <= i < |xs| ==>
              if i == IndexOfKey(xs, keyOf, key) then r[i] == f(xs[i]) else r[i] == xs[i]
  {
    var k := IndexOfKey(xs, keyOf, key);
    if k == -1 then xs else xs[k := f(xs[k])]
  }

  /** `i = xs.findIndex(...); if (i !== -1) xs[i] = x`: the first element
      with the key is replaced wholesale, every other position is kept. */
  function ReplaceFirstByKey<T, K(==)>(xs: seq<T>, keyOf: T -> K, key: K, x: T): (r: seq<T>)
    ensures |r| == |xs|
    ensures (forall i :: 0 <= i < |xs| ==> keyOf(xs[i]) != key) ==> r == xs
    ensures forall i :: 0 <= i < |xs| ==>
              r[i] == if i == IndexOfKey(xs, keyOf, key) then x else xs[i]
  {
    var k := IndexOfKey(xs, keyOf, key);
    if k == -1 then xs else xs[k := x]
  }

  /** No two entries share a key: the shape the server's lists have, one
      entry per id. */
  predicate UniqueKeys<T, K(==)>(xs: seq<T>, keyOf: T -> K) {
    forall i, j :: 0 <= i < j < |xs| ==> keyOf(xs[i]) != keyOf(xs[j])
  }

  /** Rewriting the first entry with a key by an entry with the same key
      keeps every position's key, so a list with one entry per id keeps
      that shape. */
  lemma UpdateKeepsKeys<T, K>(xs: seq<T>, keyOf: T -> K, key: K, f: T -> T)
    requires forall i :: 0 <= i < |xs| && keyOf(xs[i]) == key ==> keyOf(f(xs[i])) == key
    ensures var r := UpdateFirstByKey(xs, keyOf, key, f);
            && (forall i :: 0 <= i < |xs| ==> keyOf(r[i]) == keyOf(xs[i]))
            && (UniqueKeys(xs, keyOf) ==> UniqueKeys(r, keyOf))
  {
    var r := UpdateFirstByKey(xs, keyOf, key, f);
    assert forall i :: 0 <= i < |xs| ==> keyOf(r[i]) == keyOf(xs[i]);
  }

  /** Replacing the first entry with a key by an entry carrying that key
      keeps every position's key, and with it one entry per id. */
  lemma ReplaceKeepsKeys<T, K>(xs: seq<T>, keyOf: T -> K, key: K, x: T)
    requires keyOf(x) == key
    ensures var r := ReplaceFirstByKey(xs, keyOf, key, x);
            && (forall i :: 0 <= i < |xs| ==> keyOf(r[i]) == keyOf(xs[i]))
            && (UniqueKeys(xs, keyOf) ==> UniqueKeys(r, keyOf))
  {
    var r := ReplaceFirstByKey(xs, keyOf, key, x);
    assert forall i :: 0 <= i < |xs| ==> keyOf(r[i]) == keyOf(xs[i]);
  }

  /** Putting an entry in front (or at the back) keeps one entry per id
      exactly when its key is not in the list yet. */
  lemma AddKeepsUniqueKeys<T, K>(xs: seq<T>, keyOf: T -> K, x: T)
    requires UniqueKeys(xs, keyOf)
    ensures UniqueKeys([x] + xs, keyOf) <==> forall i :: 0 <= i < |xs| ==> keyOf(xs[i]) != keyOf(x)
    ensures UniqueKeys(xs + [x], keyOf) <==> forall i :: 0 <= i < |xs| ==> keyOf(xs[i]) != keyOf(x)
  {
    if forall i :: 0 <= i < |xs| ==> keyOf(xs[i]) != keyOf(x) {
      assert forall i :: 0 < i < |xs| + 1 ==> ([x] + xs)[i] == xs[i - 1];
    } else {
      var i :| 0 <= i < |xs| && keyOf(xs[i]) == keyOf(x);
      assert ([x] + xs)[i + 1] == xs[i] && ([x] + xs)[0] == x;
      assert (xs + [x])[i] == xs[i] && (xs + [x])[|xs|] == x;
    }
  }

  /** `xs.filter(p)`. */
  function Filter<T(!new)>(xs: seq<T>, p: T -> bool): (r: seq<T>)
    ensures |r| <= |xs|
    ensures forall i :: 0 <= i < |r| ==> p(r[i])
    ensures forall x :: multiset(r)[x] == if p(x) then multiset(xs)[x] else 0
    ensures IsSubsequence(r, xs)
    decreases |xs|
  {
    if |xs| == 0 then []
    else
      var rest := Filter(xs[1..], p);
      assert xs == [xs[0]] + xs[1..];
      if p(xs[0]) then
        assert ([xs[0]] + rest)[1..] == rest;
        [xs[0]] + rest
      else
        SubsequenceSkip(rest, xs[1..], xs[0]);
        rest
  }

  /** A filter whose predicate holds everywhere returns the list unchanged. */
  lemma {:induction false} FilterAll<T(!new)>(xs: seq<T>, p: T -> bool)
    requires forall i :: 0 <= i < |xs| ==> p(xs[i])
    ensures Filter(xs, p) == xs
    decreases |xs|
  {
    if |xs| > 0 {
      FilterAll(xs[1..], p);
    }
  }

  /** Filtering keeps one entry per id. */
  lemma {:induction false} FilterKeepsUniqueKeys<T(!new), K>(xs: seq<T>, p: T -> bool, keyOf: T -> K)
    requires UniqueKeys(xs, keyOf)
    ensures UniqueKeys(Filter(xs, p), keyOf)
    decreases |xs|
  {
    if |xs| > 0 {
      var rest := Filter(xs[1..], p);
      FilterKeepsUniqueKeys(xs[1..], p, keyOf);
      if p(xs[0]) {
        forall j | 0 <= j < |rest|
          ensures keyOf(rest[j]) != keyOf(xs[0])
        {
          assert multiset(rest)[rest[j]] > 0;
          assert rest[j] in xs[1..];
          var k :| 0 <= k < |xs[1..]| && xs[1..][k] == rest[j];
          assert xs[k + 1] == rest[j];
        }
        var r := [xs[0]] + rest;
        assert forall i :: 0 < i < |r| ==> r[i] == rest[i - 1];
      }
    }
  }

  /** Number of elements satisfying `p`; `xs.filter(p).length`. */
  function Count<T(!new)>(xs: seq<T>, p: T -> bool): (n: nat)
    ensures n == |Filter(xs, p)|
    ensures n <= |xs|
  {
    if |xs| == 0 then 0 else (if p(xs[0]) then 1 else 0) + Count(xs[1..], p)
  }

  /** `xs.filter((_, j) => j !== i)`. */
  function RemoveAt<T>(xs: seq<T>, i: int): (r: seq<T>)
    ensures 0 <= i < |xs| ==> |r| == |xs| - 1
    ensures 0 <= i < |xs| ==> forall j :: 0 <= j < |r| ==> r[j] == if j < i then xs[j] else xs[j + 1]
    ensures !(0 <= i < |xs|) ==> r == xs
  {
    if 0 <= i < |xs| then xs[..i] + xs[i + 1..] else xs
  }

  /** `xs.map((x, j) => j === i ? v : x)`. */
  function SetAt<T>(xs: seq<T>, i: int, v: T): (r: seq<T>)
    ensures |r| == |xs|
    ensures forall j :: 0 <= j < |xs| ==> r[j] == if j == i then v else xs[j]
  {
    if 0 <= i < |xs| then xs[i := v] else xs
  }

  /** Membership flip of `handleMultiSelect`: a present value is removed
      everywhere, an absent one is appended. */
  function Toggle<T(==,!new)>(xs: seq<T>, v: T): (r: seq<T>)
    ensures v in xs ==> v !in r && IsSubsequence(r, xs)
    ensures v in xs ==> forall x :: x != v ==> multiset(r)[x] == multiset(xs)[x]
    ensures v !in xs ==> r == xs + [v]
    ensures forall x :: x != v ==> (x in r <==> x in xs)
  {
    if v in xs then
      var r := Filter(xs, x => x != v);
      assert forall x :: x in r <==> multiset(r)[x] > 0;
      r
    else xs + [v]
  }

  /** Toggling twice restores the membership of every value. */
  lemma ToggleTwice<T(!new)>(xs: seq<T>, v: T)
    ensures forall x :: x in Toggle(Toggle(xs, v), v) <==> x in xs
  {
  }

  // ---- the stable sort of Array.prototype.sort, by an integer key ----

  ghost predicate SortedByKey<T>(xs: seq<T>, key: T -> int) {
    forall i, j :: 0 <= i < j < |xs| ==> key(xs[i]) <= key(xs[j])
  }

  function KeyIs<T>(key: T -> int, k: int): T -> bool {
    x => key(x) == k
  }

  /** Places `x` in front of the first element whose key is not smaller. */
  function InsertByKey<T>(x: T, s: seq<T>, key: T -> int): (r: seq<T>)
    ensures multiset(r) == multiset(s) + multiset{x}
    ensures |r| == |s| + 1
    ensures SortedByKey(s, key) ==> SortedByKey(r, key)
    decreases |s|, 1
  {
    if |s| == 0 then [x]
    else if key(x) <= key(s[0]) then [x] + s
    else
      var t := InsertByKey(x, s[1..], key);
      assert s == [s[0]] + s[1..];
      HeadBoundsInsert(x, s, key);
      ConsSorted(s, t, key);
      [s[0]] + t
  }

  /** A sorted list's head, put in front of a sorted list whose keys it
      bounds, keeps the whole sorted. */
  lemma ConsSorted<T>(s: seq<T>, t: seq<T>, key: T -> int)
    requires |s| > 0
    ensures SortedByKey(s, key) ==> SortedByKey(s[1..], key)
    ensures SortedByKey(t, key) && (forall u :: u in t ==> key(s[0]) <= key(u)) ==>
              SortedByKey([s[0]] + t, key)
  {
    if SortedByKey(t, key) && (forall u :: u in t ==> key(s[0]) <= key(u)) {
      var r := [s[0]] + t;
      forall i, j | 0 <= i < j < |r|
        ensures key(r[i]) <= key(r[j])
      {
        assert r[j] == t[j - 1];
        if i > 0 {
          assert r[i] == t[i - 1];
        } else {
          assert r[j] in t;
        }
      }
    }
  }

  /** When `x` goes behind the head of a sorted `s`, the head's key bounds
      every key of the rest after insertion. */
  lemma HeadBoundsInsert<T>(x: T, s: seq<T>, key: T -> int)
    requires |s| > 0 && key(x) > key(s[0])
    ensures SortedByKey(s, key) ==>
              forall t :: t in InsertByKey(x, s[1..], key) ==> key(s[0]) <= key(t)
    decreases |s|, 0
  {
    if SortedByKey(s, key) {
      var r := InsertByKey(x, s[1..], key);
      forall t | t in r
        ensures key(s[0]) <= key(t)
      {
        assert t in multiset(r);
        if t in multiset(s[1..]) {
          var m :| 0 <= m < |s[1..]| && s[1..][m] == t;
          assert s[m + 1] == t;
        }
      }
    }
  }

  /** Stable ascending sort by `key` (insertion sort from the back). */
  function SortByKey<T>(xs: seq<T>, key: T -> int): (r: seq<T>)
    ensures SortedByKey(r, key)
    ensures multiset(r) == multiset(xs)
    ensures |r| == |xs|
    decreases |xs|
  {
    if |xs| == 0 then []
    else
      assert xs == [xs[0]] + xs[1..];
      InsertByKey(xs[0], SortByKey(xs[1..], key), key)
  }

  lemma {:induction false} FilterInsert<T(!new)>(x: T, s: seq<T>, key: T -> int, k: int)
    ensures Filter(InsertByKey(x, s, key), KeyIs(key, k))
            == (if key(x) == k then [x] else []) + Filter(s, KeyIs(key, k))
    decreases |s|
  {
    var p := KeyIs(key, k);
    if |s| == 0 {
    } else if key(x) <= key(s[0]) {
      var r := [x] + s;
      assert r[1..] == s;
    } else {
      FilterInsert(x, s[1..], key, k);
      var t := InsertByKey(x, s[1..], key);
      var lead := if key(x) == k then [x] else [];
      assert InsertByKey(x, s, key) == [s[0]] + t;
      assert s == [s[0]] + s[1..];
      FilterBehindHead(s[0], t, s[1..], lead, p);
    }
  }

  /** A head that fails the filter whenever `lead` is kept may go in front
      of both sides of an equation between filtered lists. */
  lemma FilterBehindHead<T(!new)>(h: T, t: seq<T>, u: seq<T>, lead: seq<T>, p: T -> bool)
    requires Filter(t, p) == lead + Filter(u, p)
    requires lead != [] ==> !p(h)
    ensures Filter([h] + t, p) == lead + Filter([h] + u, p)
  {
    FilterCons(h, t, p);
    FilterCons(h, u, p);
    if p(h) {
      assert lead == [];
      assert lead + Filter(u, p) == Filter(u, p);
      assert lead + Filter([h] + u, p) == Filter([h] + u, p);
    } else {
      assert Filter([h] + t, p) == Filter(t, p);
      assert Filter([h] + u, p) == Filter(u, p);
    }
  }

  /** Filtering a list with a head filters the tail and keeps the head
      when it passes. */
  lemma FilterCons<T(!new)>(h: T, t: seq<T>, p: T -> bool)
    ensures Filter([h] + t, p) == (if p(h) then [h] else []) + Filter(t, p)
  {
    var r := [h] + t;
    assert r[0] == h && r[1..] == t;
  }

  /** The sort is stable: among elements with equal keys, the original
      order is kept. */
  lemma {:induction false} SortIsStable<T(!new)>(xs: seq<T>, key: T -> int, k: int)
    ensures Filter(SortByKey(xs, key), KeyIs(key, k)) == Filter(xs, KeyIs(key, k))
    decreases |xs|
  {
    if |xs| > 0 {
      SortIsStable(xs[1..], key, k);
      FilterInsert(xs[0], SortByKey(xs[1..], key), key, k);
    }
  }

  /** The elements of `xs` in the opposite order. */
  function Reverse<T>(xs: seq<T>): (r: seq<T>)
    ensures |r| == |xs|
    ensures forall i :: 0 <= i < |xs| ==> r[i] == xs[|xs| - 1 - i]
  {
    if |xs| == 0 then [] else Reverse(xs[1..]) + [xs[0]]
  }

  /** `xs.slice(0, n)`. */
  function Take<T>(xs: seq<T>, n: nat): (r: seq<T>)
    ensures |r| == if n < |xs| then n else |xs|
    ensures r == xs[..|r|]
  {
    if n < |xs| then xs[..n] else xs
  }

  /** A prefix holds no element more often than the whole list. */
  lemma TakeIsSubMultiset<T>(xs: seq<T>, n: nat)
    ensures multiset(Take(xs, n)) <= multiset(xs)
  {
    var r := Take(xs, n);
    assert xs == r + xs[|r|..];
    assert multiset(xs) == multiset(r) + multiset(xs[|r|..]);
  }

  /** `xs.reduce((sum, x) => sum + f(x), 0)`. */
  function SumBy<T>(xs: seq<T>, f: T -> int): int {
    if |xs| == 0 then 0 else f(xs[0]) + SumBy(xs[1..], f)
  }

  /** Summing over the kept elements equals summing over all elements with
      the dropped ones counted as zero. */
  lemma {:induction false} SumOfFilter<T(!new)>(xs: seq<T>, p: T -> bool, f: T -> int, g: T -> int)
    requires forall x :: g(x) == if p(x) then f(x) else 0
    ensures SumBy(Filter(xs, p), f) == SumBy(xs, g)
    decreases |xs|
  {
    if |xs| > 0 {
      SumOfFilter(xs[1..], p, f, g);
      if p(xs[0]) {
        assert ([xs[0]] + Filter(xs[1..], p))[1..] == Filter(xs[1..], p);
      }
    }
  }

  /** A sum of non-negative terms is non-negative. */
  lemma {:induction false} SumNonNegative<T>(xs: seq<T>, f: T -> int)
    requires forall i :: 0 <= i < |xs| ==> f(xs[i]) >= 0
    ensures SumBy(xs, f) >= 0
    decreases |xs|
  {
    if |xs| > 0 {
      SumNonNegative(xs[1..], f);
    }
  }
}
