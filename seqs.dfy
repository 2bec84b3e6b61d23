/**
  * List operations of JavaScript arrays used throughout the site: `filter`,
  * a stable `sort` with a comparator (the language has required stability
  * since ECMAScript 2019), `slice` with its index clamping, and `Math.ceil`
  * of a page count.
  */
module Seqs {

  /** `xs.filter(p)`. */
  function Filter<T>(xs: seq<T>, p: T -> bool): (r: seq<T>)
    ensures |r| <= |xs|
    ensures forall x :: x in r ==> x in xs && p(x)
    ensures forall x :: x in xs && p(x) ==> x in r
  {
    if xs == [] then []
    else if p(xs[0]) then [xs[0]] + Filter(xs[1..], p)
    else Filter(xs[1..], p)
  }

  lemma {:induction false} FilterAppend<T>(xs: seq<T>, x: T, p: T -> bool)
    ensures Filter(xs + [x], p) == Filter(xs, p) + (if p(x) then [x] else [])
  {
    if xs != [] {
      assert (xs + [x])[1..] == xs[1..] + [x];
      FilterAppend(xs[1..], x, p);
    }
  }

  /** The head of a filtered list is the first element that passes. */
  lemma {:induction false} FilterHead<T>(xs: seq<T>, p: T -> bool, j: nat)
    requires j < |xs| && p(xs[j])
    requires forall m :: 0 <= m < j ==> !p(xs[m])
    ensures Filter(xs, p) != [] && Filter(xs, p)[0] == xs[j]
  {
    if j > 0 {
      assert !p(xs[0]);
      FilterHead(xs[1..], p, j - 1);
    }
  }

  /** `x` occurs in `xs` before an occurrence of `y`. With repeated elements this says less than
      "the list is a subsequence of `xs`"; the releases it is applied to are distinct, each carrying
      its own GitHub release id. */
  ghost predicate InOrder<T>(xs: seq<T>, x: T, y: T) {
    exists a, b :: 0 <= a < b < |xs| && xs[a] == x && xs[b] == y
  }

  /** An order in the tail of a list holds in the list. */
  lemma InOrderTail<T>(xs: seq<T>, x: T, y: T)
    requires xs != [] && InOrder(xs[1..], x, y)
    ensures InOrder(xs, x, y)
  {
    var a, b :| 0 <= a < b < |xs[1..]| && xs[1..][a] == x && xs[1..][b] == y;
    assert xs[a + 1] == x && xs[b + 1] == y;
  }

  /** The head of a list comes before every element of its tail. */
  lemma InOrderHead<T>(xs: seq<T>, y: T)
    requires xs != [] && y in xs[1..]
    ensures InOrder(xs, xs[0], y)
  {
    var b :| 0 <= b < |xs[1..]| && xs[1..][b] == y;
    assert xs[b + 1] == y;
  }

  /** `filter` keeps the order of the list: two kept elements appear in `xs` in the same order. */
  lemma {:induction false} FilterKeepsOrder<T>(xs: seq<T>, p: T -> bool, i: nat, j: nat)
    requires i < j < |Filter(xs, p)|
    ensures InOrder(xs, Filter(xs, p)[i], Filter(xs, p)[j])
  {
    var r, rest := Filter(xs, p), Filter(xs[1..], p);
    if p(xs[0]) {
      assert r == [xs[0]] + rest;
      if i == 0 {
        assert rest[j - 1] in rest;
        InOrderHead(xs, rest[j - 1]);
      } else {
        FilterKeepsOrder(xs[1..], p, i - 1, j - 1);
        InOrderTail(xs, rest[i - 1], rest[j - 1]);
      }
    } else {
      FilterKeepsOrder(xs[1..], p, i, j);
      InOrderTail(xs, rest[i], rest[j]);
    }
  }

  /** `FilterKeepsOrder` for every pair of kept elements at once. */
  lemma FilterOrdered<T>(xs: seq<T>, p: T -> bool)
    ensures forall i, j :: 0 <= i < j < |Filter(xs, p)| ==> InOrder(xs, Filter(xs, p)[i], Filter(xs, p)[j])
  {
    forall i, j | 0 <= i < j < |Filter(xs, p)|
      ensures InOrder(xs, Filter(xs, p)[i], Filter(xs, p)[j])
    {
      FilterKeepsOrder(xs, p, i, j);
    }
  }

  /** A list that agrees with `init` on its first `|init|` positions and ends in `x` is `init + [x]`. */
  lemma SnocEqual<T>(l: seq<T>, init: seq<T>, x: T)
    requires |l| == |init| + 1 && l[|init|] == x
    requires forall i :: 0 <= i < |init| ==> l[i] == init[i]
    ensures l == init + [x]
  {
  }

  /** `FilterAppend`, read from a non-empty list's last element. */
  lemma FilterLast<T>(xs: seq<T>, p: T -> bool)
    requires xs != []
    ensures Filter(xs, p) == Filter(xs[..|xs| - 1], p) + (if p(xs[|xs| - 1]) then [xs[|xs| - 1]] else [])
  {
    var init, x := xs[..|xs| - 1], xs[|xs| - 1];
    FilterAppend(init, x, p);
    assert init + [x] == xs;
  }

  lemma {:induction false} FilterConcat<T>(xs: seq<T>, ys: seq<T>, p: T -> bool)
    ensures Filter(xs + ys, p) == Filter(xs, p) + Filter(ys, p)
  {
    if xs == [] {
      assert xs + ys == ys;
    } else {
      assert (xs + ys)[1..] == xs[1..] + ys;
      FilterConcat(xs[1..], ys, p);
    }
  }

  /** `filter` over a three-element list, written out. */
  lemma FilterThree<T>(x: T, y: T, z: T, p: T -> bool)
    ensures Filter([x, y, z], p)
            == (if p(x) then [x] else []) + (if p(y) then [y] else []) + (if p(z) then [z] else [])
  {
    var fx, fy, fz := (if p(x) then [x] else []), (if p(y) then [y] else []), (if p(z) then [z] else []);
    assert [z][1..] == [];
    assert Filter([z], p) == fz;
    assert [y, z][1..] == [z];
    assert Filter([y, z], p) == fy + fz;
    assert [x, y, z][1..] == [y, z];
    assert Filter([x, y, z], p) == fx + (fy + fz);
  }

  /** Every element of `xs` passes exactly one of `p` and its negation, so the two filters split `xs`. */
  lemma {:induction false} FilterSplit<T>(xs: seq<T>, p: T -> bool, q: T -> bool)
    requires forall x :: q(x) == !p(x)
    ensures |Filter(xs, p)| + |Filter(xs, q)| == |xs|
    ensures multiset(Filter(xs, p)) + multiset(Filter(xs, q)) == multiset(xs)
  {
    if xs != [] {
      FilterSplit(xs[1..], p, q);
      assert xs == [xs[0]] + xs[1..];
    }
  }

  /** Filtering never adds an element or a copy of one. */
  lemma {:induction false} FilterSubMultiset<T>(xs: seq<T>, p: T -> bool)
    ensures multiset(Filter(xs, p)) <= multiset(xs)
  {
    if xs != [] {
      FilterSubMultiset(xs[1..], p);
      assert xs == [xs[0]] + xs[1..];
    }
  }

  /** A filter that every element passes keeps the whole list. */
  lemma {:induction false} FilterAll<T>(xs: seq<T>, p: T -> bool)
    requires forall x :: x in xs ==> p(x)
    ensures Filter(xs, p) == xs
  {
    if xs != [] {
      assert xs[0] in xs;
      FilterAll(xs[1..], p);
      assert xs == [xs[0]] + xs[1..];
    }
  }

  /** A filter that no element passes yields the empty list. */
  lemma {:induction false} FilterNone<T>(xs: seq<T>, p: T -> bool)
    requires forall x :: x in xs ==> !p(x)
    ensures Filter(xs, p) == []
  {
    if xs != [] {
      assert xs[0] in xs;
      assert forall x :: x in xs[1..] ==> x in xs;
      FilterNone(xs[1..], p);
    }
  }

  /** A comparator `le` that JavaScript's `sort` handles consistently: total and transitive. */
  ghost predicate TotalPreorder<T(!new)>(le: (T, T) -> bool) {
    (forall a, b :: le(a, b) || le(b, a))
    && (forall a, b, c :: le(a, b) && le(b, c) ==> le(a, c))
  }

  ghost predicate SortedBy<T>(xs: seq<T>, le: (T, T) -> bool) {
    forall i, j :: 0 <= i < j < |xs| ==> le(xs[i], xs[j])
  }

  /** Puts `x` before the first element it is not after. */
  function Insert<T>(x: T, ys: seq<T>, le: (T, T) -> bool): (r: seq<T>)
    ensures multiset(r) == multiset{x} + multiset(ys)
    ensures |r| == |ys| + 1
  {
    if ys == [] || le(x, ys[0]) then [x] + ys
    else
      assert ys == [ys[0]] + ys[1..];
      [ys[0]] + Insert(x, ys[1..], le)
  }

  /** `[...xs].sort(cmp)`, stable: insertion sort. */
  function SortBy<T>(xs: seq<T>, le: (T, T) -> bool): (r: seq<T>)
    ensures multiset(r) == multiset(xs)
    ensures |r| == |xs|
  {
    if xs == [] then []
    else
      assert xs == [xs[0]] + xs[1..];
      Insert(xs[0], SortBy(xs[1..], le), le)
  }

  /** Filtering a sorted list keeps it sorted. */
  lemma {:induction false} FilterSorted<T>(xs: seq<T>, le: (T, T) -> bool, p: T -> bool)
    requires SortedBy(xs, le)
    ensures SortedBy(Filter(xs, p), le)
  {
    if xs != [] {
      FilterSorted(xs[1..], le, p);
      var rest := Filter(xs[1..], p);
      if p(xs[0]) {
        forall j | 0 <= j < |rest| ensures le(xs[0], rest[j]) {
          assert rest[j] in xs[1..];
          var k :| 0 <= k < |xs[1..]| && xs[1..][k] == rest[j];
          assert xs[k + 1] == rest[j];
        }
        var r := [xs[0]] + rest;
        forall i, j | 0 <= i < j < |r| ensures le(r[i], r[j]) {
          if i > 0 {
            assert r[i] == rest[i - 1] && r[j] == rest[j - 1];
          }
        }
      }
    }
  }

  lemma {:induction false} InsertSorted<T(!new)>(x: T, ys: seq<T>, le: (T, T) -> bool)
    requires TotalPreorder(le)
    requires SortedBy(ys, le)
    ensures SortedBy(Insert(x, ys, le), le)
  {
    if ys == [] || le(x, ys[0]) {
    } else {
      InsertSorted(x, ys[1..], le);
      var r := Insert(x, ys[1..], le);
      forall z | z in r ensures le(ys[0], z) {
        assert z in multiset(r);
      }
    }
  }

  /** The sort puts its elements in order. */
  lemma {:induction false} SortBySorted<T(!new)>(xs: seq<T>, le: (T, T) -> bool)
    requires TotalPreorder(le)
    ensures SortedBy(SortBy(xs, le), le)
  {
    if xs != [] {
      SortBySorted(xs[1..], le);
      InsertSorted(xs[0], SortBy(xs[1..], le), le);
    }
  }

  /** `p` picks out elements the comparator cannot tell apart. */
  ghost predicate TiedUnder<T(!new)>(p: T -> bool, le: (T, T) -> bool) {
    forall a, b :: p(a) && p(b) ==> le(a, b)
  }

  lemma {:induction false} InsertStable<T(!new)>(x: T, ys: seq<T>, le: (T, T) -> bool, p: T -> bool)
    requires TiedUnder(p, le)
    ensures Filter(Insert(x, ys, le), p) == (if p(x) then [x] else []) + Filter(ys, p)
  {
    if ys == [] || le(x, ys[0]) {
    } else {
      InsertStable(x, ys[1..], le, p);
      assert p(x) ==> !p(ys[0]);
    }
  }

  /** Stability: elements that compare equal keep their input order. */
  lemma {:induction false} SortByStable<T(!new)>(xs: seq<T>, le: (T, T) -> bool, p: T -> bool)
    requires TiedUnder(p, le)
    ensures Filter(SortBy(xs, le), p) == Filter(xs, p)
  {
    if xs != [] {
      SortByStable(xs[1..], le, p);
      InsertStable(xs[0], SortBy(xs[1..], le), le, p);
    }
  }

  /** Sum of `f` over a list. */
  function SumBy<T>(xs: seq<T>, f: T -> int): int {
    if xs == [] then 0 else f(xs[0]) + SumBy(xs[1..], f)
  }

  lemma {:induction false} SumByInsert<T>(x: T, ys: seq<T>, le: (T, T) -> bool, f: T -> int)
    ensures SumBy(Insert(x, ys, le), f) == f(x) + SumBy(ys, f)
  {
    if ys != [] && !le(x, ys[0]) {
      SumByInsert(x, ys[1..], le, f);
    }
  }

  /** Sorting does not change a sum. */
  lemma {:induction false} SumBySort<T>(xs: seq<T>, le: (T, T) -> bool, f: T -> int)
    ensures SumBy(SortBy(xs, le), f) == SumBy(xs, f)
  {
    if xs != [] {
      SumBySort(xs[1..], le, f);
      SumByInsert(xs[0], SortBy(xs[1..], le), le, f);
    }
  }

  lemma {:induction false} SumByAppend<T>(xs: seq<T>, x: T, f: T -> int)
    ensures SumBy(xs + [x], f) == SumBy(xs, f) + f(x)
  {
    if xs != [] {
      assert (xs + [x])[1..] == xs[1..] + [x];
      SumByAppend(xs[1..], x, f);
    }
  }

  /** Sum of a real-valued `f` over a list. */
  function RealSumBy<T>(xs: seq<T>, f: T -> real): real {
    if xs == [] then 0.0 else f(xs[0]) + RealSumBy(xs[1..], f)
  }

  /** A sum of terms in `[0, hi]` lies in `[0, hi * |xs|]`. */
  lemma {:induction false} RealSumByBounds<T>(xs: seq<T>, f: T -> real, hi: real)
    requires forall x :: x in xs ==> 0.0 <= f(x) <= hi
    ensures 0.0 <= RealSumBy(xs, f) <= hi * |xs| as real
  {
    if xs != [] {
      assert xs[0] in xs;
      RealSumByBounds(xs[1..], f, hi);
      MulSucc(hi, |xs| - 1);
    }
  }

  /** A sum of `|xs|` equal terms `w` is `w * |xs|`. */
  lemma {:induction false} RealSumByConstant<T>(xs: seq<T>, f: T -> real, w: real)
    requires forall x :: x in xs ==> f(x) == w
    ensures RealSumBy(xs, f) == w * |xs| as real
  {
    if xs != [] {
      assert xs[0] in xs;
      RealSumByConstant(xs[1..], f, w);
      MulSucc(w, |xs| - 1);
    }
  }

  /** The mean of a real-valued `f` over a list, 0 for an empty list. */
  function RealMeanBy<T>(xs: seq<T>, f: T -> real): real {
    if xs == [] then 0.0 else RealSumBy(xs, f) / |xs| as real
  }

  /** A mean of terms in `[0, hi]` lies in `[0, hi]`. */
  lemma RealMeanByBounds<T>(xs: seq<T>, f: T -> real, hi: real)
    requires 0.0 <= hi
    requires forall x :: x in xs ==> 0.0 <= f(x) <= hi
    ensures 0.0 <= RealMeanBy(xs, f) <= hi
  {
    if xs != [] {
      RealSumByBounds(xs, f, hi);
      var n := |xs| as real;
      assert RealSumBy(xs, f) / n <= hi * n / n;
    }
  }

  /** The mean of equal terms is that term. */
  lemma RealMeanByConstant<T>(xs: seq<T>, f: T -> real, w: real)
    requires xs != []
    requires forall x :: x in xs ==> f(x) == w
    ensures RealMeanBy(xs, f) == w
  {
    RealSumByConstant(xs, f, w);
  }

  lemma MulSucc(w: real, n: nat)
    ensures w * (n + 1) as real == w + w * n as real
  {
  }

  /** No two elements share a value of `f`. */
  ghost predicate DistinctBy<T, K>(xs: seq<T>, f: T -> K) {
    forall i, j :: 0 <= i < j < |xs| ==> f(xs[i]) != f(xs[j])
  }

  lemma {:induction false} InsertDistinct<T, K>(x: T, ys: seq<T>, le: (T, T) -> bool, f: T -> K)
    requires DistinctBy(ys, f)
    requires forall y :: y in ys ==> f(y) != f(x)
    ensures DistinctBy(Insert(x, ys, le), f)
  {
    if ys != [] && !le(x, ys[0]) {
      InsertDistinct(x, ys[1..], le, f);
      var r := Insert(x, ys[1..], le);
      forall z | z in r ensures f(z) != f(ys[0]) {
        assert z in multiset(r);
      }
    }
  }

  /** Sorting keeps a list free of duplicates under `f`. */
  lemma {:induction false} SortByDistinct<T, K>(xs: seq<T>, le: (T, T) -> bool, f: T -> K)
    requires DistinctBy(xs, f)
    ensures DistinctBy(SortBy(xs, le), f)
  {
    if xs != [] {
      SortByDistinct(xs[1..], le, f);
      var s := SortBy(xs[1..], le);
      forall y | y in s ensures f(y) != f(xs[0]) {
        assert y in multiset(s);
      }
      InsertDistinct(xs[0], s, le, f);
    }
  }

  /** Extending a prefix of `ys` after `xs` by one element. */
  lemma PrefixSnoc<T>(xs: seq<T>, ys: seq<T>, i: nat)
    requires i < |ys|
    ensures xs + ys[..i + 1] == (xs + ys[..i]) + [ys[i]]
  {
    assert ys[..i + 1] == ys[..i] + [ys[i]];
  }

  /** ECMAScript's relative index of `slice`: negative counts from the end, then clamped to `[0, n]`. */
  function SliceIndex(k: int, n: nat): (r: nat)
    ensures r <= n
  {
    if k < 0 then (if n + k < 0 then 0 else n + k) else if k > n then n else k
  }

  /** `xs.slice(start, end)`. */
  function Slice<T>(xs: seq<T>, start: int, end: int): (r: seq<T>)
    ensures 0 <= start <= end ==> r == xs[SliceIndex(start, |xs|)..SliceIndex(end, |xs|)]
    ensures 0 <= start <= end ==> |r| <= end - start
  {
    var s, e := SliceIndex(start, |xs|), SliceIndex(end, |xs|);
    if s < e then xs[s..e] else []
  }

  /** Page `page` (from 1) of `size` items: `xs.slice((page - 1) * size, (page - 1) * size + size)`. */
  function PageOf<T>(xs: seq<T>, page: int, size: nat): (r: seq<T>)
    ensures |r| <= size
    ensures page >= 1 ==> r == xs[SliceIndex((page - 1) * size, |xs|)..SliceIndex((page - 1) * size + size, |xs|)]
  {
    Slice(xs, (page - 1) * size, (page - 1) * size + size)
  }

  /** Every item sits on exactly one page: item `i` is entry `i % size` of page `i / size + 1`,
      and that page is within `Math.ceil(|xs| / size)`. */
  lemma PageLocates<T>(xs: seq<T>, size: nat, i: nat)
    requires size > 0 && i < |xs|
    ensures 1 <= i / size + 1 <= CeilDiv(|xs|, size)
    ensures i % size < |PageOf(xs, i / size + 1, size)|
    ensures PageOf(xs, i / size + 1, size)[i % size] == xs[i]
  {
    var p, q := i / size, i % size;
    var start := p * size;
    assert i == start + q && 0 <= q < size;
    CeilDivAtLeast(|xs|, size, p);
    assert PageOf(xs, p + 1, size) == xs[start..SliceIndex(start + size, |xs|)];
  }

  /** When more than `p * size` items exist, there are at least `p + 1` pages. */
  lemma CeilDivAtLeast(n: nat, size: nat, p: nat)
    requires size > 0 && p * size < n
    ensures p + 1 <= CeilDiv(n, size)
  {
    var r := CeilDiv(n, size);
    if r < p + 1 {
      MulMono(r, p, size);
    }
  }

  lemma MulMono(a: nat, b: nat, c: nat)
    requires a <= b
    ensures a * c <= b * c
  {
  }

  /** `Math.ceil(n / d)` for a positive `d`. */
  function CeilDiv(n: nat, d: nat): (r: nat)
    requires d > 0
    ensures r * d >= n
    ensures r > 0 ==> (r - 1) * d < n
  {
    (n + d - 1) / d
  }
}
