/**
  Nearest-rank percentiles: percentileNearestRank of benchkit/kernel/kernel.go and
  percentileMS of units/wukongim/metrics_collector/collector.go. Values are reals.
 */
module Percentile {

  ghost predicate Ascending(xs: seq<real>) {
    forall i, j :: 0 <= i < j < |xs| ==> xs[i] <= xs[j]
  }

  function InsertValue(x: real, xs: seq<real>): seq<real> {
    if xs == [] || x <= xs[0] then [x] + xs else [xs[0]] + InsertValue(x, xs[1..])
  }

  /** sort.Float64s */
  function SortValues(xs: seq<real>): seq<real> {
    if xs == [] then [] else InsertValue(xs[0], SortValues(xs[1..]))
  }

  /** The integer rank of the kernel, counted from one. */
  function Rank(percent: nat, n: nat): nat {
    var rank := (percent * n + 99) / 100;
    if rank < 1 then 1 else if rank > n then n else rank
  }

  function NearestRank(values: seq<real>, percent: nat): real {
    if values == [] then 0.0
    else
      SortPermutes(values);
      SortValues(values)[Rank(percent, |values|) - 1]
  }

  /** The index of the collector, computed from a fraction and rounded up by adding almost one. */
  function Index(fraction: real, n: nat): int {
    var index := (fraction * n as real + 0.999999999).Floor - 1;
    if index < 0 then 0 else if index >= n then n - 1 else index
  }

  lemma {:induction false} InsertPermutes(x: real, xs: seq<real>)
    ensures multiset(InsertValue(x, xs)) == multiset{x} + multiset(xs) && |InsertValue(x, xs)| == |xs| + 1
  {
    if !(xs == [] || x <= xs[0]) {
      InsertPermutes(x, xs[1..]);
      assert xs == [xs[0]] + xs[1..];
    }
  }

  lemma {:induction false} SortPermutes(xs: seq<real>)
    ensures multiset(SortValues(xs)) == multiset(xs) && |SortValues(xs)| == |xs|
  {
    if xs != [] {
      SortPermutes(xs[1..]);
      InsertPermutes(xs[0], SortValues(xs[1..]));
      assert xs == [xs[0]] + xs[1..];
    }
  }

  lemma {:induction false} InsertSorted(x: real, xs: seq<real>)
    requires Ascending(xs)
    ensures Ascending(InsertValue(x, xs))
  {
    if !(xs == [] || x <= xs[0]) {
      var rest := InsertValue(x, xs[1..]);
      InsertSorted(x, xs[1..]);
      InsertPermutes(x, xs[1..]);
      forall j | 0 <= j < |rest|
        ensures xs[0] <= rest[j]
      {
        assert rest[j] in multiset(rest);
        if rest[j] != x { assert rest[j] in xs[1..]; }
      }
    }
  }

  lemma {:induction false} SortSorted(xs: seq<real>)
    ensures Ascending(SortValues(xs))
  {
    if xs != [] {
      SortSorted(xs[1..]);
      InsertSorted(xs[0], SortValues(xs[1..]));
    }
  }

  /** How many values are at most, or below, `x`. */
  function CountUpTo(xs: seq<real>, x: real): nat {
    if xs == [] then 0 else (if xs[0] <= x then 1 else 0) + CountUpTo(xs[1..], x)
  }

  function CountBelow(xs: seq<real>, x: real): nat {
    if xs == [] then 0 else (if xs[0] < x then 1 else 0) + CountBelow(xs[1..], x)
  }

  lemma {:induction false} InsertCounts(y: real, xs: seq<real>, x: real)
    ensures CountUpTo(InsertValue(y, xs), x) == (if y <= x then 1 else 0) + CountUpTo(xs, x)
    ensures CountBelow(InsertValue(y, xs), x) == (if y < x then 1 else 0) + CountBelow(xs, x)
  {
    if xs == [] || y <= xs[0] {
      assert ([y] + xs)[1..] == xs;
    } else {
      InsertCounts(y, xs[1..], x);
      assert ([xs[0]] + InsertValue(y, xs[1..]))[1..] == InsertValue(y, xs[1..]);
    }
  }

  lemma {:induction false} SortCounts(xs: seq<real>, x: real)
    ensures CountUpTo(SortValues(xs), x) == CountUpTo(xs, x) && CountBelow(SortValues(xs), x) == CountBelow(xs, x)
  {
    if xs != [] {
      SortCounts(xs[1..], x);
      InsertCounts(xs[0], SortValues(xs[1..]), x);
    }
  }

  /** In a sorted list the k-th value has more than k values up to it and at most k below it. */
  lemma {:induction false} CountsAt(xs: seq<real>, k: nat)
    requires Ascending(xs) && k < |xs|
    ensures CountUpTo(xs, xs[k]) >= k + 1 && CountBelow(xs, xs[k]) <= k
  {
    if k > 0 {
      CountsAt(xs[1..], k - 1);
    } else {
      NoneBelow(xs, xs[0]);
    }
  }

  lemma {:induction false} NoneBelow(xs: seq<real>, x: real)
    requires forall i :: 0 <= i < |xs| ==> x <= xs[i]
    ensures CountBelow(xs, x) == 0
  {
    if xs != [] { NoneBelow(xs[1..], x); }
  }

  /**
    The result is one of the values; at least `percent` per cent of them are at
    most as large, and fewer than that are smaller.
   */
  lemma NearestRankIsPercentile(values: seq<real>, percent: nat)
    requires values != [] && 1 <= percent <= 100
    ensures var r := NearestRank(values, percent);
            && r in values
            && 100 * CountUpTo(values, r) >= percent * |values|
            && 100 * CountBelow(values, r) < percent * |values|
  {
    SortPermutes(values);
    SortSorted(values);
    var n, sorted := |values|, SortValues(values);
    var rank := Rank(percent, n);
    RankBounds(percent, n);
    CountsAt(sorted, rank - 1);
    SortCounts(values, sorted[rank - 1]);
    assert sorted[rank - 1] in multiset(sorted);
    hide Rank, SortValues, Ascending, CountUpTo, CountBelow;
    Scaled(rank, CountUpTo(values, sorted[rank - 1]), CountBelow(values, sorted[rank - 1]), percent * n);
  }

  lemma Scaled(rank: nat, above: nat, below: nat, total: nat)
    requires above >= rank && below < rank && total <= 100 * rank < total + 100
    ensures 100 * above >= total && 100 * below < total
  {
  }

  lemma {:induction false} Monotone(p: nat, q: nat, n: nat)
    requires p <= q
    ensures p * n <= q * n
  {
    if p < q { Monotone(p, q - 1, n); }
  }

  /** The rank is the percentage of the count, rounded up. */
  lemma RankBounds(percent: nat, n: nat)
    requires 1 <= percent <= 100 && n > 0
    ensures 1 <= Rank(percent, n) <= n
    ensures percent * n <= 100 * Rank(percent, n) < percent * n + 100
  {
    Monotone(1, percent, n);
    Monotone(percent, 100, n);
    var total := percent * n;
    assert 1 <= total <= 100 * n;
  }

  /** A higher percentage never gives a smaller value: the p95 is at most the p99. */
  lemma PercentilesOrdered(values: seq<real>, p: nat, q: nat)
    requires p <= q
    ensures NearestRank(values, p) <= NearestRank(values, q)
  {
    if values != [] {
      SortPermutes(values);
      SortSorted(values);
      RankMonotone(p, q, |values|);
    }
  }

  lemma RankMonotone(p: nat, q: nat, n: nat)
    requires p <= q
    ensures Rank(p, n) <= Rank(q, n)
  {
    Monotone(p, q, n);
    var a, b := p * n, q * n;
    assert (a + 99) / 100 <= (b + 99) / 100;
  }

  /** The collector's rounded index is the kernel's integer rank, less one. */
  lemma IndexIsRank(percent: nat, n: nat)
    requires n > 0
    ensures Index(percent as real / 100.0, n) == Rank(percent, n) - 1
  {
    var total := percent * n;
    var x := percent as real / 100.0 * n as real;
    assert x == total as real / 100.0;
    CeilingByFloor(total);
  }

  lemma CeilingByFloor(total: nat)
    ensures (total as real / 100.0 + 0.999999999).Floor == (total + 99) / 100
  {
    var c := (total + 99) / 100;
    assert 100 * c <= total + 99 < 100 * c + 100;
    assert c as real <= total as real / 100.0 + 0.99;
    assert total as real / 100.0 <= c as real;
  }
}
