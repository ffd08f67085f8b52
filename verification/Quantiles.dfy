/** The two latency quantiles: the median of agentloopgate/evaluation/metrics.py and the nearest-rank
    percentile of agentloopgate/experiment/orchestrator.py. */
module Quantiles {
  import opened Common
  import opened Ordering

  predicate IntLe(a: int, b: int) { a <= b }

  /** The median of sorted values; zero without values. */
  function Median(values: seq<int>): (r: real) {
    var middle := |values| / 2;
    if values == [] then 0.0
    else if |values| % 2 == 1 then values[middle] as real
    else (values[middle - 1] + values[middle]) as real / 2.0
  }

  /** Twice the median is the sum of the two middle values, which are one where their number is odd. */
  lemma MedianIsMiddle(values: seq<int>)
    ensures if values == [] then Median(values) == 0.0
            else 2.0 * Median(values) == (values[(|values| - 1) / 2] + values[|values| / 2]) as real
  {
  }

  /** The nearest-rank percentile of sorted values, if it is defined. */
  function NearestRank(values: seq<int>, percentile: int): (r: Option<int>)
    ensures r.Some? <==> values != [] && 1 <= percentile <= 100
    ensures r.Some? ==> exists rank :: 1 <= rank <= |values| && r.value == values[rank - 1]
                                       && 100 * (rank - 1) < |values| * percentile <= 100 * rank
  {
    if values == [] || !(1 <= percentile <= 100) then None
    else
      RankInRange(|values|, percentile);
      Some(values[(|values| * percentile + 99) / 100 - 1])
  }

  lemma RankInRange(n: int, percentile: int)
    requires n >= 1 && 1 <= percentile <= 100
    ensures var rank := (n * percentile + 99) / 100;
            1 <= rank <= n && 100 * (rank - 1) < n * percentile <= 100 * rank
  {
  }

  function Below(x: int): (r: int -> int) { v => if v < x then 1 else 0 }

  function CountBelow(values: seq<int>, x: int): (r: int) { TotalInt(Map(Below(x), values)) }

  lemma CountPush(values: seq<int>, v: int, x: int)
    ensures CountBelow(values + [v], x) == CountBelow(values, x) + Below(x)(v)
  {
    assert Map(Below(x), values + [v]) == Map(Below(x), values) + [Below(x)(v)];
    TotalIntAdds(Map(Below(x), values), [Below(x)(v)]);
    assert [Below(x)(v)][..0] == [];
  }

  lemma CountAppend(a: seq<int>, b: seq<int>, x: int)
    ensures CountBelow(a + b, x) == CountBelow(a, x) + CountBelow(b, x)
  {
    assert Map(Below(x), a + b) == Map(Below(x), a) + Map(Below(x), b);
    TotalIntAdds(Map(Below(x), a), Map(Below(x), b));
  }

  lemma CountPermutes(a: seq<int>, b: seq<int>, x: int)
    requires multiset(a) == multiset(b)
    ensures CountBelow(a, x) == CountBelow(b, x)
  {
    MapPermutes(Below(x), a, b);
    TotalIntPermutes(Map(Below(x), a), Map(Below(x), b));
  }

  lemma {:induction false} CountBounds(values: seq<int>, x: int)
    ensures 0 <= CountBelow(values, x) <= |values|
  {
    if values == [] {
    } else {
      var rest, last := values[..|values| - 1], values[|values| - 1];
      assert values == rest + [last];
      CountBounds(rest, x);
      CountPush(rest, last, x);
    }
  }

  lemma {:induction false} CountAll(values: seq<int>, x: int)
    requires forall i | 0 <= i < |values| :: values[i] < x
    ensures CountBelow(values, x) == |values|
  {
    if values == [] {
    } else {
      var rest, last := values[..|values| - 1], values[|values| - 1];
      assert values == rest + [last];
      CountAll(rest, x);
      CountPush(rest, last, x);
    }
  }

  lemma {:induction false} CountNone(values: seq<int>, x: int)
    requires forall i | 0 <= i < |values| :: values[i] >= x
    ensures CountBelow(values, x) == 0
  {
    if values == [] {
    } else {
      var rest, last := values[..|values| - 1], values[|values| - 1];
      assert values == rest + [last];
      CountNone(rest, x);
      CountPush(rest, last, x);
    }
  }

  /** In a sorted sequence the element at `k` has at most `k` elements below it. */
  lemma FewBelow(values: seq<int>, k: nat)
    requires SortedBy(IntLe, values) && k < |values|
    ensures CountBelow(values, values[k]) <= k
  {
    var x := values[k];
    assert values == values[..k] + values[k..];
    CountAppend(values[..k], values[k..], x);
    forall i | 0 <= i < |values| - k ensures values[k..][i] >= x {
      assert i == 0 || IntLe(values[k], values[k + i]);
    }
    CountNone(values[k..], x);
    CountBounds(values[..k], x);
  }

  lemma ManyBelow(values: seq<int>, k: nat, x: int)
    requires SortedBy(IntLe, values) && k < |values|
    ensures values[k] >= x || CountBelow(values, x) > k
  {
    if values[k] < x {
      var head := values[..k + 1];
      assert values == head + values[k + 1..];
      CountAppend(head, values[k + 1..], x);
      forall i | 0 <= i < |head| ensures head[i] < x {
        assert i == k || IntLe(values[i], values[k]);
      }
      CountAll(head, x);
      CountBounds(values[k + 1..], x);
    }
  }

  /** Mixing further values into a population moves its k-th smallest value by at most their number. */
  lemma MixShifts(v: seq<int>, infra: seq<int>, a: seq<int>, k: nat)
    requires SortedBy(IntLe, v) && SortedBy(IntLe, a) && multiset(a) == multiset(v + infra) && k < |v|
    ensures |a| == |v| + |infra| && v[k] <= a[k + |infra|]
  {
    var x := v[k];
    SameElements(a, v + infra);
    FewBelow(v, k);
    CountPermutes(a, v + infra, x);
    CountAppend(v, infra, x);
    CountBounds(infra, x);
    ManyBelow(a, k + |infra|, x);
  }

  /** In sorted values place `k` has at most `k` of them below, and more than `k` at or below. */
  lemma CountsAtRank(sorted: seq<int>, values: seq<int>, k: nat)
    requires SortedBy(IntLe, sorted) && multiset(sorted) == multiset(values) && k < |sorted|
    ensures CountBelow(values, sorted[k]) <= k < CountBelow(values, sorted[k] + 1)
  {
    var x := sorted[k];
    FewBelow(sorted, k);
    ManyBelow(sorted, k, x + 1);
    CountPermutes(sorted, values, x);
    CountPermutes(sorted, values, x + 1);
  }

  /** The nearest-rank percentile of any values: fewer than that share of them lie below it, and at least
      that share at or below it. */
  lemma NearestRankCounts(sorted: seq<int>, values: seq<int>, percentile: int)
    requires SortedBy(IntLe, sorted) && multiset(sorted) == multiset(values) && |sorted| == |values|
    requires sorted != [] && 1 <= percentile <= 100
    ensures var x := NearestRank(sorted, percentile).value;
            100 * CountBelow(values, x) < percentile * |values| <= 100 * CountBelow(values, x + 1)
  {
    RankInRange(|sorted|, percentile);
    CountsAtRank(sorted, values, (|sorted| * percentile + 99) / 100 - 1);
    assert |sorted| * percentile == percentile * |values|;
  }

  lemma LastIsGreatest(sorted: seq<int>, values: seq<int>)
    requires SortedBy(IntLe, sorted) && multiset(sorted) == multiset(values) && sorted != []
    ensures sorted[|sorted| - 1] in values && forall x | x in values :: x <= sorted[|sorted| - 1]
  {
    SameElements(sorted, values);
    forall x | x in values ensures x <= sorted[|sorted| - 1] {
      var i :| 0 <= i < |sorted| && sorted[i] == x;
      assert i == |sorted| - 1 || IntLe(sorted[i], sorted[|sorted| - 1]);
    }
  }

  /** The median of the valid runs is at most the nearest-rank p95 of all runs whatever the latencies:
      a condition on how many of the runs are infra-invalid. */
  predicate QuantilesSafe(valid: nat, infra: nat) {
    valid == 0 || (95 * (valid + infra) + 99) / 100 - 1 >= valid / 2 + infra
  }

  ghost predicate Ascending(values: seq<int>) {
    SortedBy(IntLe, values) && forall i | 0 <= i < |values| :: values[i] >= 0
  }

  function P95(values: seq<int>): (r: int)
    requires values != []
  {
    NearestRank(values, 95).value
  }

  /** Evidence of safe counts has ordered quantiles, whatever the latencies. */
  lemma SafeIsOrdered(v: seq<int>, infra: seq<int>, a: seq<int>)
    requires Ascending(v) && Ascending(a) && multiset(a) == multiset(v + infra) && a != []
    requires QuantilesSafe(|v|, |infra|)
    ensures 0.0 <= Median(v) <= P95(a) as real <= a[|a| - 1] as real
  {
    SameElements(a, v + infra);
    if v == [] {
      RankInRange(|a|, 95);
    } else {
      MixShifts(v, infra, a, |v| / 2);
    }
  }

  /** Whatever the counts, the two quantiles are not negative and the p95 is at most the maximum. */
  lemma QuantilesInBounds(v: seq<int>, a: seq<int>)
    requires Ascending(v) && Ascending(a) && a != []
    ensures 0.0 <= Median(v) && 0 <= P95(a) <= a[|a| - 1]
  {
    RankInRange(|a|, 95);
  }

  /** Outside that condition there are latencies for which the quantiles are out of order. */
  lemma UnsafeIsUnordered(v: nat, m: nat) returns (valid: seq<int>, infra: seq<int>)
    requires !QuantilesSafe(v, m)
    ensures |valid| == v && |infra| == m && Ascending(valid) && Ascending(infra + valid)
    ensures Median(valid) > P95(infra + valid) as real
  {
    valid := seq(v, i => if i < v / 2 then 0 else 100);
    infra := seq(m, i => 0);
    RankInRange(v + m, 95);
    assert P95(infra + valid) == 0;
  }

  ghost predicate OrderedForAll(v: nat, m: nat) {
    forall valid: seq<int>, infra: seq<int>, a: seq<int> |
      Population(valid, infra, a) && |valid| == v && |infra| == m :: Median(valid) <= P95(a) as real
  }

  /** The sorted latencies of the valid runs and of all runs of a batch. */
  ghost predicate Population(valid: seq<int>, infra: seq<int>, a: seq<int>) {
    Ascending(valid) && Ascending(a) && multiset(a) == multiset(valid + infra) && a != []
  }

  /** The median of the valid runs stays within the p95 of all runs for every batch of `v` valid and
      `m` infra-invalid runs exactly when those counts are safe. */
  lemma OrderedExactlyWhenSafe(v: nat, m: nat)
    requires v + m > 0
    ensures OrderedForAll(v, m) <==> QuantilesSafe(v, m)
  {
    if QuantilesSafe(v, m) {
      forall valid: seq<int>, infra: seq<int>, a: seq<int> |
        Population(valid, infra, a) && |valid| == v && |infra| == m
        ensures Median(valid) <= P95(a) as real
      {
        SafeIsOrdered(valid, infra, a);
      }
    } else {
      var valid, infra := UnsafeIsUnordered(v, m);
      assert multiset(infra + valid) == multiset(valid + infra);
      assert Population(valid, infra, infra + valid);
    }
  }
}
