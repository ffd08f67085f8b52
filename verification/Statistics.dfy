/** Paired comparison of two evaluation summaries (agentloopgate/experiment/statistics.py, and compare
    of agentloopgate/evaluation/metrics.py).  The random generator is a stream of task indexes. */
module Statistics {
  import opened Common
  import opened Ordering
  import opened Quantiles
  import opened Records
  import opened Metrics

  datatype PairFault = PoolsDiffer | StageMismatch | TrialsDiffer | PopulationsDiffer | NoTasks | Incomplete | HasInfra
    | NoCandidate

  // ---- The paired bootstrap ----

  /** _verify_pair. */
  function PairFaultOf(r: Summary, c: Summary, expected: Pool): (out: Option<PairFault>) {
    if r.pool != c.pool then Some(PoolsDiffer)
    else if r.pool != expected then Some(StageMismatch)
    else if r.trials != c.trials then Some(TrialsDiffer)
    else if r.stable.Keys != c.stable.Keys then Some(PopulationsDiffer)
    else if r.stable == map[] then Some(NoTasks)
    else if !Complete(r) || !Complete(c) then Some(Incomplete)
    else if r.infraRuns != 0 || c.infraRuns != 0 then Some(HasInfra)
    else None
  }

  /** The accepted pairs: both batches of the expected pool with as many trials, over the same tasks and at
      least one, without integrity issue and without infra-invalid run. */
  lemma PairsByFields(r: Summary, c: Summary, expected: Pool)
    ensures PairFaultOf(r, c, expected).None? <==>
              && r.pool == expected && c.pool == expected && r.trials == c.trials
              && (exists task :: task in r.stable) && (forall task :: task in r.stable <==> task in c.stable)
              && r.issues == {} && c.issues == {} && r.infraRuns == 0 && c.infraRuns == 0
  {
    if PairFaultOf(r, c, expected).None? {
      var task :| task in r.stable;
    } else if r.pool == expected && c.pool == expected && forall task :: task in r.stable <==> task in c.stable {
      assert r.stable.Keys == c.stable.Keys;
    }
  }

  lemma PairedHasTasks(r: Summary, c: Summary, expected: Pool, tasks: seq<string>)
    requires PairFaultOf(r, c, expected).None? && TaskOrder(tasks, r)
    ensures tasks != [] && r.stable.Keys == c.stable.Keys
  {
    var task :| task in r.stable;
    assert task in tasks;
  }

  /** The tasks of a summary in their sorted order. */
  ghost predicate TaskOrder(tasks: seq<string>, s: Summary) {
    && (forall i, j | 0 <= i < j < |tasks| :: tasks[i] != tasks[j] && StringLe(tasks[i], tasks[j]))
    && (forall task :: task in tasks <==> task in s.stable)
  }

  function Difference(r: Summary, c: Summary, task: string): (out: int)
    requires task in r.stable && task in c.stable
  {
    (if c.stable[task] then 1 else 0) - (if r.stable[task] then 1 else 0)
  }

  function Differences(r: Summary, c: Summary, tasks: seq<string>): (out: seq<int>)
    requires forall task | task in tasks :: task in r.stable && task in c.stable
  {
    seq(|tasks|, i requires 0 <= i < |tasks| => Difference(r, c, tasks[i]))
  }

  /** One resample: the tasks that the index stream draws, with repetition. */
  function Resampled(differences: seq<int>, draws: seq<nat>): (r: int)
    requires Draws(draws, |differences|)
  {
    TotalInt(seq(|draws|, i requires 0 <= i < |draws| => differences[draws[i]]))
  }

  /** A stream of resamples, each of as many draws as there are tasks. */
  ghost predicate Stream(draws: seq<seq<nat>>, n: nat) {
    draws != [] && forall k | 0 <= k < |draws| :: Draws(draws[k], n)
  }

  predicate Draws(draw: seq<nat>, n: nat) {
    |draw| == n && forall i | 0 <= i < n :: draw[i] < n
  }

  function Nets(differences: seq<int>, draws: seq<seq<nat>>): (r: seq<int>)
    requires forall k | 0 <= k < |draws| :: Draws(draws[k], |differences|)
  {
    seq(|draws|, k requires 0 <= k < |draws| => Resampled(differences, draws[k]))
  }

  /** The nearest-rank quantile at `permille` thousandths. */
  function RankedAt(values: seq<int>, permille: nat): (r: int)
    requires values != [] && permille <= 1000
  {
    var rank := (permille * |values| + 999) / 1000;
    var index := (if rank < 1 then 1 else rank) - 1;
    values[if index < |values| then index else |values| - 1]
  }

  datatype Interval = Interval(net: int, rate: real, lower: real, upper: real)

  ghost predicate Bootstrapped(i: Interval, r: Summary, c: Summary, tasks: seq<string>, draws: seq<seq<nat>>)
    requires TaskOrder(tasks, r) && r.stable.Keys == c.stable.Keys && tasks != [] && Stream(draws, |tasks|)
  {
    var differences := Differences(r, c, tasks);
    var sorted := Sort(IntLe, Nets(differences, draws));
    var n := |tasks| as real;
    && sorted != [] && i.net == TotalInt(differences) && i.rate == i.net as real / n
    && i.lower == RankedAt(sorted, 25) as real / n && i.upper == RankedAt(sorted, 975) as real / n
  }

  // ---- Sums of differences ----

  lemma {:induction false} TotalBetween(s: seq<int>, low: int, high: int)
    requires forall i | 0 <= i < |s| :: low <= s[i] <= high
    ensures low * |s| <= TotalInt(s) <= high * |s|
  {
    if s == [] {
    } else {
      TotalBetween(s[..|s| - 1], low, high);
    }
  }

  lemma NetsBetween(differences: seq<int>, draws: seq<seq<nat>>, low: int, high: int)
    requires forall k | 0 <= k < |draws| :: Draws(draws[k], |differences|)
    requires forall i | 0 <= i < |differences| :: low <= differences[i] <= high
    ensures forall k | 0 <= k < |draws| :: low * |differences| <= Nets(differences, draws)[k] <= high * |differences|
  {
    forall k | 0 <= k < |draws|
      ensures low * |differences| <= Nets(differences, draws)[k] <= high * |differences|
    {
      var picked := seq(|draws[k]|, i requires 0 <= i < |draws[k]| => differences[draws[k][i]]);
      TotalBetween(picked, low, high);
    }
  }

  lemma RankedOrdered(values: seq<int>, p: nat, q: nat)
    requires values != [] && SortedBy(IntLe, values) && p <= q <= 1000
    ensures RankedAt(values, p) <= RankedAt(values, q)
    ensures RankedAt(values, p) in values && RankedAt(values, q) in values
  {
    var i, j := (p * |values| + 999) / 1000, (q * |values| + 999) / 1000;
    assert p * |values| <= q * |values|;
    assert i <= j;
    forall x, y | 0 <= x <= y < |values| ensures values[x] <= values[y] {
      assert x == y || IntLe(values[x], values[y]);
    }
  }

  /** The bounds of every resample bound the sorted nets and so both ends of the interval. */
  lemma EndsBetween(values: seq<int>, low: int, high: int)
    requires values != [] && forall k | 0 <= k < |values| :: low <= values[k] <= high
    ensures var sorted := Sort(IntLe, values);
            sorted != [] && low <= RankedAt(sorted, 25) <= RankedAt(sorted, 975) <= high
  {
    var sorted := Sort(IntLe, values);
    SortSorts(IntLe, values);
    SameElements(sorted, values);
    RankedOrdered(sorted, 25, 975);
    forall x | x in sorted ensures low <= x <= high {
      assert x in values;
      var k :| 0 <= k < |values| && values[k] == x;
    }
  }

  lemma Scaled(x: int, low: int, high: int, n: nat)
    requires n > 0 && low * n <= x <= high * n
    ensures low as real <= x as real / n as real <= high as real
  {
  }

  /** For every index stream the interval is ordered and, when each task contributes a difference from
      `low` to `high`, lies between them. */
  lemma IntervalBetween(i: Interval, r: Summary, c: Summary, tasks: seq<string>, draws: seq<seq<nat>>,
                        low: int, high: int)
    requires TaskOrder(tasks, r) && r.stable.Keys == c.stable.Keys && tasks != [] && Stream(draws, |tasks|)
    requires Bootstrapped(i, r, c, tasks, draws)
    requires forall task | task in tasks :: low <= Difference(r, c, task) <= high
    ensures low as real <= i.lower <= i.upper <= high as real
    ensures low as real <= i.rate <= high as real
  {
    var differences := Differences(r, c, tasks);
    var nets, n := Nets(differences, draws), |tasks|;
    assert forall k | 0 <= k < n :: tasks[k] in tasks;
    NetsBetween(differences, draws, low, high);
    EndsBetween(nets, low * n, high * n);
    TotalBetween(differences, low, high);
    var sorted := Sort(IntLe, nets);
    Scaled(RankedAt(sorted, 25), low, high, n);
    Scaled(RankedAt(sorted, 975), low, high, n);
    Scaled(i.net, low, high, n);
    Divide(RankedAt(sorted, 25), RankedAt(sorted, 975), n);
  }

  lemma Divide(x: int, y: int, n: nat)
    requires x <= y && n > 0
    ensures x as real / n as real <= y as real / n as real
  {
  }

  // ---- Main results ----

  /** Whatever the index stream, the comparison of an accepted pair passes the validator of
      PairedTaskBootstrapComparison, and its interval lies within [-1, 1]. */
  lemma IntervalIsOrdered(i: Interval, r: Summary, c: Summary, expected: Pool, tasks: seq<string>,
                          draws: seq<seq<nat>>)
    requires PairFaultOf(r, c, expected).None? && TaskOrder(tasks, r) && Stream(draws, |tasks|)
    requires tasks != [] ==> Bootstrapped(i, r, c, tasks, draws)
    ensures -1.0 <= i.lower <= i.upper <= 1.0 && -1.0 <= i.rate <= 1.0
    ensures Complete(r) && Complete(c) && r.infraRuns == 0 && c.infraRuns == 0
  {
    PairedHasTasks(r, c, expected, tasks);
    IntervalBetween(i, r, c, tasks, draws, -1, 1);
  }

  function Gains(r: Summary, c: Summary): (out: set<string>)
    requires r.stable.Keys == c.stable.Keys
  {
    set task | task in r.stable && c.stable[task] && !r.stable[task]
  }

  function Regressions(r: Summary, c: Summary): (out: set<string>)
    requires r.stable.Keys == c.stable.Keys
  {
    set task | task in r.stable && !c.stable[task] && r.stable[task]
  }

  /** Without a regression the interval does not go below zero. */
  lemma NoRegressionNoLoss(i: Interval, r: Summary, c: Summary, tasks: seq<string>, draws: seq<seq<nat>>)
    requires TaskOrder(tasks, r) && r.stable.Keys == c.stable.Keys && tasks != [] && Stream(draws, |tasks|)
    requires Bootstrapped(i, r, c, tasks, draws) && Regressions(r, c) == {}
    ensures 0.0 <= i.lower <= i.upper
  {
    forall task | task in tasks ensures 0 <= Difference(r, c, task) <= 1 {
      assert task !in Regressions(r, c);
    }
    IntervalBetween(i, r, c, tasks, draws, 0, 1);
  }

  /** Comparing a batch with itself is a null contrast for every index stream. */
  lemma SelfComparisonIsNull(i: Interval, r: Summary, tasks: seq<string>, draws: seq<seq<nat>>)
    requires TaskOrder(tasks, r) && tasks != [] && Stream(draws, |tasks|) && Bootstrapped(i, r, r, tasks, draws)
    ensures i.net == 0 && i.rate == 0.0 && i.lower == 0.0 && i.upper == 0.0
  {
    IntervalBetween(i, r, r, tasks, draws, 0, 0);
    TotalBetween(Differences(r, r, tasks), 0, 0);
  }

  /** Aliased snapshots have the same batches, so the check of build_selector_ablation on their comparisons,
      that the net and both ends are zero, never raises. */
  lemma AliasCheckNeverRaises(comparisons: seq<Interval>, batches: seq<Summary>, tasks: seq<seq<string>>,
                              draws: seq<seq<seq<nat>>>)
    requires |comparisons| == |batches| == |tasks| == |draws|
    requires forall k | 0 <= k < |batches| :: TaskOrder(tasks[k], batches[k]) && tasks[k] != []
                                              && Stream(draws[k], |tasks[k]|)
    requires forall k | 0 <= k < |batches| :: Bootstrapped(comparisons[k], batches[k], batches[k], tasks[k], draws[k])
    ensures forall i | i in comparisons :: i.net == 0 && i.lower == 0.0 && i.upper == 0.0
  {
    forall i | i in comparisons ensures i.net == 0 && i.lower == 0.0 && i.upper == 0.0 {
      var k :| 0 <= k < |comparisons| && comparisons[k] == i;
      SelfComparisonIsNull(comparisons[k], batches[k], tasks[k], draws[k]);
    }
  }

  ghost predicate Among(tasks: seq<string>, s: Summary) {
    Distinct(tasks) && forall task | task in tasks :: task in s.stable
  }

  ghost function Which(tasks: seq<string>, all: set<string>): (r: set<string>) {
    set task | task in tasks && task in all
  }

  /** The sum of the differences counts gains less regressions. */
  lemma {:induction false} NetCounts(r: Summary, c: Summary, tasks: seq<string>)
    requires r.stable.Keys == c.stable.Keys && Among(tasks, r)
    ensures TotalInt(Differences(r, c, tasks))
         == |Which(tasks, Gains(r, c))| - |Which(tasks, Regressions(r, c))|
  {
    if tasks == [] {
      assert Which(tasks, Gains(r, c)) == {} && Which(tasks, Regressions(r, c)) == {};
    } else {
      var rest, task := tasks[..|tasks| - 1], tasks[|tasks| - 1];
      assert tasks == rest + [task];
      NetCounts(r, c, rest);
      assert Differences(r, c, tasks)[..|rest|] == Differences(r, c, rest);
      assert task !in rest;
      WhichStep(rest, task, Gains(r, c));
      WhichStep(rest, task, Regressions(r, c));
    }
  }

  lemma WhichStep(rest: seq<string>, task: string, all: set<string>)
    requires task !in rest
    ensures |Which(rest + [task], all)| == |Which(rest, all)| + (if task in all then 1 else 0)
  {
    assert Which(rest + [task], all) == Which(rest, all) + (if task in all then {task} else {});
  }

  lemma StableBalance(r: Summary, c: Summary)
    requires r.stable.Keys == c.stable.Keys
    ensures |TrueKeys(c.stable)| - |TrueKeys(r.stable)| == |Gains(r, c)| - |Regressions(r, c)|
  {
    var both := TrueKeys(c.stable) * TrueKeys(r.stable);
    assert TrueKeys(c.stable) == both + Gains(r, c) && both !! Gains(r, c);
    assert TrueKeys(r.stable) == both + Regressions(r, c) && both !! Regressions(r, c);
  }

  /** The stable count of a summary, which no validator checks, is the number of its stable tasks. */
  predicate CountsStable(s: Summary) { s.stableCount == |TrueKeys(s.stable)| }

  // ---- compare ----

  datatype Comparison = Comparison(
    net: int, catastrophic: set<string>, costRatio: Option<real>, latencyRatio: Option<real>)

  function Ratio(x: real, y: real): (r: Option<real>) {
    if y == 0.0 then if x == 0.0 then Some(1.0) else None else Some(x / y)
  }

  /** Stable baseline tasks that the candidate never solves. */
  function Catastrophic(b: Summary, c: Summary): (r: set<string>) {
    set task | task in b.stable && b.stable[task] && task in c.successCounts && c.successCounts[task] == 0
  }

  function Compare(b: Summary, c: Summary): (r: Result<Comparison, PairFault>) {
    if b.pool != c.pool then Failure(PoolsDiffer)
    else if b.trials != c.trials then Failure(TrialsDiffer)
    else if b.stable.Keys != c.stable.Keys then Failure(PopulationsDiffer)
    else if b.successCounts.Keys != c.successCounts.Keys then Failure(PopulationsDiffer)
    else if c.candidateId.None? then Failure(NoCandidate)
    else Success(Comparison(
      c.stableCount - b.stableCount,
      Catastrophic(b, c),
      Ratio(c.meanCost, b.meanCost), Ratio(c.p50Latency, b.p50Latency)))
  }

  /** Which summaries compare, and what a comparison says, field by field: the net of the two stable counts,
      the tasks that the baseline has stable and the candidate never solves, and the two ratios, which are
      one at zero over zero and missing at anything else over zero. */
  lemma ComparedByFields(b: Summary, c: Summary)
    ensures Compare(b, c).Success? <==>
              && b.pool == c.pool && b.trials == c.trials && c.candidateId.Some?
              && (forall task :: task in b.stable <==> task in c.stable)
              && (forall task :: task in b.successCounts <==> task in c.successCounts)
    ensures Compare(b, c).Success? ==>
            var r := Compare(b, c).value;
            && r.net == c.stableCount - b.stableCount
            && (forall task :: task in r.catastrophic <==>
                  task in b.stable && b.stable[task] && task in c.successCounts && c.successCounts[task] == 0)
            && IsRatio(r.costRatio, c.meanCost, b.meanCost) && IsRatio(r.latencyRatio, c.p50Latency, b.p50Latency)
  {
    QuotientIsRatio(c.meanCost, b.meanCost);
    QuotientIsRatio(c.p50Latency, b.p50Latency);
    assert (forall task :: task in b.stable <==> task in c.stable) ==> b.stable.Keys == c.stable.Keys;
    assert (forall task :: task in b.successCounts <==> task in c.successCounts) ==>
        b.successCounts.Keys == c.successCounts.Keys;
  }

  ghost predicate IsRatio(r: Option<real>, x: real, y: real) {
    if y != 0.0 then r.Some? && r.value * y == x
    else if x == 0.0 then r == Some(1.0)
    else r == None
  }

  lemma QuotientIsRatio(x: real, y: real)
    ensures IsRatio(Ratio(x, y), x, y)
  {
  }

  /** The net of the bootstrap is gains less regressions over all tasks; it is the net of compare exactly
      when the two stable counts are off by the same amount. */
  lemma NetsAgree(i: Interval, r: Summary, c: Summary, tasks: seq<string>, draws: seq<seq<nat>>)
    requires TaskOrder(tasks, r) && r.stable.Keys == c.stable.Keys && tasks != [] && Stream(draws, |tasks|)
    requires Bootstrapped(i, r, c, tasks, draws)
    ensures i.net == |Gains(r, c)| - |Regressions(r, c)|
    ensures Compare(r, c).Success? ==>
              (i.net == Compare(r, c).value.net <==>
                 c.stableCount - |TrueKeys(c.stable)| == r.stableCount - |TrueKeys(r.stable)|)
  {
    NetCounts(r, c, tasks);
    assert Which(tasks, Gains(r, c)) == Gains(r, c);
    assert Which(tasks, Regressions(r, c)) == Regressions(r, c);
    StableBalance(r, c);
  }

  /** The validator of EvaluationSummary. */
  ghost predicate ValidSummary(s: Summary) {
    && s.trials >= 1 && s.stable.Keys == s.successCounts.Keys
    && forall task | task in s.stable :: s.successCounts[task] <= s.trials
         && (s.stable[task] <==> s.successCounts[task] == s.trials)
  }

  /** A pair of summaries that pass their validators and can be compared, and whose two nets differ: the
      candidate gains the only task and miscounts its stable tasks. */
  lemma NetsCanDiffer() returns (r: Summary, c: Summary)
    ensures ValidSummary(r) && ValidSummary(c) && Compare(r, c).Success? && CountsStable(r)
    ensures |Gains(r, c)| - |Regressions(r, c)| == 1 && Compare(r, c).value.net == 0
    ensures forall i, tasks, draws | TaskOrder(tasks, r) && tasks != [] && Stream(draws, |tasks|)
              && Bootstrapped(i, r, c, tasks, draws) :: i.net != Compare(r, c).value.net
  {
    r := Summary(Pool.Selection, "a", None, 1, 1, 1, 0, 0, 0, map["t" := false], map["t" := 0], 0, 0.0, 0.0, {});
    c := Summary(Pool.Selection, "b", Some("c"), 1, 1, 1, 0, 1, 0, map["t" := true], map["t" := 1], 0, 0.0, 0.0, {});
    assert TrueKeys(r.stable) == {} && Gains(r, c) == {"t"} && Regressions(r, c) == {};
    forall i, tasks, draws | TaskOrder(tasks, r) && tasks != [] && Stream(draws, |tasks|)
      && Bootstrapped(i, r, c, tasks, draws)
      ensures i.net != Compare(r, c).value.net
    {
      NetsAgree(i, r, c, tasks, draws);
    }
  }

  /** The places of a resample that drew one of the tasks in `all`. */
  ghost function DrawnFrom(tasks: seq<string>, draw: seq<nat>, all: set<string>): (r: set<nat>) {
    set k | 0 <= k < |draw| && draw[k] < |tasks| && tasks[draw[k]] in all
  }

  lemma {:induction false} ResampleNets(r: Summary, c: Summary, tasks: seq<string>, draw: seq<nat>, picked: seq<int>)
    requires r.stable.Keys == c.stable.Keys && forall task | task in tasks :: task in r.stable
    requires |picked| == |draw|
    requires forall k | 0 <= k < |draw| :: draw[k] < |tasks| && picked[k] == Differences(r, c, tasks)[draw[k]]
    ensures TotalInt(picked) == |DrawnFrom(tasks, draw, Gains(r, c))| - |DrawnFrom(tasks, draw, Regressions(r, c))|
    decreases |draw|
  {
    if draw == [] {
      assert DrawnFrom(tasks, draw, Gains(r, c)) == {} && DrawnFrom(tasks, draw, Regressions(r, c)) == {};
    } else {
      var k := |draw| - 1;
      var task := tasks[draw[k]];
      ResampleNets(r, c, tasks, draw[..k], picked[..k]);
      DrawnOneMore(tasks, draw, Gains(r, c));
      DrawnOneMore(tasks, draw, Regressions(r, c));
      assert task in tasks && picked[k] == Difference(r, c, task);
    }
  }

  lemma DrawnOneMore(tasks: seq<string>, draw: seq<nat>, all: set<string>)
    requires draw != [] && draw[|draw| - 1] < |tasks|
    ensures var k := |draw| - 1;
            |DrawnFrom(tasks, draw, all)| == |DrawnFrom(tasks, draw[..k], all)| + if tasks[draw[k]] in all then 1 else 0
  {
    var k := |draw| - 1;
    assert DrawnFrom(tasks, draw, all) == DrawnFrom(tasks, draw[..k], all) + if tasks[draw[k]] in all then {k} else {};
  }

  /** Every resample nets the gained tasks that it drew against the regressed ones, with repetition. */
  lemma ResampleCounts(r: Summary, c: Summary, tasks: seq<string>, draws: seq<seq<nat>>, k: nat)
    requires TaskOrder(tasks, r) && r.stable.Keys == c.stable.Keys && Stream(draws, |tasks|) && k < |draws|
    ensures |Nets(Differences(r, c, tasks), draws)| == |draws|
    ensures Nets(Differences(r, c, tasks), draws)[k]
         == |DrawnFrom(tasks, draws[k], Gains(r, c))| - |DrawnFrom(tasks, draws[k], Regressions(r, c))|
  {
    var differences, draw := Differences(r, c, tasks), draws[k];
    var picked := seq(|draw|, i requires 0 <= i < |draw| => differences[draw[i]]);
    ResampleNets(r, c, tasks, draw, picked);
  }

  /** Fewer than `share` thousandths of a value lie below `x`, and at least as many at or below it. */
  ghost predicate IsQuantile(values: seq<int>, share: nat, x: int) {
    1000 * CountBelow(values, x) < share <= 1000 * CountBelow(values, x + 1)
  }

  lemma Rank(share: nat, n: nat) returns (rank: nat)
    requires 1 <= share <= 1000 * n
    ensures rank == (share + 999) / 1000 && 1 <= rank <= n && 1000 * (rank - 1) < share <= 1000 * rank
  {
    rank := (share + 999) / 1000;
  }

  lemma RankedAtRank(sorted: seq<int>, permille: nat, share: nat) returns (rank: nat)
    requires sorted != [] && permille <= 1000 && share == permille * |sorted| && 1 <= share <= 1000 * |sorted|
    ensures 1 <= rank <= |sorted| && RankedAt(sorted, permille) == sorted[rank - 1]
    ensures 1000 * (rank - 1) < share <= 1000 * rank
  {
    rank := Rank(share, |sorted|);
  }

  lemma RankedIsQuantile(values: seq<int>, sorted: seq<int>, permille: nat, share: nat)
    requires sorted != [] && SortedBy(IntLe, sorted) && multiset(sorted) == multiset(values)
    requires permille <= 1000 && share == permille * |sorted| && 1 <= share <= 1000 * |sorted|
    ensures IsQuantile(values, share, RankedAt(sorted, permille))
  {
    var rank := RankedAtRank(sorted, permille, share);
    CountsAtRank(sorted, values, rank - 1);
  }

  /** The ends of the interval are the nearest-rank quantiles of the resampled nets at 2.5 and 97.5 percent,
      per task. */
  lemma EndsAreQuantiles(i: Interval, r: Summary, c: Summary, tasks: seq<string>, draws: seq<seq<nat>>)
    returns (low: int, high: int)
    requires TaskOrder(tasks, r) && r.stable.Keys == c.stable.Keys && tasks != [] && Stream(draws, |tasks|)
    requires Bootstrapped(i, r, c, tasks, draws)
    ensures var nets := Nets(Differences(r, c, tasks), draws);
            IsQuantile(nets, 25 * |nets|, low) && IsQuantile(nets, 975 * |nets|, high)
    ensures i.lower == low as real / |tasks| as real && i.upper == high as real / |tasks| as real
  {
    var nets := Nets(Differences(r, c, tasks), draws);
    var sorted := Sort(IntLe, nets);
    SortSorts(IntLe, nets);
    RankedIsQuantile(nets, sorted, 25, 25 * |nets|);
    RankedIsQuantile(nets, sorted, 975, 975 * |nets|);
    low, high := RankedAt(sorted, 25), RankedAt(sorted, 975);
  }

  /** Summaries made by summarize count their stable tasks, so for them the two nets agree. */
  lemma SummariesCountStable(records: seq<RunRecord>, context: RunContext, verified: set<string>)
    ensures CountsStable(SummaryOf(records, context, verified))
  {
  }

  /** Catastrophic tasks are regressions, so a net gain is possible only if gains outnumber them. */
  lemma CatastrophicIsRegression(b: Summary, c: Summary)
    requires Compare(b, c).Success? && ValidSummary(b) && ValidSummary(c) && CountsStable(b) && CountsStable(c)
    ensures Compare(b, c).value.catastrophic <= Regressions(b, c)
    ensures Compare(b, c).value.net <= |Gains(b, c)| - |Compare(b, c).value.catastrophic|
    ensures b == c ==> Compare(b, c).value.net == 0 && Compare(b, c).value.catastrophic == {}
  {
    StableBalance(b, c);
    var catastrophic := Compare(b, c).value.catastrophic;
    assert catastrophic <= Regressions(b, c);
    SubsetSize(catastrophic, Regressions(b, c));
  }
}
