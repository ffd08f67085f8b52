/** What a raw benchmark result means once it is ingested and summarized (agentloopgate/adapters/tau3.py,
    _ingest and _record; agentloopgate/evaluation/metrics.py, summarize). */
module IngestedSummary {
  import opened Common
  import opened Ordering
  import opened Records
  import opened Metrics
  import opened Quantiles
  import Ingest
  import BatchGate

  // ---- Sums over simulations ----

  /** One for a scored simulation that succeeded. */
  function SuccessOf(s: Simulation): (r: int) { if !s.infra && s.success then 1 else 0 }

  function ScoredOf(s: Simulation): (r: int) { if s.infra then 0 else 1 }

  function ScoredCostOf(s: Simulation): (r: real) { if !s.infra && s.agentCost.Some? then s.agentCost.value else 0.0 }

  /** Where a simulation was scored. */
  ghost function ScoredAt(sims: seq<Simulation>): (r: set<nat>) {
    set i | 0 <= i < |sims| && !sims[i].infra
  }

  /** Where one was scored and succeeded. */
  ghost function SucceededAt(sims: seq<Simulation>): (r: set<nat>) {
    set i | 0 <= i < |sims| && !sims[i].infra && sims[i].success
  }

  /** The agent cost of the scored simulations. */
  ghost function ScoredCost(sims: seq<Simulation>): (r: real) {
    if sims == [] then 0.0
    else
      var last := sims[|sims| - 1];
      ScoredCost(sims[..|sims| - 1]) + if !last.infra && last.agentCost.Some? then last.agentCost.value else 0.0
  }

  lemma IntPush(f: Simulation -> int, sims: seq<Simulation>)
    requires sims != []
    ensures TotalInt(Map(f, sims)) == TotalInt(Map(f, sims[..|sims| - 1])) + f(sims[|sims| - 1])
  {
    assert Map(f, sims)[..|sims| - 1] == Map(f, sims[..|sims| - 1]);
  }

  lemma RealPush(f: Simulation -> real, sims: seq<Simulation>)
    requires sims != []
    ensures Total(Map(f, sims)) == Total(Map(f, sims[..|sims| - 1])) + f(sims[|sims| - 1])
  {
    assert Map(f, sims)[..|sims| - 1] == Map(f, sims[..|sims| - 1]);
  }

  lemma {:induction false} SuccessesAreSet(sims: seq<Simulation>)
    ensures TotalInt(Map(SuccessOf, sims)) == |SucceededAt(sims)|
  {
    if sims == [] {
    } else {
      var k := |sims| - 1;
      SuccessesAreSet(sims[..k]);
      IntPush(SuccessOf, sims);
      assert SucceededAt(sims) == SucceededAt(sims[..k]) + if SuccessOf(sims[k]) == 1 then {k} else {};
    }
  }

  lemma {:induction false} ScoredAreSet(sims: seq<Simulation>)
    ensures TotalInt(Map(ScoredOf, sims)) == |ScoredAt(sims)|
  {
    if sims == [] {
    } else {
      var k := |sims| - 1;
      ScoredAreSet(sims[..k]);
      IntPush(ScoredOf, sims);
      assert ScoredAt(sims) == ScoredAt(sims[..k]) + if ScoredOf(sims[k]) == 1 then {k} else {};
    }
  }

  lemma {:induction false} CostIsSum(sims: seq<Simulation>)
    ensures Total(Map(ScoredCostOf, sims)) == ScoredCost(sims)
  {
    if sims == [] {
    } else {
      CostIsSum(sims[..|sims| - 1]);
      RealPush(ScoredCostOf, sims);
    }
  }

  lemma SumsPermute(a: seq<Simulation>, b: seq<Simulation>)
    requires multiset(a) == multiset(b)
    ensures TotalInt(Map(SuccessOf, a)) == TotalInt(Map(SuccessOf, b))
    ensures TotalInt(Map(ScoredOf, a)) == TotalInt(Map(ScoredOf, b))
    ensures Total(Map(ScoredCostOf, a)) == Total(Map(ScoredCostOf, b))
  {
    MapPermutes(SuccessOf, a, b);
    MapPermutes(ScoredOf, a, b);
    MapPermutes(ScoredCostOf, a, b);
    TotalIntPermutes(Map(SuccessOf, a), Map(SuccessOf, b));
    TotalIntPermutes(Map(ScoredOf, a), Map(ScoredOf, b));
    TotalPermutes(Map(ScoredCostOf, a), Map(ScoredCostOf, b));
  }

  // ---- From records to simulations ----

  /** The valid records carry the sums of their simulations. */
  lemma {:induction false} ValidsCarry(sims: seq<Simulation>, c: RunContext)
    ensures var valid := Valids(Ingest.RecordsOf(sims, c));
            && CountSuccess(valid) == TotalInt(Map(SuccessOf, sims))
            && |valid| == TotalInt(Map(ScoredOf, sims))
            && TotalCost(valid) == Total(Map(ScoredCostOf, sims))
  {
    if sims == [] {
    } else {
      var k := |sims| - 1;
      var records := Ingest.RecordsOf(sims, c);
      ValidsCarry(sims[..k], c);
      assert records[..k] == Ingest.RecordsOf(sims[..k], c);
      IntPush(SuccessOf, sims);
      IntPush(ScoredOf, sims);
      RealPush(ScoredCostOf, sims);
      SuccessPush(Valids(records[..k]), records[k]);
      CostPush(Valids(records[..k]), records[k]);
    }
  }

  lemma SuccessPush(valid: seq<RunRecord>, x: RunRecord)
    ensures CountSuccess(valid + [x]) == CountSuccess(valid) + if x.success == Some(true) then 1 else 0
  {
    assert (valid + [x])[..|valid|] == valid;
  }

  lemma CostPush(valid: seq<RunRecord>, x: RunRecord)
    ensures TotalCost(valid + [x]) == TotalCost(valid) + if x.cost.Some? then x.cost.value else 0.0
  {
    assert Map(CostOf, valid + [x]) == Map(CostOf, valid) + [CostOf(x)];
    TotalAdds(Map(CostOf, valid), [CostOf(x)]);
    assert [CostOf(x)][..0] == [];
  }

  // ---- Main results ----

  lemma Sorted(sims: seq<Simulation>)
    ensures multiset(Sort(Ingest.RunFirst, sims)) == multiset(sims)
  {
    Ingest.RunOrder();
    SortSorts(Ingest.RunFirst, sims);
  }

  lemma SummaryFields(records: seq<RunRecord>, c: RunContext, verified: set<string>, s: Summary)
    requires s == SummaryOf(records, c, verified)
    ensures s.passNumerator == CountSuccess(Valids(records)) && s.validRuns == |Valids(records)|
    ensures s.meanCost == MeanOf(TotalCost(Valids(records)), s.validRuns)
  {
  }

  ghost function MeanOf(total: real, n: nat): (r: real) {
    if n == 0 then 0.0 else total / n as real
  }

  /** The summary of an accepted population: the Pass^1 numerator counts the scored simulations that
      succeeded, the valid runs count the scored ones, and the mean cost is the mean of their agent cost. */
  lemma SummaryOfSimulations(sims: seq<Simulation>, c: RunContext, verified: set<string>, records: seq<RunRecord>,
                             s: Summary)
    requires records == Ingest.RecordsOf(Sort(Ingest.RunFirst, sims), c) && s == SummaryOf(records, c, verified)
    ensures s.passNumerator == |SucceededAt(sims)| && s.validRuns == |ScoredAt(sims)|
    ensures s.meanCost == MeanOf(ScoredCost(sims), |ScoredAt(sims)|)
  {
    SummaryFields(records, c, verified, s);
    ValidsOfSimulations(sims, c, records);
  }

  lemma ValidsOfSimulations(sims: seq<Simulation>, c: RunContext, records: seq<RunRecord>)
    requires records == Ingest.RecordsOf(Sort(Ingest.RunFirst, sims), c)
    ensures var valid := Valids(records);
            && CountSuccess(valid) == |SucceededAt(sims)| && |valid| == |ScoredAt(sims)|
            && TotalCost(valid) == ScoredCost(sims)
  {
    var sorted := Sort(Ingest.RunFirst, sims);
    Sorted(sims);
    ValidsCarry(sorted, c);
    SumsPermute(sorted, sims);
    SuccessesAreSet(sims);
    ScoredAreSet(sims);
    CostIsSum(sims);
  }

  /** The trial of a simulation was won if and only if it was scored and succeeded. */
  lemma TrialOfSimulation(sims: seq<Simulation>, sorted: seq<Simulation>, c: RunContext, records: seq<RunRecord>,
                          runs: map<Trial, RunRecord>, s: Simulation)
    requires s in sims && Ingest.DistinctRuns(sims) && (forall x :: x in sims <==> x in sorted)
    requires records == Ingest.RecordsOf(sorted, c) && Indexes(runs, records)
    ensures (s.taskId, s.trial + 1) in Successes(runs) <==> !s.infra && s.success
  {
    forall x | x in sims && Ingest.Pair(x) == Ingest.Pair(s) ensures x == s {
      var i :| 0 <= i < |sims| && sims[i] == s;
      var j :| 0 <= j < |sims| && sims[j] == x;
    }
    var i :| 0 <= i < |sorted| && sorted[i] == s;
    assert records[i] in records;
    if (s.taskId, s.trial + 1) in runs {
      var r := runs[(s.taskId, s.trial + 1)];
      var j :| 0 <= j < |records| && records[j] == r;
      assert Ingest.Pair(sorted[j]) == Ingest.Pair(s) && sorted[j] in sims;
    }
  }

  lemma StableField(records: seq<RunRecord>, c: RunContext, verified: set<string>, task: string)
    requires task in c.taskIds
    ensures var s := SummaryOf(records, c, verified);
            task in s.stable && s.stable[task] == AllTrials(Successes(ByTrial(records)), task, c.trials)
  {
  }

  /** All trials of a task were won if and only if all its simulations were scored and succeeded. */
  lemma AllTrialsWon(sims: seq<Simulation>, c: RunContext, wins: set<Trial>, task: string)
    requires task in c.taskIds && Ingest.Pairs(sims) == Ingest.ExpectedPairs(c)
    requires forall s | s in sims :: (s.taskId, s.trial + 1) in wins <==> !s.infra && s.success
    ensures AllTrials(wins, task, c.trials) <==> forall s | s in sims && s.taskId == task :: !s.infra && s.success
  {
    forall s | s in sims && s.taskId == task ensures 1 <= s.trial + 1 <= c.trials {
      assert Ingest.Pair(s) in Ingest.Pairs(sims);
    }
    if forall s | s in sims && s.taskId == task :: !s.infra && s.success {
      forall k | 1 <= k <= c.trials ensures (task, k) in wins {
        assert (task, k - 1) in Ingest.ExpectedPairs(c);
        var s :| s in sims && Ingest.Pair(s) == (task, k - 1);
      }
    }
    if AllTrials(wins, task, c.trials) {
      forall s | s in sims && s.taskId == task ensures !s.infra && s.success {
        assert (task, s.trial + 1) in wins;
      }
    }
  }

  /** A task of an accepted full population is stable if and only if all its simulations were scored and
      succeeded. */
  lemma StableOfSimulations(listed: set<string>, sims: seq<Simulation>, c: RunContext, verified: set<string>,
                            records: seq<RunRecord>, task: string)
    requires ValidContext(c) && Ingest.Ingestible(listed, sims, c, None) && task in c.taskIds
    requires records == Ingest.RecordsOf(Sort(Ingest.RunFirst, sims), c)
    ensures var s := SummaryOf(records, c, verified);
            task in s.stable
            && (s.stable[task] <==> forall x | x in sims && x.taskId == task :: !x.infra && x.success)
  {
    BatchGate.IngestedBatch(listed, sims, c, verified);
    RunsAreValids(records, c);
    var sorted := Sort(Ingest.RunFirst, sims);
    Sorted(sims);
    SameElements(sorted, sims);
    forall s | s in sims
      ensures (s.taskId, s.trial + 1) in Successes(ByTrial(records)) <==> !s.infra && s.success
    {
      TrialOfSimulation(sims, sorted, c, records, ByTrial(records), s);
    }
    AllTrialsWon(sims, c, Successes(ByTrial(records)), task);
    StableField(records, c, verified, task);
  }
}
