/** Strict Pass^k aggregation (agentloopgate/evaluation/metrics.py). */
module Metrics {
  import opened Common
  import opened Ordering
  import opened Quantiles
  import opened Records

  type Trial = (string, int)

  datatype Issue = UnverifiedEvidence | MissingValidTrials

  datatype IntegrityFault = DuplicateRun | ContextMismatch | UnexpectedTask | TrialOutOfRange | DuplicateTrial

  datatype Summary = Summary(
    pool: Pool,
    snapshotId: string,
    candidateId: Option<string>,
    trials: nat,
    expectedTasks: nat,
    validRuns: nat,
    infraRuns: nat,
    passNumerator: nat,
    stableCount: nat,
    stable: map<string, bool>,
    successCounts: map<string, nat>,
    criticalViolations: int,
    meanCost: real,
    p50Latency: real,
    issues: set<Issue>)

  predicate Complete(s: Summary) { s.issues == {} }

  function TrialOf(r: RunRecord): (out: Trial) { (r.taskId, r.trialIndex) }

  ghost predicate Belongs(r: RunRecord, c: RunContext) {
    && r.pool == c.pool && r.snapshotId == c.snapshotId && r.candidateId == c.candidateId
    && r.taskId in c.taskIds && 1 <= r.trialIndex <= c.trials
  }

  /** The records that a summary accepts: unique runs of this context and population, with at most one
      valid run per task and trial. */
  ghost predicate Summarizable(records: seq<RunRecord>, c: RunContext) {
    && (forall r | r in records :: Belongs(r, c))
    && (forall i, j | 0 <= i < j < |records| :: records[i].runId != records[j].runId)
    && (forall i, j | 0 <= i < j < |records| && records[i].valid && records[j].valid ::
          TrialOf(records[i]) != TrialOf(records[j]))
  }

  // ---- The aggregates ----

  function Valids(records: seq<RunRecord>): (out: seq<RunRecord>) {
    if records == [] then []
    else
      var rest, r := Valids(records[..|records| - 1]), records[|records| - 1];
      if r.valid then rest + [r] else rest
  }

  function ByTrial(records: seq<RunRecord>): (out: map<Trial, RunRecord>) {
    if records == [] then map[]
    else
      var rest, r := ByTrial(records[..|records| - 1]), records[|records| - 1];
      if r.valid then rest[TrialOf(r) := r] else rest
  }

  function Successes(runs: map<Trial, RunRecord>): (r: set<Trial>) {
    set t | t in runs && runs[t].success == Some(true)
  }

  function CountSuccess(records: seq<RunRecord>): (r: nat) {
    if records == [] then 0
    else CountSuccess(records[..|records| - 1]) + (if records[|records| - 1].success == Some(true) then 1 else 0)
  }

  /** How many trials of a task are in `s`, among the first `trials`. */
  function CountAt(s: set<Trial>, task: string, trials: nat): (r: nat) {
    if trials == 0 then 0 else CountAt(s, task, trials - 1) + (if (task, trials) in s then 1 else 0)
  }

  function AllTrials(s: set<Trial>, task: string, trials: nat): (r: bool) {
    forall k | 1 <= k <= trials :: (task, k) in s
  }

  function ExpectedTrials(c: RunContext): (r: set<Trial>) {
    set task, k | task in c.taskIds && 1 <= k <= c.trials :: (task, k)
  }

  function CountTrue(m: map<string, bool>): (r: nat) {
    |set task | task in m && m[task]|
  }

  function Violations(records: seq<RunRecord>): (r: int) {
    TotalInt(Map(ViolationsOf, records))
  }

  function ViolationsOf(r: RunRecord): (out: int) { r.criticalViolations }

  function LatencyOf(r: RunRecord): (out: int) { r.latencyMs }

  function CostOf(r: RunRecord): (out: real) { if r.cost.Some? then r.cost.value else 0.0 }

  function TotalCost(records: seq<RunRecord>): (r: real) {
    Total(Map(CostOf, records))
  }

  function Latencies(records: seq<RunRecord>): (r: seq<int>) {
    Map(LatencyOf, records)
  }

  function IssuesOf(runs: map<Trial, RunRecord>, c: RunContext, unverified: bool): (r: set<Issue>) {
    (if unverified then {UnverifiedEvidence} else {})
    + (if runs.Keys != ExpectedTrials(c) then {MissingValidTrials} else {})
  }

  /** The summary of accepted records. */
  function SummaryOf(records: seq<RunRecord>, c: RunContext, verified: set<string>): (out: Summary) {
    var runs, valid := ByTrial(records), Valids(records);
    var successes := Successes(runs);
    var stable := map task | task in c.taskIds :: AllTrials(successes, task, c.trials);
    Summary(
      c.pool, c.snapshotId, c.candidateId, c.trials, |c.taskIds|,
      |valid|, if |valid| <= |records| then |records| - |valid| else 0, CountSuccess(valid), CountTrue(stable), stable,
      map task | task in c.taskIds :: CountAt(successes, task, c.trials),
      Violations(valid),
      if valid == [] then 0.0 else TotalCost(valid) / |valid| as real,
      Median(Sort(IntLe, Latencies(valid))),
      IssuesOf(runs, c, exists r | r in records :: r.runId !in verified))
  }

  lemma {:induction false} ValidsFewer(records: seq<RunRecord>)
    ensures |Valids(records)| <= |records|
  {
    if records == [] {
    } else {
      ValidsFewer(records[..|records| - 1]);
    }
  }

  /** What the audit loop has gathered. */
  datatype Audited = Audited(runs: map<Trial, RunRecord>, valid: seq<RunRecord>, infra: nat, unverified: bool)

  ghost predicate Gathered(a: Audited, records: seq<RunRecord>, verified: set<string>) {
    && a.runs == ByTrial(records) && a.valid == Valids(records)
    && a.infra == |records| - |a.valid|
    && (a.unverified <==> exists r :: r in records && r.runId !in verified)
    && (forall t :: t in a.runs <==> exists r :: r in records && r.valid && TrialOf(r) == t)
  }

  function Gather(a: Audited, x: RunRecord, verified: set<string>): (r: Audited) {
    var unverified := a.unverified || x.runId !in verified;
    if x.valid then Audited(a.runs[TrialOf(x) := x], a.valid + [x], a.infra, unverified)
    else a.(infra := a.infra + 1, unverified := unverified)
  }

  lemma GatherOne(a: Audited, before: seq<RunRecord>, x: RunRecord, verified: set<string>)
    requires Gathered(a, before, verified)
    ensures Gathered(Gather(a, x, verified), before + [x], verified)
  {
  }

  method Audit(records: seq<RunRecord>, c: RunContext, verified: set<string>)
    returns (r: Result<Audited, IntegrityFault>)
    ensures r.Success? <==> Summarizable(records, c)
    ensures r.Success? ==> Gathered(r.value, records, verified)
  {
    var a := Audited(map[], [], 0, false);
    var seen: set<string> := {};
    for k := 0 to |records|
      invariant Summarizable(records[..k], c)
      invariant seen == set r | r in records[..k] :: r.runId
      invariant Gathered(a, records[..k], verified)
    {
      ghost var before := records[..k];
      var x := records[k];
      assert records[..k + 1] == before + [x];
      assert x in records;
      if x.runId in seen {
        ghost var y :| y in before && y.runId == x.runId;
        ghost var i :| 0 <= i < k && records[i] == y;
        return Failure(DuplicateRun);
      }
      if x.pool != c.pool || x.snapshotId != c.snapshotId || x.candidateId != c.candidateId {
        return Failure(ContextMismatch);
      }
      if x.taskId !in c.taskIds {
        return Failure(UnexpectedTask);
      }
      if !(1 <= x.trialIndex <= c.trials) {
        return Failure(TrialOutOfRange);
      }
      if x.valid && TrialOf(x) in a.runs {
        ghost var y :| y in before && y.valid && TrialOf(y) == TrialOf(x);
        ghost var i :| 0 <= i < k && records[i] == y;
        return Failure(DuplicateTrial);
      }
      ExtendSummarizable(before, x, c);
      GatherOne(a, before, x, verified);
      seen := seen + {x.runId};
      a := Gather(a, x, verified);
    }
    assert records[..|records|] == records;
    return Success(a);
  }

  /** Audits the records one by one, then aggregates the valid ones. */
  method Summarize(records: seq<RunRecord>, c: RunContext, verified: set<string>)
    returns (r: Result<Summary, IntegrityFault>)
    requires ValidContext(c)
    ensures r.Success? <==> Summarizable(records, c)
    ensures r.Success? ==> r.value == SummaryOf(records, c, verified)
  {
    var audit := Audit(records, c, verified);
    if audit.Failure? {
      return Failure(audit.error);
    }
    var Audited(runs, valid, infra, unverified) := audit.value;
    var successes := Successes(runs);
    var stable := map task | task in c.taskIds :: AllTrials(successes, task, c.trials);
    var counts := map task | task in c.taskIds :: CountAt(successes, task, c.trials);
    return Success(Summary(
      c.pool, c.snapshotId, c.candidateId, c.trials, |c.taskIds|,
      |valid|, infra, CountSuccess(valid), CountTrue(stable), stable, counts, Violations(valid),
      if valid == [] then 0.0 else TotalCost(valid) / |valid| as real,
      Median(Sort(IntLe, Latencies(valid))),
      IssuesOf(runs, c, unverified)));
  }

  lemma ExtendSummarizable(before: seq<RunRecord>, x: RunRecord, c: RunContext)
    requires Summarizable(before, c)
    requires Belongs(x, c)
    requires forall y | y in before :: y.runId != x.runId && (x.valid && y.valid ==> TrialOf(y) != TrialOf(x))
    ensures Summarizable(before + [x], c)
  {
  }

  // ---- Counting trials ----

  /** The sum of CountAt over a list of tasks. */
  function SumAt(s: set<Trial>, tasks: seq<string>, trials: nat): (r: nat) {
    if tasks == [] then 0
    else SumAt(s, tasks[..|tasks| - 1], trials) + CountAt(s, tasks[|tasks| - 1], trials)
  }

  ghost predicate Within(s: set<Trial>, tasks: seq<string>, trials: nat) {
    forall t | t in s :: t.0 in tasks && 1 <= t.1 <= trials
  }

  ghost function OfTask(s: set<Trial>, task: string): (r: set<Trial>) {
    set t | t in s && t.0 == task
  }

  lemma {:induction false} CountAtIsCard(s: set<Trial>, task: string, trials: nat)
    requires forall t | t in s :: t.0 == task && 1 <= t.1 <= trials
    ensures CountAt(s, task, trials) == |s|
  {
    if trials == 0 {
      assert s == {};
    } else {
      var last := (task, trials);
      CountAtIsCard(s - {last}, task, trials - 1);
      CountAtAgrees(s - {last}, s, task, trials - 1);
    }
  }

  lemma {:induction false} CountAtAgrees(a: set<Trial>, b: set<Trial>, task: string, trials: nat)
    requires forall k | 1 <= k <= trials :: (task, k) in a <==> (task, k) in b
    ensures CountAt(a, task, trials) == CountAt(b, task, trials)
  {
    if trials == 0 {
    } else {
      CountAtAgrees(a, b, task, trials - 1);
    }
  }

  lemma {:induction false} SumAtAgrees(a: set<Trial>, b: set<Trial>, tasks: seq<string>, trials: nat)
    requires forall task, k | task in tasks && 1 <= k <= trials :: (task, k) in a <==> (task, k) in b
    ensures SumAt(a, tasks, trials) == SumAt(b, tasks, trials)
  {
    if tasks == [] {
    } else {
      var rest, task := tasks[..|tasks| - 1], tasks[|tasks| - 1];
      assert task in tasks && forall x | x in rest :: x in tasks;
      SumAtAgrees(a, b, rest, trials);
      CountAtAgrees(a, b, task, trials);
    }
  }

  /** Counting a set of trials task by task counts every trial once. */
  lemma {:induction false} SumAtIsCard(s: set<Trial>, tasks: seq<string>, trials: nat)
    requires Distinct(tasks) && Within(s, tasks, trials)
    ensures SumAt(s, tasks, trials) == |s|
  {
    if tasks == [] {
      assert s == {};
    } else {
      var rest, task := tasks[..|tasks| - 1], tasks[|tasks| - 1];
      assert tasks == rest + [task];
      var here := OfTask(s, task);
      var there := s - here;
      assert SumAt(s, tasks, trials) == SumAt(s, rest, trials) + CountAt(s, task, trials);
      SumAtIsCard(there, rest, trials);
      SumAtAgrees(there, s, rest, trials);
      CountAtIsCard(here, task, trials);
      CountAtAgrees(here, s, task, trials);
      assert s == here + there && here !! there;
    }
  }

  lemma {:induction false} CountAtBound(s: set<Trial>, task: string, trials: nat)
    ensures CountAt(s, task, trials) <= trials
    ensures CountAt(s, task, trials) == trials <==> AllTrials(s, task, trials)
  {
    if trials == 0 {
    } else {
      CountAtBound(s, task, trials - 1);
      assert AllTrials(s, task, trials) <==> AllTrials(s, task, trials - 1) && (task, trials) in s;
    }
  }

  lemma {:induction false} SumAtBound(s: set<Trial>, tasks: seq<string>, trials: nat)
    ensures SumAt(s, tasks, trials) <= |tasks| * trials
    ensures SumAt(s, tasks, trials) == |tasks| * trials <==> forall task | task in tasks :: AllTrials(s, task, trials)
  {
    if tasks == [] {
    } else {
      var rest, task := tasks[..|tasks| - 1], tasks[|tasks| - 1];
      assert tasks == rest + [task];
      SumAtBound(s, rest, trials);
      CountAtBound(s, task, trials);
      assert |tasks| * trials == |rest| * trials + trials;
    }
  }

  /** How many tasks succeed in all their trials. */
  function StableTasks(s: set<Trial>, tasks: seq<string>, trials: nat): (r: nat) {
    if tasks == [] then 0
    else StableTasks(s, tasks[..|tasks| - 1], trials) + (if AllTrials(s, tasks[|tasks| - 1], trials) then 1 else 0)
  }

  lemma {:induction false} StableBound(s: set<Trial>, tasks: seq<string>, trials: nat)
    ensures StableTasks(s, tasks, trials) * trials <= SumAt(s, tasks, trials)
  {
    if tasks == [] {
    } else {
      var rest, task := tasks[..|tasks| - 1], tasks[|tasks| - 1];
      StableBound(s, rest, trials);
      CountAtBound(s, task, trials);
      var n := StableTasks(s, rest, trials);
      assert (n + 1) * trials == n * trials + trials;
    }
  }

  ghost function StableSet(s: set<Trial>, tasks: seq<string>, trials: nat): (r: set<string>) {
    set task | task in tasks && AllTrials(s, task, trials)
  }

  lemma {:induction false} StableIsCard(s: set<Trial>, tasks: seq<string>, trials: nat)
    requires Distinct(tasks)
    ensures StableTasks(s, tasks, trials) == |StableSet(s, tasks, trials)|
  {
    if tasks != [] {
      var rest, task := tasks[..|tasks| - 1], tasks[|tasks| - 1];
      assert tasks == rest + [task];
      StableIsCard(s, rest, trials);
      var before, after := StableSet(s, rest, trials), StableSet(s, tasks, trials);
      assert task !in before;
      if AllTrials(s, task, trials) {
        assert after == before + {task};
      } else {
        assert after == before;
      }
    } else {
      assert StableSet(s, tasks, trials) == {};
    }
  }

  // ---- What the runs say ----

  ghost predicate Indexes(runs: map<Trial, RunRecord>, records: seq<RunRecord>) {
    && (forall t | t in runs :: runs[t] in records && runs[t].valid && TrialOf(runs[t]) == t)
    && (forall r | r in records && r.valid :: TrialOf(r) in runs && runs[TrialOf(r)] == r)
  }

  lemma IndexOne(runs: map<Trial, RunRecord>, records: seq<RunRecord>, x: RunRecord)
    requires Indexes(runs, records)
    requires forall r | r in records && r.valid && x.valid :: TrialOf(r) != TrialOf(x)
    ensures Indexes(if x.valid then runs[TrialOf(x) := x] else runs, records + [x])
  {
    assert forall r :: r in records + [x] <==> r in records || r == x;
  }

  /** Each valid run is found under its own trial, and nothing else is. */
  lemma {:induction false} RunsAreValids(records: seq<RunRecord>, c: RunContext)
    requires Summarizable(records, c)
    ensures Indexes(ByTrial(records), records)
  {
    if records == [] {
    } else {
      var rest, x := records[..|records| - 1], records[|records| - 1];
      assert records == rest + [x];
      RunsAreValids(rest, c);
      IndexOne(ByTrial(rest), rest, x);
    }
  }

  lemma {:induction false} RunCounts(records: seq<RunRecord>, c: RunContext)
    requires Summarizable(records, c)
    ensures |ByTrial(records)| == |Valids(records)|
    ensures |Successes(ByTrial(records))| == CountSuccess(Valids(records))
  {
    if records != [] {
      var rest, x := records[..|records| - 1], records[|records| - 1];
      RunCounts(rest, c);
      if x.valid {
        RunsAreValids(rest, c);
        AddRun(ByTrial(rest), Valids(rest), x);
      }
    } else {
      assert Successes(ByTrial(records)) == {};
    }
  }

  lemma AddRun(runs: map<Trial, RunRecord>, valid: seq<RunRecord>, x: RunRecord)
    requires TrialOf(x) !in runs && |runs| == |valid| && |Successes(runs)| == CountSuccess(valid)
    ensures |runs[TrialOf(x) := x]| == |valid + [x]|
    ensures |Successes(runs[TrialOf(x) := x])| == CountSuccess(valid + [x])
  {
    assert (valid + [x])[..|valid|] == valid;
    AddSuccess(runs, x);
  }

  lemma AddSuccess(runs: map<Trial, RunRecord>, x: RunRecord)
    requires TrialOf(x) !in runs
    ensures |Successes(runs[TrialOf(x) := x])| == |Successes(runs)| + (if x.success == Some(true) then 1 else 0)
  {
    var more := runs[TrialOf(x) := x];
    if x.success == Some(true) {
      assert Successes(more) == Successes(runs) + {TrialOf(x)};
    } else {
      assert Successes(more) == Successes(runs);
    }
  }

  lemma {:induction false} RunsWithin(records: seq<RunRecord>, c: RunContext)
    requires forall r | r in records :: Belongs(r, c)
    ensures Within(ByTrial(records).Keys, c.taskIds, c.trials)
    ensures Within(Successes(ByTrial(records)), c.taskIds, c.trials)
    ensures ByTrial(records).Keys <= ExpectedTrials(c)
  {
    if records == [] {
    } else {
      RunsWithin(records[..|records| - 1], c);
      assert Belongs(records[|records| - 1], c);
    }
  }

  // ---- Main results ----

  /** The sum of the success counts that a summary reports, over the expected tasks. */
  ghost function SumCounts(counts: map<string, nat>, tasks: seq<string>): (r: nat)
    requires forall task | task in tasks :: task in counts
  {
    if tasks == [] then 0
    else SumCounts(counts, tasks[..|tasks| - 1]) + counts[tasks[|tasks| - 1]]
  }

  lemma {:induction false} SumCountsIsSumAt(s: set<Trial>, counts: map<string, nat>, tasks: seq<string>, trials: nat)
    requires forall task | task in tasks :: task in counts && counts[task] == CountAt(s, task, trials)
    ensures SumCounts(counts, tasks) == SumAt(s, tasks, trials)
  {
    if tasks == [] {
    } else {
      assert tasks[|tasks| - 1] in tasks;
      SumCountsIsSumAt(s, counts, tasks[..|tasks| - 1], trials);
    }
  }

  /** Double counting: successes per task add up to the Pass^1 numerator, and
      stable * trials <= successes <= valid runs <= tasks * trials, the last with equality exactly
      when no valid trial is missing. */
  lemma DoubleCounting(records: seq<RunRecord>, c: RunContext, verified: set<string>)
    requires ValidContext(c) && Summarizable(records, c)
    ensures var s := SummaryOf(records, c, verified);
            && s.successCounts.Keys == s.stable.Keys == (set task | task in c.taskIds)
            && SumCounts(s.successCounts, c.taskIds) == s.passNumerator
            && s.stableCount * s.trials <= s.passNumerator <= s.validRuns <= s.expectedTasks * s.trials
            && (s.validRuns == s.expectedTasks * s.trials <==> MissingValidTrials !in s.issues)
            && s.validRuns + s.infraRuns == |records|
  {
    var wins := Successes(ByTrial(records));
    TrialCounts(records, c);
    ValidsFewer(records);
    StableCountIsTasks(wins, c);
    SumCountsIsSumAt(wins, SummaryOf(records, c, verified).successCounts, c.taskIds, c.trials);
  }

  lemma TrialCounts(records: seq<RunRecord>, c: RunContext)
    requires ValidContext(c) && Summarizable(records, c)
    ensures var runs, valid := ByTrial(records), Valids(records);
            var wins := Successes(runs);
            && SumAt(wins, c.taskIds, c.trials) == CountSuccess(valid)
            && |StableSet(wins, c.taskIds, c.trials)| * c.trials <= CountSuccess(valid) <= |valid|
            && |valid| <= |c.taskIds| * c.trials
            && (|valid| == |c.taskIds| * c.trials <==> runs.Keys == ExpectedTrials(c))
  {
    var runs := ByTrial(records);
    var wins := Successes(runs);
    RunCounts(records, c);
    RunsWithin(records, c);
    SumAtIsCard(wins, c.taskIds, c.trials);
    StableBound(wins, c.taskIds, c.trials);
    StableIsCard(wins, c.taskIds, c.trials);
    FewerSuccesses(runs);
    SumAtIsCard(runs.Keys, c.taskIds, c.trials);
    SumAtBound(runs.Keys, c.taskIds, c.trials);
    CoversExactlyExpected(runs.Keys, c);
  }

  lemma FewerSuccesses(runs: map<Trial, RunRecord>)
    ensures |Successes(runs)| <= |runs|
  {
    SubsetSize(Successes(runs), runs.Keys);
  }

  lemma StableCountIsTasks(wins: set<Trial>, c: RunContext)
    ensures CountTrue(map task | task in c.taskIds :: AllTrials(wins, task, c.trials))
         == |StableSet(wins, c.taskIds, c.trials)|
  {
    var m := map task | task in c.taskIds :: AllTrials(wins, task, c.trials);
    assert (set task | task in m && m[task]) == StableSet(wins, c.taskIds, c.trials);
  }

  lemma CoversExactlyExpected(covered: set<Trial>, c: RunContext)
    requires covered <= ExpectedTrials(c)
    ensures covered == ExpectedTrials(c) <==> forall task | task in c.taskIds :: AllTrials(covered, task, c.trials)
  {
  }

  /** A task is stable exactly when its success count reaches the number of trials: every summary
      passes the validator of EvaluationSummary. */
  lemma SummaryValidates(records: seq<RunRecord>, c: RunContext, verified: set<string>)
    requires Summarizable(records, c)
    ensures var s := SummaryOf(records, c, verified);
            && s.stable.Keys == s.successCounts.Keys
            && (forall task | task in s.stable ::
                  s.successCounts[task] <= s.trials && (s.stable[task] <==> s.successCounts[task] == s.trials))
  {
    forall task: string {
      CountAtBound(Successes(ByTrial(records)), task, c.trials);
    }
  }

  /** The cost of the valid records, record by record. */
  ghost function ValidCost(records: seq<RunRecord>): (out: real) {
    if records == [] then 0.0
    else
      var r := records[|records| - 1];
      ValidCost(records[..|records| - 1]) + if r.valid && r.cost.Some? then r.cost.value else 0.0
  }

  lemma {:induction false} ValidCostIsTotal(records: seq<RunRecord>)
    ensures TotalCost(Valids(records)) == ValidCost(records)
  {
    if records == [] {
    } else {
      var rest, r := records[..|records| - 1], records[|records| - 1];
      ValidCostIsTotal(rest);
      if r.valid {
        assert Map(CostOf, Valids(rest) + [r]) == Map(CostOf, Valids(rest)) + [CostOf(r)];
        TotalAdds(Map(CostOf, Valids(rest)), [CostOf(r)]);
        assert [CostOf(r)][..0] == [];
      }
    }
  }

  /** The mean cost is the cost of the valid runs over their number. */
  lemma MeanIsOverValidRuns(records: seq<RunRecord>, c: RunContext, verified: set<string>, s: Summary)
    requires s == SummaryOf(records, c, verified)
    ensures s.meanCost == if s.validRuns == 0 then 0.0 else ValidCost(records) / s.validRuns as real
  {
    ValidCostIsTotal(records);
  }

  ghost function ValidViolations(records: seq<RunRecord>): (out: int) {
    if records == [] then 0
    else
      var r := records[|records| - 1];
      ValidViolations(records[..|records| - 1]) + if r.valid then r.criticalViolations else 0
  }

  ghost function ValidLatencies(records: seq<RunRecord>): (out: seq<int>) {
    if records == [] then []
    else
      var rest, r := ValidLatencies(records[..|records| - 1]), records[|records| - 1];
      if r.valid then rest + [r.latencyMs] else rest
  }

  lemma {:induction false} ValidsBySum(records: seq<RunRecord>)
    ensures Violations(Valids(records)) == ValidViolations(records)
    ensures Latencies(Valids(records)) == ValidLatencies(records)
  {
    if records == [] {
    } else {
      var rest, r := records[..|records| - 1], records[|records| - 1];
      ValidsBySum(rest);
      if r.valid {
        assert Map(ViolationsOf, Valids(rest) + [r]) == Map(ViolationsOf, Valids(rest)) + [ViolationsOf(r)];
        assert Map(LatencyOf, Valids(rest) + [r]) == Map(LatencyOf, Valids(rest)) + [LatencyOf(r)];
        TotalIntAdds(Map(ViolationsOf, Valids(rest)), [ViolationsOf(r)]);
        assert [ViolationsOf(r)][..0] == [];
      }
    }
  }

  /** Some valid record of trial `k` of a task succeeded. */
  ghost predicate Won(records: seq<RunRecord>, task: string, k: int) {
    exists r :: r in records && r.valid && r.taskId == task && r.trialIndex == k && r.success == Some(true)
  }

  ghost predicate Covered(records: seq<RunRecord>, task: string, k: int) {
    exists r :: r in records && r.valid && r.taskId == task && r.trialIndex == k
  }

  lemma WonIsSuccess(records: seq<RunRecord>, c: RunContext, task: string, k: int)
    requires Summarizable(records, c)
    ensures (task, k) in Successes(ByTrial(records)) <==> Won(records, task, k)
    ensures (task, k) in ByTrial(records) <==> Covered(records, task, k)
  {
    RunsAreValids(records, c);
    if Won(records, task, k) {
      var r :| r in records && r.valid && r.taskId == task && r.trialIndex == k && r.success == Some(true);
      assert TrialOf(r) == (task, k);
    }
    if Covered(records, task, k) {
      var r :| r in records && r.valid && r.taskId == task && r.trialIndex == k;
      assert TrialOf(r) == (task, k);
    }
  }

  /** The trials of a task that were won. */
  ghost function WonTrials(records: seq<RunRecord>, task: string, trials: nat): (r: set<int>) {
    set k | 1 <= k <= trials && Won(records, task, k)
  }

  lemma {:induction false} CountIsWonTrials(records: seq<RunRecord>, c: RunContext, task: string, trials: nat)
    requires Summarizable(records, c)
    ensures CountAt(Successes(ByTrial(records)), task, trials) == |WonTrials(records, task, trials)|
  {
    if trials == 0 {
      assert WonTrials(records, task, 0) == {};
    } else {
      CountIsWonTrials(records, c, task, trials - 1);
      WonIsSuccess(records, c, task, trials);
      assert WonTrials(records, task, trials)
          == WonTrials(records, task, trials - 1) + if Won(records, task, trials) then {trials as int} else {};
    }
  }

  /** Per task: the successes are the trials that were won, and the task is stable when all were. */
  lemma TaskByRecords(records: seq<RunRecord>, c: RunContext, verified: set<string>, s: Summary, task: string)
    requires Summarizable(records, c) && s == SummaryOf(records, c, verified) && task in c.taskIds
    ensures task in s.stable && (s.stable[task] <==> forall k | 1 <= k <= c.trials :: Won(records, task, k))
    ensures task in s.successCounts && s.successCounts[task] == |WonTrials(records, task, c.trials)|
  {
    CountIsWonTrials(records, c, task, c.trials);
    forall k | 1 <= k <= c.trials ensures (task, k) in Successes(ByTrial(records)) <==> Won(records, task, k) {
      WonIsSuccess(records, c, task, k);
    }
  }

  /** What else a summary says, said of the records: its context, the critical violations and the median
      latency of the valid runs, and its two issues. */
  lemma SummaryByRecords(records: seq<RunRecord>, c: RunContext, verified: set<string>, s: Summary)
    requires Summarizable(records, c) && s == SummaryOf(records, c, verified)
    ensures s.pool == c.pool && s.snapshotId == c.snapshotId && s.candidateId == c.candidateId
    ensures s.trials == c.trials && s.expectedTasks == |c.taskIds|
    ensures s.criticalViolations == ValidViolations(records)
    ensures s.p50Latency == Median(Sort(IntLe, ValidLatencies(records)))
    ensures UnverifiedEvidence in s.issues <==> exists r :: r in records && r.runId !in verified
    ensures MissingValidTrials in s.issues <==>
              exists task, k :: task in c.taskIds && 1 <= k <= c.trials && !Covered(records, task, k)
  {
    ValidsBySum(records);
    forall task, k | task in c.taskIds && 1 <= k <= c.trials
      ensures (task, k) in ByTrial(records) <==> Covered(records, task, k)
    {
      WonIsSuccess(records, c, task, k);
    }
    RunsWithin(records, c);
    if ByTrial(records).Keys != ExpectedTrials(c) {
      var t :| t in ExpectedTrials(c) && t !in ByTrial(records);
      assert !Covered(records, t.0, t.1);
    }
  }

  // ---- The order of the records does not matter ----

  lemma SummarizablePermutes(a: seq<RunRecord>, b: seq<RunRecord>, c: RunContext)
    requires multiset(a) == multiset(b) && Summarizable(a, c)
    ensures Summarizable(b, c)
  {
    SameElements(a, b);
    forall i, j | 0 <= i < j < |b|
      ensures b[i].runId != b[j].runId
      ensures b[i].valid && b[j].valid ==> TrialOf(b[i]) != TrialOf(b[j])
    {
      var k, l := Places(a, b, i, j);
    }
  }

  lemma {:induction false} ValidsCount(records: seq<RunRecord>)
    ensures forall r :: multiset(Valids(records))[r] == if r.valid then multiset(records)[r] else 0
  {
    if records == [] {
    } else {
      var rest, x := records[..|records| - 1], records[|records| - 1];
      assert records == rest + [x];
      ValidsCount(rest);
    }
  }

  lemma RunsPermute(a: seq<RunRecord>, b: seq<RunRecord>, c: RunContext)
    requires multiset(a) == multiset(b) && Summarizable(a, c) && Summarizable(b, c)
    ensures ByTrial(a) == ByTrial(b)
  {
    SameElements(a, b);
    RunsAreValids(a, c);
    RunsAreValids(b, c);
  }

  /** The aggregates over the list of valid runs do not depend on its order. */
  lemma ValidsPermute(a: seq<RunRecord>, b: seq<RunRecord>)
    requires multiset(a) == multiset(b)
    ensures |a| == |b| && CountSuccess(a) == CountSuccess(b)
    ensures TotalCost(a) == TotalCost(b) && Violations(a) == Violations(b)
    ensures Sort(IntLe, Latencies(a)) == Sort(IntLe, Latencies(b))
  {
    SameElements(a, b);
    MapPermutes(CostOf, a, b);
    TotalPermutes(Map(CostOf, a), Map(CostOf, b));
    MapPermutes(ViolationsOf, a, b);
    TotalIntPermutes(Map(ViolationsOf, a), Map(ViolationsOf, b));
    MapPermutes(LatencyOf, a, b);
    SortForgetsOrder(IntLe, Latencies(a), Latencies(b));
    SuccessesPermute(a, b);
  }

  lemma {:induction false} CountSuccessIsTotal(s: seq<RunRecord>)
    ensures CountSuccess(s) == TotalInt(Map(SuccessValue, s))
  {
    if s == [] {
    } else {
      CountSuccessIsTotal(s[..|s| - 1]);
      assert Map(SuccessValue, s)[..|s| - 1] == Map(SuccessValue, s[..|s| - 1]);
    }
  }

  function SuccessValue(r: RunRecord): (out: int) { if r.success == Some(true) then 1 else 0 }

  lemma SuccessesPermute(a: seq<RunRecord>, b: seq<RunRecord>)
    requires multiset(a) == multiset(b)
    ensures CountSuccess(a) == CountSuccess(b)
  {
    CountSuccessIsTotal(a);
    CountSuccessIsTotal(b);
    MapPermutes(SuccessValue, a, b);
    TotalIntPermutes(Map(SuccessValue, a), Map(SuccessValue, b));
  }

  /** An accepted summary is the same for every order of its records. */
  lemma SummaryForgetsOrder(a: seq<RunRecord>, b: seq<RunRecord>, c: RunContext, verified: set<string>)
    requires multiset(a) == multiset(b)
    ensures Summarizable(a, c) <==> Summarizable(b, c)
    ensures Summarizable(a, c) ==> SummaryOf(a, c, verified) == SummaryOf(b, c, verified)
  {
    if Summarizable(b, c) {
      SummarizablePermutes(b, a, c);
    }
    if Summarizable(a, c) {
      SummarizablePermutes(a, b, c);
      RunsPermute(a, b, c);
      SameElements(a, b);
      ValidsCount(a);
      ValidsCount(b);
      assert multiset(Valids(a)) == multiset(Valids(b));
      ValidsPermute(Valids(a), Valids(b));
    }
  }
}
