/** The operational evidence of a batch and the selection built from it
    (agentloopgate/experiment/orchestrator.py, _select and _selection_operational_evidence). */
module SelectionEvidence {
  import opened Common
  import opened Ordering
  import opened Quantiles
  import opened Records
  import opened Metrics
  import opened CostLineage
  import CostAccounting
  import Selector

  datatype Blocked = CostNotExact | AttemptsIncomplete | NoLatencies

  function CountStarts(events: seq<TaskEvent>): (r: nat) {
    if events == [] then 0
    else CountStarts(events[..|events| - 1]) + (if events[|events| - 1].state.TaskStarted? then 1 else 0)
  }

  function CountTimeouts(events: seq<TaskEvent>): (r: nat) {
    if events == [] then 0
    else
      var e := events[|events| - 1];
      CountTimeouts(events[..|events| - 1])
      + (if (e.state.TaskCompleted? || e.state.TaskFailed?) && e.timedOut then 1 else 0)
  }

  /** The evidence of one batch from its summary, its cost accounting, its task-attempt file, and the
      latencies of all its runs. */
  function EvidenceOf(s: Summary, cost: CostAccounting.Accounting, events: seq<TaskEvent>, latencies: seq<int>)
    : (r: Result<Selector.Evidence, Blocked>)
    ensures r.Success? <==>
              && cost.status.Exact? && cost.unresolvedAgent == 0 && cost.unresolvedUser == 0
              && CountStarts(events) >= |s.stable| * s.trials && latencies != []
  {
    var sorted := Sort(IntLe, latencies);
    SortLength(latencies);
    if !cost.status.Exact? || cost.unresolvedAgent != 0 || cost.unresolvedUser != 0 then Failure(CostNotExact)
    else if CountStarts(events) < |s.stable| * s.trials then Failure(AttemptsIncomplete)
    else if latencies == [] then Failure(NoLatencies)
    else Success(Selector.Evidence(
      s.stable, cost.lowerBound, CountStarts(events), CountStarts(events) - |s.stable| * s.trials,
      CountTimeouts(events), P95(sorted) as real, sorted[|sorted| - 1] as real, 3))
  }

  lemma SortLength(values: seq<int>)
    ensures |Sort(IntLe, values)| == |values|
  {
    SortSorts(IntLe, values);
  }

  function CandidateInput(id: string, rank: int, planRef: string, s: Summary, e: Selector.Evidence)
    : (r: Selector.Candidate)
  {
    Selector.Candidate(id, None, Some(rank), planRef, Complete(s), s.stableCount, s.criticalViolations, s.meanCost,
                       s.p50Latency, Some(e))
  }

  function BaselineInput(s: Summary, e: Selector.Evidence): (r: Selector.Baseline) {
    Selector.Baseline(s.snapshotId, Complete(s), s.stableCount, s.criticalViolations, s.meanCost, s.p50Latency, e)
  }

  // ---- What the evidence says of the files ----

  ghost function StartsAt(events: seq<TaskEvent>): (r: set<nat>) {
    set i | 0 <= i < |events| && events[i].state.TaskStarted?
  }

  /** The attempts that ended, completed or failed, in a timeout. */
  ghost function TimeoutsAt(events: seq<TaskEvent>): (r: set<nat>) {
    set i | 0 <= i < |events| && (events[i].state.TaskCompleted? || events[i].state.TaskFailed?) && events[i].timedOut
  }

  lemma {:induction false} StartsArePlaces(events: seq<TaskEvent>)
    ensures CountStarts(events) == |StartsAt(events)|
  {
    if events == [] {
    } else {
      var k := |events| - 1;
      StartsArePlaces(events[..k]);
      assert StartsAt(events) == StartsAt(events[..k]) + if k in StartsAt(events) then {k} else {};
    }
  }

  lemma {:induction false} TimeoutsArePlaces(events: seq<TaskEvent>)
    ensures CountTimeouts(events) == |TimeoutsAt(events)|
  {
    if events == [] {
    } else {
      var k := |events| - 1;
      TimeoutsArePlaces(events[..k]);
      assert TimeoutsAt(events) == TimeoutsAt(events[..k]) + if k in TimeoutsAt(events) then {k} else {};
    }
  }

  /** Every count and cost of the evidence, said of the files it is read from. */
  lemma EvidenceOfFiles(s: Summary, cost: CostAccounting.Accounting, events: seq<TaskEvent>, latencies: seq<int>,
                        e: Selector.Evidence)
    requires EvidenceOf(s, cost, events, latencies) == Success(e)
    ensures e.outcomes == s.stable && e.wholeCost == cost.lowerBound && e.refs == 3
    ensures e.attempts == |StartsAt(events)| && e.retries == |StartsAt(events)| - |s.stable| * s.trials
    ensures e.timeouts == |TimeoutsAt(events)|
  {
    StartsArePlaces(events);
    TimeoutsArePlaces(events);
  }

  lemma LatencyFields(s: Summary, cost: CostAccounting.Accounting, events: seq<TaskEvent>, latencies: seq<int>,
                      e: Selector.Evidence, sorted: seq<int>)
    requires EvidenceOf(s, cost, events, latencies) == Success(e) && sorted == Sort(IntLe, latencies)
    ensures sorted != [] && e.p95 == P95(sorted) as real && e.maxLatency == sorted[|sorted| - 1] as real
  {
    SortLength(latencies);
  }

  lemma LatencyCounts(latencies: seq<int>, sorted: seq<int>)
    requires latencies != [] && sorted == Sort(IntLe, latencies)
    ensures sorted != [] && P95Counts(latencies, P95(sorted)) && IsGreatest(latencies, sorted[|sorted| - 1])
  {
    SortSorts(IntLe, latencies);
    NearestRankCounts(sorted, latencies, 95);
    LastIsGreatest(sorted, latencies);
  }

  /** Fewer than 95 percent of the values lie below `x`, and at least 95 percent at or below it. */
  ghost predicate P95Counts(values: seq<int>, x: int) {
    100 * CountBelow(values, x) < 95 * |values| <= 100 * CountBelow(values, x + 1)
  }

  ghost predicate IsGreatest(values: seq<int>, x: int) { x in values && forall y | y in values :: y <= x }

  /** The p95 is the nearest rank of all latencies, and the maximum is the largest of them. */
  lemma EvidenceOfLatencies(s: Summary, cost: CostAccounting.Accounting, events: seq<TaskEvent>, latencies: seq<int>,
                            e: Selector.Evidence) returns (p95: int, top: int)
    requires EvidenceOf(s, cost, events, latencies) == Success(e)
    ensures e.p95 == p95 as real && P95Counts(latencies, p95)
    ensures e.maxLatency == top as real && IsGreatest(latencies, top)
  {
    var sorted := Sort(IntLe, latencies);
    LatencyFields(s, cost, events, latencies, e, sorted);
    LatencyCounts(latencies, sorted);
    p95, top := P95(sorted), sorted[|sorted| - 1];
  }

  // ---- Evidence of a summarized batch ----

  function Invalids(records: seq<RunRecord>): (out: seq<RunRecord>) {
    if records == [] then []
    else
      var rest, r := Invalids(records[..|records| - 1]), records[|records| - 1];
      if r.valid then rest else rest + [r]
  }

  lemma {:induction false} LatenciesSplit(records: seq<RunRecord>)
    ensures multiset(Latencies(records)) == multiset(Latencies(Valids(records)) + Latencies(Invalids(records)))
    ensures |Valids(records)| + |Invalids(records)| == |records|
  {
    if records == [] {
    } else {
      var rest, r := records[..|records| - 1], records[|records| - 1];
      LatenciesSplit(rest);
      LatencyPush(rest, r);
      LatencyPush(Valids(rest), r);
      LatencyPush(Invalids(rest), r);
      assert records == rest + [r];
    }
  }

  lemma LatencyPush(records: seq<RunRecord>, r: RunRecord)
    ensures Latencies(records + [r]) == Latencies(records) + [LatencyOf(r)]
  {
  }

  lemma SortedLatencies(records: seq<RunRecord>)
    ensures Ascending(Sort(IntLe, Latencies(records)))
    ensures multiset(Sort(IntLe, Latencies(records))) == multiset(Latencies(records))
    ensures |Sort(IntLe, Latencies(records))| == |records|
  {
    var sorted := Sort(IntLe, Latencies(records));
    SortSorts(IntLe, Latencies(records));
    SameElements(sorted, Latencies(records));
    forall i | 0 <= i < |sorted| ensures sorted[i] >= 0 {
      var latencies, x := Latencies(records), sorted[i];
      assert x in sorted && x in latencies;
      var j :| 0 <= j < |latencies| && latencies[j] == x;
      assert latencies[j] == LatencyOf(records[j]);
    }
  }

  lemma LatencyPopulation(records: seq<RunRecord>)
    requires records != []
    ensures var valid, infra := Latencies(Valids(records)), Latencies(Invalids(records));
            Population(Sort(IntLe, valid), infra, Sort(IntLe, Latencies(records)))
  {
    LatenciesSplit(records);
    SortedLatencies(records);
    SortedLatencies(Valids(records));
    SortLength(Latencies(records));
    var valid, infra := Latencies(Valids(records)), Latencies(Invalids(records));
    assert multiset(Sort(IntLe, valid) + infra) == multiset(valid) + multiset(infra);
  }

  /** A batch with safe counts has its quantiles in order; one without infra-invalid runs is safe. */
  lemma BatchQuantiles(records: seq<RunRecord>)
    requires records != [] && QuantilesSafe(|Valids(records)|, |Invalids(records)|)
    ensures var valid, all := Sort(IntLe, Latencies(Valids(records))), Sort(IntLe, Latencies(records));
            all != [] && 0.0 <= Median(valid) <= P95(all) as real <= all[|all| - 1] as real
  {
    LatencyPopulation(records);
    LatenciesSplit(records);
    SortLength(Latencies(Valids(records)));
    SafeIsOrdered(Sort(IntLe, Latencies(Valids(records))), Latencies(Invalids(records)), Sort(IntLe, Latencies(records)));
  }

  lemma {:induction false} ViolationsNonNegative(records: seq<RunRecord>)
    ensures Violations(records) >= 0
  {
    if records == [] {
    } else {
      var rest := records[..|records| - 1];
      ViolationsNonNegative(rest);
      assert Map(ViolationsOf, records)[..|rest|] == Map(ViolationsOf, rest);
    }
  }

  lemma {:induction false} CostNonNegative(records: seq<RunRecord>)
    requires forall r | r in records :: ValidRecord(r)
    ensures TotalCost(records) >= 0.0
  {
    if records == [] {
    } else {
      var rest, r := records[..|records| - 1], records[|records| - 1];
      assert records == rest + [r] && ValidRecord(r);
      CostNonNegative(rest);
      assert Map(CostOf, records)[..|rest|] == Map(CostOf, rest);
    }
  }

  lemma {:induction false} ValidsAreRecords(records: seq<RunRecord>)
    ensures forall r | r in Valids(records) :: r in records
  {
    if records == [] {
    } else {
      assert records == records[..|records| - 1] + [records[|records| - 1]];
      ValidsAreRecords(records[..|records| - 1]);
    }
  }

  lemma SummaryNonNegative(records: seq<RunRecord>, c: RunContext, verified: set<string>)
    requires forall r | r in records :: ValidRecord(r)
    ensures var s := SummaryOf(records, c, verified); s.criticalViolations >= 0 && s.meanCost >= 0.0 && s.stableCount >= 0
  {
    ValidsAreRecords(records);
    ViolationsNonNegative(Valids(records));
    CostNonNegative(Valids(records));
  }

  /** What the selection reads of one batch. */
  datatype Batch = Batch(
    records: seq<RunRecord>, context: RunContext, verified: set<string>,
    cost: CostAccounting.Accounting, events: seq<TaskEvent>)

  ghost predicate ValidBatch(b: Batch) {
    && ValidContext(b.context) && Summarizable(b.records, b.context)
    && (forall r | r in b.records :: ValidRecord(r))
    && b.cost.lowerBound >= 0.0
  }

  function SummaryIn(b: Batch): (r: Summary) { SummaryOf(b.records, b.context, b.verified) }

  function EvidenceIn(b: Batch): (r: Result<Selector.Evidence, Blocked>) {
    EvidenceOf(SummaryIn(b), b.cost, b.events, Latencies(b.records))
  }

  lemma EvidenceCounts(b: Batch)
    requires ValidBatch(b) && EvidenceIn(b).Success?
    ensures var s, e := SummaryIn(b), EvidenceIn(b).value;
            && |TrueKeys(e.outcomes)| == s.stableCount
            && e.outcomes.Keys == (set task | task in b.context.taskIds) && e.outcomes != map[]
            && e.attempts >= 1 && e.attempts >= |e.outcomes| && 0 <= e.retries <= e.attempts - |e.outcomes|
  {
    var s, e := SummaryIn(b), EvidenceIn(b).value;
    DoubleCounting(b.records, b.context, b.verified);
    assert TrueKeys(s.stable) == set task | task in s.stable && s.stable[task];
    assert b.context.taskIds[0] in s.stable;
    assert |s.stable| >= 1;
    AtLeast(|s.stable|, s.trials);
  }

  lemma AtLeast(n: nat, trials: nat)
    requires n >= 1 && trials >= 1
    ensures n * trials >= n
  {
  }

  /** The one rule of the validators that a batch can break: the median of its valid runs is at most the
      p95 of all its runs. */
  predicate InOrder(s: Summary, e: Selector.Evidence) {
    s.p50Latency <= e.p95
  }

  lemma EvidenceLatencies(b: Batch)
    requires ValidBatch(b) && EvidenceIn(b).Success?
    ensures var e := EvidenceIn(b).value; 0.0 <= SummaryIn(b).p50Latency && 0.0 <= e.p95 <= e.maxLatency
    ensures QuantilesSafe(SummaryIn(b).validRuns, SummaryIn(b).infraRuns) ==> InOrder(SummaryIn(b), EvidenceIn(b).value)
  {
    LatenciesSplit(b.records);
    SortedLatencies(b.records);
    SortedLatencies(Valids(b.records));
    QuantilesInBounds(Sort(IntLe, Latencies(Valids(b.records))), Sort(IntLe, Latencies(b.records)));
    if QuantilesSafe(SummaryIn(b).validRuns, SummaryIn(b).infraRuns) {
      BatchQuantiles(b.records);
    }
  }

  lemma EvidenceCosts(b: Batch)
    requires ValidBatch(b) && EvidenceIn(b).Success?
    ensures var e := EvidenceIn(b).value; e.wholeCost >= 0.0 && e.timeouts >= 0 && e.refs == 3
  {
  }

  /** Evidence of a batch passes the validators of the selection inputs if and only if its latency
      quantiles are in order, which safe counts make sure of. */
  lemma EvidenceValidates(b: Batch, id: string, rank: int, planRef: string)
    requires ValidBatch(b) && EvidenceIn(b).Success? && rank >= 1 && planRef != ""
    ensures var s, e := SummaryIn(b), EvidenceIn(b).value;
            && (Selector.ValidCandidate(CandidateInput(id, rank, planRef, s, e)) <==> InOrder(s, e))
            && (Selector.ValidBaseline(BaselineInput(s, e)) <==> InOrder(s, e))
            && (QuantilesSafe(s.validRuns, s.infraRuns) ==> InOrder(s, e))
    ensures var s, e := SummaryIn(b), EvidenceIn(b).value;
            && s.stableCount == |TrueKeys(e.outcomes)| && s.criticalViolations >= 0 && s.meanCost >= 0.0
            && s.p50Latency >= 0.0 && e.outcomes != map[] && e.wholeCost >= 0.0 && e.attempts >= |e.outcomes| >= 1
            && 0 <= e.retries <= e.attempts - |e.outcomes| && e.timeouts >= 0 && 0.0 <= e.p95 <= e.maxLatency
  {
    var s, e := SummaryIn(b), EvidenceIn(b).value;
    EvidenceCounts(b);
    EvidenceLatencies(b);
    EvidenceCosts(b);
    SummaryNonNegative(b.records, b.context, b.verified);
    InputsValidate(s, e, id, rank, planRef);
  }

  lemma InputsValidate(s: Summary, e: Selector.Evidence, id: string, rank: int, planRef: string)
    requires InOrder(s, e) ==> Selector.ValidEvidence(e, s.stableCount, s.p50Latency)
    requires e.refs == 3 && e.outcomes != map[]
    requires s.criticalViolations >= 0 && s.meanCost >= 0.0 && s.stableCount >= 0 && s.p50Latency >= 0.0
    requires rank >= 1 && planRef != ""
    ensures Selector.ValidCandidate(CandidateInput(id, rank, planRef, s, e)) <==> InOrder(s, e)
    ensures Selector.ValidBaseline(BaselineInput(s, e)) <==> InOrder(s, e)
  {
  }

  lemma CompleteIsSafe(b: Batch)
    requires ValidBatch(b) && SummaryIn(b).infraRuns == 0
    ensures QuantilesSafe(SummaryIn(b).validRuns, SummaryIn(b).infraRuns)
  {
  }

  // ---- The amended selection ----

  /** The summary of a batch and the evidence that goes with it. */
  datatype Reading = Reading(summary: Summary, evidence: Selector.Evidence)

  function Read(b: Batch): (r: Result<Reading, Blocked>) {
    var evidence := EvidenceIn(b);
    if evidence.Failure? then Failure(evidence.error) else Success(Reading(SummaryIn(b), evidence.value))
  }

  /** The ladder: candidates ranked in the order of their proposal. */
  function Inputs(ids: seq<string>, readings: seq<Reading>, planRef: string): (r: seq<Selector.Candidate>)
    requires |ids| == |readings|
  {
    seq(|ids|, i requires 0 <= i < |ids| =>
      CandidateInput(ids[i], i + 1, planRef, readings[i].summary, readings[i].evidence))
  }

  /** Every field of an input is the field of its own batch, and the rank is the place in the plan. */
  lemma InputsCarry(ids: seq<string>, readings: seq<Reading>, planRef: string, i: nat)
    requires |ids| == |readings| && i < |ids|
    ensures var c, s := Inputs(ids, readings, planRef)[i], readings[i].summary;
            && c.id == ids[i] && c.nativeScore == None && c.nativeRank == Some(i + 1) && c.signalRef == planRef
            && (c.complete <==> s.issues == {}) && c.stableCount == s.stableCount && c.critical == s.criticalViolations
            && c.meanCost == s.meanCost && c.p50 == s.p50Latency && c.evidence == Some(readings[i].evidence)
  {
  }

  lemma BaselineCarries(s: Summary, e: Selector.Evidence)
    ensures var b := BaselineInput(s, e);
            && b.snapshotId == s.snapshotId && (b.complete <==> s.issues == {}) && b.stableCount == s.stableCount
            && b.critical == s.criticalViolations && b.meanCost == s.meanCost && b.p50 == s.p50Latency
            && b.evidence == e
  {
  }

  lemma InputsAreRanked(ids: seq<string>, readings: seq<Reading>, planRef: string)
    requires |ids| == |readings| && ids != [] && Distinct(ids)
    ensures Selector.FrozenLadder(Inputs(ids, readings, planRef))
  {
    var ladder := Inputs(ids, readings, planRef);
    forall i | 0 <= i < |ids| ensures ladder[i].id == ids[i] && ladder[i].nativeRank == Some(i + 1) {
    }
  }

  lemma SamePopulation(b: Batch, r: Reading)
    requires ValidBatch(b) && Read(b) == Success(r)
    ensures r.evidence.outcomes.Keys == set task | task in b.context.taskIds
  {
    EvidenceCounts(b);
  }

  /** All inputs pass their validators and the selector accepts them, so that it says SELECT or HOLD. */
  ghost predicate ReachesVerdict(ladder: seq<Selector.Candidate>, baseline: Selector.Baseline, policy: Selector.Policy) {
    && (forall c | c in ladder :: Selector.ValidCandidate(c)) && Selector.ValidBaseline(baseline)
    && Selector.Selectable(ladder, Some(baseline), Some(policy))
  }

  /** Batches over one frozen population with distinct candidates, a complete baseline without critical
      violation, and evidence for each: the selection reaches a verdict if and only if the latency
      quantiles of every batch are in order.  With safe counts of every batch it always does. */
  lemma AmendedSelectionReachesVerdict(ids: seq<string>, batches: seq<Batch>, readings: seq<Reading>,
                                       baseline: Batch, base: Reading, planRef: string, policy: Selector.Policy)
    requires |ids| == |batches| == |readings| && ids != [] && planRef != ""
    requires Distinct(ids)
    requires forall i | 0 <= i < |ids| :: ValidBatch(batches[i]) && Read(batches[i]) == Success(readings[i])
    requires forall i | 0 <= i < |ids| :: batches[i].context.taskIds == baseline.context.taskIds
    requires ValidBatch(baseline) && Read(baseline) == Success(base)
    requires Complete(base.summary) && base.summary.criticalViolations == 0
    ensures ReachesVerdict(Inputs(ids, readings, planRef), BaselineInput(base.summary, base.evidence), policy)
            <==> InOrder(base.summary, base.evidence)
                 && forall i | 0 <= i < |ids| :: InOrder(readings[i].summary, readings[i].evidence)
    ensures SafeBatch(baseline) && (forall i | 0 <= i < |ids| :: SafeBatch(batches[i])) ==>
              ReachesVerdict(Inputs(ids, readings, planRef), BaselineInput(base.summary, base.evidence), policy)
  {
    SamePopulations(batches, readings, baseline, base);
    ReadingsSelect(ids, readings, base, planRef, policy);
    EvidenceValidates(baseline, "", 1, planRef);
    LadderValidates(ids, batches, readings, planRef);
  }

  lemma LadderValidates(ids: seq<string>, batches: seq<Batch>, readings: seq<Reading>, planRef: string)
    requires |ids| == |batches| == |readings| && planRef != ""
    requires forall i | 0 <= i < |ids| :: ValidBatch(batches[i]) && Read(batches[i]) == Success(readings[i])
    ensures (forall c | c in Inputs(ids, readings, planRef) :: Selector.ValidCandidate(c))
            <==> forall i | 0 <= i < |ids| :: InOrder(readings[i].summary, readings[i].evidence)
    ensures forall i | 0 <= i < |ids| && SafeBatch(batches[i]) :: InOrder(readings[i].summary, readings[i].evidence)
  {
    var ladder := Inputs(ids, readings, planRef);
    forall i | 0 <= i < |ids|
      ensures Selector.ValidCandidate(ladder[i]) <==> InOrder(readings[i].summary, readings[i].evidence)
      ensures SafeBatch(batches[i]) ==> InOrder(readings[i].summary, readings[i].evidence)
    {
      InputValidates(ids, batches, readings, planRef, i);
    }
    EachOf(ladder, seq(|ids|, i requires 0 <= i < |ids| => InOrder(readings[i].summary, readings[i].evidence)));
  }

  lemma InputValidates(ids: seq<string>, batches: seq<Batch>, readings: seq<Reading>, planRef: string, i: nat)
    requires |ids| == |batches| == |readings| && planRef != "" && i < |ids|
    requires ValidBatch(batches[i]) && Read(batches[i]) == Success(readings[i])
    ensures Selector.ValidCandidate(Inputs(ids, readings, planRef)[i])
            <==> InOrder(readings[i].summary, readings[i].evidence)
    ensures SafeBatch(batches[i]) ==> InOrder(readings[i].summary, readings[i].evidence)
  {
    EvidenceValidates(batches[i], ids[i], i + 1, planRef);
  }

  lemma EachOf(ladder: seq<Selector.Candidate>, ordered: seq<bool>)
    requires |ladder| == |ordered| && forall i | 0 <= i < |ladder| :: Selector.ValidCandidate(ladder[i]) <==> ordered[i]
    ensures (forall c | c in ladder :: Selector.ValidCandidate(c)) <==> forall i | 0 <= i < |ordered| :: ordered[i]
  {
    if forall c | c in ladder :: Selector.ValidCandidate(c) {
      forall i | 0 <= i < |ordered| ensures ordered[i] {
        assert ladder[i] in ladder;
      }
    }
  }

  predicate SafeBatch(b: Batch) {
    QuantilesSafe(SummaryIn(b).validRuns, SummaryIn(b).infraRuns)
  }

  lemma SamePopulations(batches: seq<Batch>, readings: seq<Reading>, baseline: Batch, base: Reading)
    requires |batches| == |readings|
    requires forall i | 0 <= i < |batches| :: ValidBatch(batches[i]) && Read(batches[i]) == Success(readings[i])
    requires forall i | 0 <= i < |batches| :: batches[i].context.taskIds == baseline.context.taskIds
    requires ValidBatch(baseline) && Read(baseline) == Success(base)
    ensures forall i | 0 <= i < |readings| :: readings[i].evidence.outcomes.Keys == base.evidence.outcomes.Keys
  {
    SamePopulation(baseline, base);
    forall i | 0 <= i < |readings| ensures readings[i].evidence.outcomes.Keys == base.evidence.outcomes.Keys {
      SamePopulation(batches[i], readings[i]);
    }
  }

  lemma ReadingsSelect(ids: seq<string>, readings: seq<Reading>, base: Reading, planRef: string, policy: Selector.Policy)
    requires |ids| == |readings| && ids != [] && Distinct(ids)
    requires forall i | 0 <= i < |ids| :: readings[i].evidence.outcomes.Keys == base.evidence.outcomes.Keys
    requires Complete(base.summary) && base.summary.criticalViolations == 0
    ensures Selector.Selectable(Inputs(ids, readings, planRef), Some(BaselineInput(base.summary, base.evidence)),
                                Some(policy))
  {
    InputsAreRanked(ids, readings, planRef);
  }
}
