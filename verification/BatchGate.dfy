/** When a formal batch is complete (agentloopgate/experiment/batch.py, _verified_position_fail_fast,
    _summarize_and_verify, and the disposition of FormalBatchArtifact). */
module BatchGate {
  import opened Common
  import opened CallLedger
  import opened Ordering
  import opened Records
  import opened Metrics
  import Ingest

  /** One evidence join between a benchmark run and the run of the harness that produced it. */
  datatype Join = Join(
    taskId: string, trialIndex: int, tauRunId: string, harnessRunId: string, trace: string, outcome: Option<bool>)

  /** A receipt authenticates a record by its digest, for which the record itself stands. */
  datatype Receipt = Receipt(runId: string, record: RunRecord)

  datatype BatchResult = BatchResult(
    records: seq<RunRecord>, receipts: seq<Receipt>,
    harness: seq<RunRecord>, harnessReceipts: seq<Receipt>,
    joins: seq<Join>, evidenceComplete: bool, traceVerified: bool)

  datatype BatchFault =
    | NoTrigger | NoPolicy | TriggerNotOneInfraRun | NotPartial | UnexplainedGap
    | WrongCount | ReceiptMismatch | TraceUnverified | JoinsIncomplete
    | PlanesDiffer | ScoredWithoutEvidence | JoinConflict
    | Integrity(integrity: IntegrityFault)

  datatype HoldReason =
    | IntegrityIssue(issue: Issue) | InfraInvalid(count: nat) | EvidenceIncomplete | CostNotExact(status: CostStatus)

  datatype Artifact = Artifact(summary: Summary, complete: bool, holdReasons: set<HoldReason>)

  // ---- The maps that the source builds; a later entry replaces an earlier one with its key ----

  function JoinTrial(j: Join): (r: Trial) { (j.taskId, j.trialIndex) }

  function JoinMap(joins: seq<Join>): (r: map<Trial, Join>) {
    if joins == [] then map[]
    else JoinMap(joins[..|joins| - 1])[JoinTrial(joins[|joins| - 1]) := joins[|joins| - 1]]
  }

  function RunMap(records: seq<RunRecord>): (r: map<Trial, RunRecord>) {
    if records == [] then map[]
    else RunMap(records[..|records| - 1])[TrialOf(records[|records| - 1]) := records[|records| - 1]]
  }

  function ReceiptMap(receipts: seq<Receipt>): (r: map<string, Receipt>) {
    if receipts == [] then map[]
    else ReceiptMap(receipts[..|receipts| - 1])[receipts[|receipts| - 1].runId := receipts[|receipts| - 1]]
  }

  function Trials(records: seq<RunRecord>): (out: set<Trial>) {
    set r | r in records :: TrialOf(r)
  }

  function JoinedTrials(joins: seq<Join>): (r: set<Trial>) {
    set j | j in joins :: JoinTrial(j)
  }

  function RunIds(records: seq<RunRecord>): (out: set<string>) {
    set r | r in records :: r.runId
  }

  // ---- The fail-fast check ----

  predicate TriggerIsInfra(records: seq<RunRecord>, pair: Trial) {
    (exists i | 0 <= i < |records| :: TrialOf(records[i]) == pair && !records[i].valid
       && forall j | 0 <= j < |records| && TrialOf(records[j]) == pair :: j == i)
  }

  /** Whether this batch stopped early at the given position (counted from trial 0). */
  method VerifiedFailFast(result: BatchResult, c: RunContext, trigger: Option<(string, int)>, policy: bool)
    returns (r: Result<bool, BatchFault>)
    ensures r == Success(false) <==> trigger.None? && result.evidenceComplete
    ensures r == Success(true) <==> trigger.Some? && policy && FailFastOk(result, c, trigger.value)
  {
    if trigger.None? {
      if !result.evidenceComplete {
        return Failure(NoTrigger);
      }
      return Success(false);
    }
    if !policy {
      return Failure(NoPolicy);
    }
    var pair: Trial := (trigger.value.0, trigger.value.1 + 1);
    if !TriggerIsInfra(result.records, pair) {
      return Failure(TriggerNotOneInfraRun);
    }
    if !(Trials(result.records) < ExpectedTrials(c)) {
      return Failure(NotPartial);
    }
    if !result.evidenceComplete && Trials(result.records) - JoinedTrials(result.joins) != {pair} {
      return Failure(UnexplainedGap);
    }
    return Success(true);
  }

  ghost predicate FailFastOk(result: BatchResult, c: RunContext, trigger: (string, int)) {
    var pair: Trial := (trigger.0, trigger.1 + 1);
    && TriggerIsInfra(result.records, pair)
    && Trials(result.records) < ExpectedTrials(c)
    && (!result.evidenceComplete ==> Trials(result.records) - JoinedTrials(result.joins) == {pair})
  }

  // ---- The evidence check ----

  predicate ReceiptsOk(records: seq<RunRecord>, receipts: seq<Receipt>) {
    var byRun := ReceiptMap(receipts);
    && |byRun| == |records|
    && forall r | r in records :: r.runId in byRun && byRun[r.runId].record == r
  }

  /** A join names both runs of its trial and reports the outcome that both of them recorded. */
  predicate Agrees(j: Join, tau: RunRecord, harness: RunRecord) {
    j.tauRunId == tau.runId && j.harnessRunId == harness.runId && j.outcome == tau.success
    && harness.success == tau.success
  }

  predicate PlanesMatch(result: BatchResult, failFast: bool) {
    && JoinMap(result.joins).Keys == RunMap(result.harness).Keys
    && (!failFast ==> JoinMap(result.joins).Keys == RunMap(result.records).Keys)
  }

  /** Only infra-invalid runs may lack a join. */
  predicate GapsAreInfra(result: BatchResult) {
    var tau := RunMap(result.records);
    forall t | t in tau && t !in JoinMap(result.joins) :: !tau[t].valid
  }

  predicate JoinsAgree(result: BatchResult, traces: set<string>)
    requires JoinMap(result.joins).Keys == RunMap(result.harness).Keys
  {
    var joins, tau, harness := JoinMap(result.joins), RunMap(result.records), RunMap(result.harness);
    forall t | t in joins :: t in tau && Agrees(joins[t], tau[t], harness[t]) && joins[t].trace in traces
  }

  ghost predicate EvidenceOk(result: BatchResult, c: RunContext, failFast: bool, traces: set<string>) {
    var expected := |c.taskIds| * c.trials;
    && (if failFast then 0 < |result.records| < expected
        else |result.records| == expected && |result.harness| == expected && |JoinMap(result.joins)| == expected)
    && ReceiptsOk(result.records, result.receipts) && ReceiptsOk(result.harness, result.harnessReceipts)
    && result.traceVerified
    && PlanesMatch(result, failFast) && (failFast ==> GapsAreInfra(result)) && JoinsAgree(result, traces)
  }

  /** Checks every evidence plane, then summarizes.  In fail-fast mode a join without a benchmark run is
      a lookup error in the source; it counts here as a conflict of the joins. */
  method SummarizeAndVerify(result: BatchResult, c: RunContext, failFast: bool, traces: set<string>)
    returns (r: Result<Summary, BatchFault>)
    requires ValidContext(c)
    ensures r.Success? <==> EvidenceOk(result, c, failFast, traces) && Summarizable(result.records, c)
    ensures r.Success? ==> r.value == SummaryOf(result.records, c, RunIds(result.records))
  {
    var expected := |c.taskIds| * c.trials;
    if failFast {
      if !(0 < |result.records| < expected) {
        return Failure(WrongCount);
      }
    } else if |result.records| != expected || |result.harness| != expected {
      return Failure(WrongCount);
    }
    if !ReceiptsOk(result.records, result.receipts) || !ReceiptsOk(result.harness, result.harnessReceipts) {
      return Failure(ReceiptMismatch);
    }
    if !result.traceVerified {
      return Failure(TraceUnverified);
    }
    if !failFast && |JoinMap(result.joins)| != expected {
      return Failure(JoinsIncomplete);
    }
    if !PlanesMatch(result, failFast) {
      return Failure(PlanesDiffer);
    }
    if failFast && !GapsAreInfra(result) {
      return Failure(ScoredWithoutEvidence);
    }
    if !JoinsAgree(result, traces) {
      return Failure(JoinConflict);
    }
    var summary := Summarize(result.records, c, RunIds(result.records));
    if summary.Failure? {
      return Failure(Integrity(summary.error));
    }
    return Success(summary.value);
  }

  // ---- What the evidence check asks of the lists ----

  ghost predicate LastJoin(joins: seq<Join>, i: nat) {
    i < |joins| && forall k | i < k < |joins| :: JoinTrial(joins[k]) != JoinTrial(joins[i])
  }

  ghost predicate LastRun(records: seq<RunRecord>, i: nat) {
    i < |records| && forall k | i < k < |records| :: TrialOf(records[k]) != TrialOf(records[i])
  }

  ghost predicate LastReceipt(receipts: seq<Receipt>, i: nat) {
    i < |receipts| && forall k | i < k < |receipts| :: receipts[k].runId != receipts[i].runId
  }

  lemma {:induction false} JoinMapHoldsLast(joins: seq<Join>)
    ensures forall i: nat | LastJoin(joins, i) ::
              JoinTrial(joins[i]) in JoinMap(joins) && JoinMap(joins)[JoinTrial(joins[i])] == joins[i]
    ensures forall t | t in JoinMap(joins) :: exists i: nat :: LastJoin(joins, i) && JoinTrial(joins[i]) == t
  {
    if joins == [] {
    } else {
      var n := |joins| - 1;
      var rest := joins[..n];
      JoinMapHoldsLast(rest);
      assert LastJoin(joins, n);
      forall i: nat | i < n && JoinTrial(joins[i]) != JoinTrial(joins[n])
        ensures LastJoin(joins, i) <==> LastJoin(rest, i)
      {
        assert forall k | 0 <= k < n :: joins[k] == rest[k];
      }
    }
  }

  lemma {:induction false} RunMapHoldsLast(records: seq<RunRecord>)
    ensures forall i: nat | LastRun(records, i) ::
              TrialOf(records[i]) in RunMap(records) && RunMap(records)[TrialOf(records[i])] == records[i]
    ensures forall t | t in RunMap(records) :: exists i: nat :: LastRun(records, i) && TrialOf(records[i]) == t
  {
    if records == [] {
    } else {
      var n := |records| - 1;
      var rest := records[..n];
      RunMapHoldsLast(rest);
      assert LastRun(records, n);
      forall i: nat | i < n && TrialOf(records[i]) != TrialOf(records[n])
        ensures LastRun(records, i) <==> LastRun(rest, i)
      {
        assert forall k | 0 <= k < n :: records[k] == rest[k];
      }
    }
  }

  lemma ReceiptsOneMore(receipts: seq<Receipt>, i: nat)
    requires receipts != [] && i < |receipts| - 1
    ensures LastReceipt(receipts, i) <==>
              LastReceipt(receipts[..|receipts| - 1], i) && receipts[i].runId != receipts[|receipts| - 1].runId
  {
    var rest := receipts[..|receipts| - 1];
    assert forall k | 0 <= k < |rest| :: receipts[k] == rest[k];
  }

  lemma {:induction false} ReceiptMapAt(receipts: seq<Receipt>, i: nat)
    requires LastReceipt(receipts, i)
    ensures receipts[i].runId in ReceiptMap(receipts) && ReceiptMap(receipts)[receipts[i].runId] == receipts[i]
  {
    if i == |receipts| - 1 {
    } else {
      ReceiptsOneMore(receipts, i);
      ReceiptMapAt(receipts[..|receipts| - 1], i);
    }
  }

  lemma {:induction false} ReceiptMapFrom(receipts: seq<Receipt>, id: string) returns (i: nat)
    requires id in ReceiptMap(receipts)
    ensures LastReceipt(receipts, i) && receipts[i].runId == id
  {
    var n := |receipts| - 1;
    if receipts[n].runId == id {
      i := n;
    } else {
      i := ReceiptMapFrom(receipts[..n], id);
      ReceiptsOneMore(receipts, i);
    }
  }

  lemma {:induction false} RunMapKeys(records: seq<RunRecord>)
    ensures RunMap(records).Keys == Trials(records)
  {
    if records == [] {
    } else {
      var rest, last := records[..|records| - 1], records[|records| - 1];
      RunMapKeys(rest);
      assert records == rest + [last];
      assert Trials(records) == Trials(rest) + {TrialOf(last)};
    }
  }

  lemma {:induction false} ReceiptMapKeys(receipts: seq<Receipt>)
    ensures ReceiptMap(receipts).Keys == ReceiptIds(receipts)
  {
    if receipts == [] {
    } else {
      var rest, last := receipts[..|receipts| - 1], receipts[|receipts| - 1];
      ReceiptMapKeys(rest);
      assert receipts == rest + [last];
      assert ReceiptIds(receipts) == ReceiptIds(rest) + {last.runId};
    }
  }

  ghost function ReceiptIds(receipts: seq<Receipt>): (r: set<string>) { set x | x in receipts :: x.runId }

  /** As many runs have receipts as there are records, and the last receipt of each run is for its record. */
  ghost predicate Receipted(records: seq<RunRecord>, receipts: seq<Receipt>) {
    && |ReceiptIds(receipts)| == |records|
    && forall r | r in records :: HasReceipt(receipts, r)
  }

  ghost predicate HasReceipt(receipts: seq<Receipt>, r: RunRecord) {
    exists i: nat :: LastReceipt(receipts, i) && receipts[i].runId == r.runId && receipts[i].record == r
  }

  lemma ReceiptsAreReceipted(records: seq<RunRecord>, receipts: seq<Receipt>)
    ensures ReceiptsOk(records, receipts) <==> Receipted(records, receipts)
  {
    var byRun := ReceiptMap(receipts);
    ReceiptMapKeys(receipts);
    assert |byRun| == |byRun.Keys|;
    forall r | r in records
      ensures (r.runId in byRun && byRun[r.runId].record == r) <==> HasReceipt(receipts, r)
    {
      if r.runId in byRun {
        var i := ReceiptMapFrom(receipts, r.runId);
        ReceiptMapAt(receipts, i);
      }
      if HasReceipt(receipts, r) {
        var i: nat :| LastReceipt(receipts, i) && receipts[i].runId == r.runId && receipts[i].record == r;
        ReceiptMapAt(receipts, i);
      }
    }
  }

  /** The last join of a trial names the last runs of that trial in both planes, which have its outcome, and
      a verified trace. */
  ghost predicate Confirmed(result: BatchResult, i: nat, traces: set<string>)
    requires i < |result.joins|
  {
    var j := result.joins[i];
    exists k: nat, m: nat ::
      && LastRun(result.records, k) && LastRun(result.harness, m)
      && TrialOf(result.records[k]) == JoinTrial(j) == TrialOf(result.harness[m])
      && j.tauRunId == result.records[k].runId && j.harnessRunId == result.harness[m].runId
      && j.outcome == result.records[k].success && j.outcome == result.harness[m].success
      && j.trace in traces
  }

  lemma JoinsAreConfirmed(result: BatchResult, traces: set<string>)
    requires JoinMap(result.joins).Keys == RunMap(result.harness).Keys
    ensures JoinsAgree(result, traces) <==>
              forall i: nat | LastJoin(result.joins, i) :: Confirmed(result, i, traces)
  {
    var joins, tau, harness := JoinMap(result.joins), RunMap(result.records), RunMap(result.harness);
    JoinMapHoldsLast(result.joins);
    RunMapHoldsLast(result.records);
    RunMapHoldsLast(result.harness);
    forall i: nat | LastJoin(result.joins, i)
      ensures var t := JoinTrial(result.joins[i]);
              Confirmed(result, i, traces) <==>
                t in tau && Agrees(joins[t], tau[t], harness[t]) && joins[t].trace in traces
    {
      var t := JoinTrial(result.joins[i]);
      assert t in joins && t in harness;
      if t in tau {
        var k: nat :| LastRun(result.records, k) && TrialOf(result.records[k]) == t;
        var m: nat :| LastRun(result.harness, m) && TrialOf(result.harness[m]) == t;
      }
    }
  }

  lemma GapsAreLastRuns(result: BatchResult)
    ensures GapsAreInfra(result) <==>
              forall k: nat | LastRun(result.records, k) && TrialOf(result.records[k]) !in JoinedTrials(result.joins) ::
                !result.records[k].valid
  {
    RunMapHoldsLast(result.records);
    RunMapKeys(result.records);
    JoinMapKeys(result.joins);
  }

  /** The whole check, said of the lists: counts, receipts, trace, trials of the three planes, gaps of a
      batch that stopped early, and the joins. */
  lemma EvidenceByLists(result: BatchResult, c: RunContext, failFast: bool, traces: set<string>)
    ensures EvidenceOk(result, c, failFast, traces) <==>
              && (if failFast then 0 < |result.records| < |c.taskIds| * c.trials
                  else |result.records| == |result.harness| == |JoinedTrials(result.joins)| == |c.taskIds| * c.trials)
              && Receipted(result.records, result.receipts) && Receipted(result.harness, result.harnessReceipts)
              && result.traceVerified
              && JoinedTrials(result.joins) == Trials(result.harness)
              && (!failFast ==> JoinedTrials(result.joins) == Trials(result.records))
              && (failFast ==>
                    forall k: nat | LastRun(result.records, k)
                      && TrialOf(result.records[k]) !in JoinedTrials(result.joins) :: !result.records[k].valid)
              && (forall i: nat | LastJoin(result.joins, i) :: Confirmed(result, i, traces))
  {
    ReceiptsAreReceipted(result.records, result.receipts);
    ReceiptsAreReceipted(result.harness, result.harnessReceipts);
    RunMapKeys(result.records);
    RunMapKeys(result.harness);
    JoinMapKeys(result.joins);
    GapsAreLastRuns(result);
    assert |JoinMap(result.joins)| == |JoinMap(result.joins).Keys|;
    if JoinMap(result.joins).Keys == RunMap(result.harness).Keys {
      JoinsAreConfirmed(result, traces);
    }
  }

  /** The position that stopped a batch has one record and that is an infrastructure failure. */
  lemma TriggerIsOneRun(records: seq<RunRecord>, pair: Trial)
    ensures TriggerIsInfra(records, pair) <==>
              OneRecord(records, pair) && forall r | r in records && TrialOf(r) == pair :: !r.valid
  {
    if OneRecord(records, pair) {
      var i :| 0 <= i < |records| && TrialOf(records[i]) == pair
               && forall j | 0 <= j < |records| && TrialOf(records[j]) == pair :: j == i;
      assert records[i] in records;
    }
  }

  // ---- The disposition ----

  function HoldReasons(s: Summary, evidenceComplete: bool, cost: Option<CostStatus>): (r: set<HoldReason>) {
    (set issue | issue in s.issues :: IntegrityIssue(issue))
    + (if s.infraRuns > 0 then {InfraInvalid(s.infraRuns)} else {})
    + (if evidenceComplete then {} else {EvidenceIncomplete})
    + (if cost.Some? && !cost.value.Exact? then {CostNotExact(cost.value)} else {})
  }

  /** The rule of FormalBatchArtifact. */
  predicate DispositionRule(a: Artifact) {
    && (a.summary.infraRuns > 0 || !Complete(a.summary) ==> !a.complete)
    && (a.complete <==> a.holdReasons == {})
  }

  /** The hold reasons are those that there are, and without one the batch is complete. */
  ghost predicate Reasoned(a: Artifact, evidenceComplete: bool, cost: Option<CostStatus>) {
    && (forall issue :: IntegrityIssue(issue) in a.holdReasons <==> issue in a.summary.issues)
    && (forall n :: InfraInvalid(n) in a.holdReasons <==> n == a.summary.infraRuns && n > 0)
    && (EvidenceIncomplete in a.holdReasons <==> !evidenceComplete)
    && (forall status :: CostNotExact(status) in a.holdReasons <==> cost == Some(status) && !status.Exact?)
    && (a.complete <==> a.holdReasons == {})
  }

  method SealBatch(result: BatchResult, c: RunContext, trigger: Option<(string, int)>, policy: bool,
                   traces: set<string>, cost: Option<CostStatus>)
    returns (r: Result<Artifact, BatchFault>)
    requires ValidContext(c)
    ensures r.Success? ==>
              && Summarizable(result.records, c)
              && r.value.summary == SummaryOf(result.records, c, RunIds(result.records))
              && EvidenceOk(result, c, trigger.Some?, traces)
              && (trigger.Some? ==> policy && FailFastOk(result, c, trigger.value))
              && (trigger.None? ==> result.evidenceComplete)
              && DispositionRule(r.value) && Reasoned(r.value, result.evidenceComplete, cost)
              && (r.value.complete <==>
                    Complete(r.value.summary) && r.value.summary.infraRuns == 0 && result.evidenceComplete
                    && (cost.Some? ==> cost.value.Exact?))
  {
    var failFast := VerifiedFailFast(result, c, trigger, policy);
    if failFast.Failure? {
      return Failure(failFast.error);
    }
    var summary := SummarizeAndVerify(result, c, failFast.value, traces);
    if summary.Failure? {
      return Failure(summary.error);
    }
    var reasons := HoldReasons(summary.value, result.evidenceComplete, cost);
    ReasonsFollow(summary.value, result.evidenceComplete, cost);
    ReasonsAreThere(Artifact(summary.value, reasons == {}, reasons), result.evidenceComplete, cost);
    return Success(Artifact(summary.value, reasons == {}, reasons));
  }

  lemma ReasonsAreThere(a: Artifact, evidenceComplete: bool, cost: Option<CostStatus>)
    requires a == Artifact(a.summary, a.holdReasons == {}, HoldReasons(a.summary, evidenceComplete, cost))
    ensures Reasoned(a, evidenceComplete, cost)
  {
  }

  lemma ReasonsFollow(s: Summary, evidenceComplete: bool, cost: Option<CostStatus>)
    ensures HoldReasons(s, evidenceComplete, cost) == {} <==>
              Complete(s) && s.infraRuns == 0 && evidenceComplete && (cost.Some? ==> cost.value.Exact?)
  {
    var reasons := HoldReasons(s, evidenceComplete, cost);
    if issue :| issue in s.issues {
      assert IntegrityIssue(issue) in reasons;
    }
    if s.infraRuns > 0 {
      assert InfraInvalid(s.infraRuns) in reasons;
    }
    if !evidenceComplete {
      assert EvidenceIncomplete in reasons;
    }
    if cost.Some? && !cost.value.Exact? {
      assert CostNotExact(cost.value) in reasons;
    }
  }

  // ---- Main results ----

  /** Trial `t` has exactly one record. */
  ghost predicate OneRecord(records: seq<RunRecord>, t: Trial) {
    exists i :: 0 <= i < |records| && TrialOf(records[i]) == t
                && forall j | 0 <= j < |records| && TrialOf(records[j]) == t :: j == i
  }

  lemma {:induction false} AllValid(records: seq<RunRecord>)
    requires |Valids(records)| == |records|
    ensures forall r | r in records :: r.valid
  {
    if records == [] {
    } else {
      ValidsFewer(records[..|records| - 1]);
      AllValid(records[..|records| - 1]);
      assert records == records[..|records| - 1] + [records[|records| - 1]];
    }
  }

  lemma {:induction false} SomeInvalid(records: seq<RunRecord>, i: nat)
    requires i < |records| && !records[i].valid
    ensures |Valids(records)| < |records|
  {
    if i == |records| - 1 {
      ValidsFewer(records[..i]);
    } else {
      SomeInvalid(records[..|records| - 1], i);
    }
  }

  /** The runs of a complete batch are in bijection with tasks times trials, and all of them are valid. */
  lemma CompleteIsBijection(records: seq<RunRecord>, c: RunContext, verified: set<string>)
    requires ValidContext(c) && Summarizable(records, c)
    requires SummaryOf(records, c, verified).infraRuns == 0 && Complete(SummaryOf(records, c, verified))
    ensures |records| == |c.taskIds| * c.trials
    ensures forall r | r in records :: r.valid && TrialOf(r) in ExpectedTrials(c)
    ensures forall t | t in ExpectedTrials(c) :: OneRecord(records, t)
  {
    DoubleCounting(records, c, verified);
    ValidsFewer(records);
    AllValid(records);
    RunsAreValids(records, c);
    RunsWithin(records, c);
    TrialCounts(records, c);
    forall t | t in ExpectedTrials(c) ensures OneRecord(records, t) {
      FindRecord(records, c, t);
    }
  }

  lemma FindRecord(records: seq<RunRecord>, c: RunContext, t: Trial)
    requires Summarizable(records, c) && Indexes(ByTrial(records), records)
    requires t in ByTrial(records) && forall r | r in records :: r.valid
    ensures OneRecord(records, t)
  {
    var r := ByTrial(records)[t];
    var i :| 0 <= i < |records| && records[i] == r;
    forall j | 0 <= j < |records| && TrialOf(records[j]) == t ensures j == i {
      assert records[j] in records && records[i] in records;
    }
  }

  lemma {:induction false} RunMapOfDistinct(records: seq<RunRecord>)
    requires forall i, j | 0 <= i < j < |records| :: TrialOf(records[i]) != TrialOf(records[j])
    ensures forall r | r in records :: TrialOf(r) in RunMap(records) && RunMap(records)[TrialOf(r)] == r
  {
    if records == [] {
    } else {
      var rest, last := records[..|records| - 1], records[|records| - 1];
      assert records == rest + [last];
      RunMapOfDistinct(rest);
    }
  }

  /** In a complete batch every run has a verified harness trace and a join that agrees with it. */
  lemma CompleteIsJoined(result: BatchResult, c: RunContext, traces: set<string>, r: RunRecord)
    requires ValidContext(c) && Summarizable(result.records, c) && EvidenceOk(result, c, false, traces)
    requires (forall x | x in result.records :: x.valid) && r in result.records
    ensures var joins, harness := JoinMap(result.joins), RunMap(result.harness);
            && TrialOf(r) in joins && TrialOf(r) in harness
            && Agrees(joins[TrialOf(r)], r, harness[TrialOf(r)]) && joins[TrialOf(r)].trace in traces
  {
    forall i, j | 0 <= i < j < |result.records|
      ensures TrialOf(result.records[i]) != TrialOf(result.records[j])
    {
      assert result.records[i] in result.records && result.records[j] in result.records;
    }
    RunMapOfDistinct(result.records);
  }

  /** A batch accepted through the fail-fast path is never complete. */
  lemma FailFastHolds(result: BatchResult, c: RunContext, trigger: (string, int), verified: set<string>)
    requires ValidContext(c) && Summarizable(result.records, c) && FailFastOk(result, c, trigger)
    ensures SummaryOf(result.records, c, verified).infraRuns > 0
    ensures MissingValidTrials in SummaryOf(result.records, c, verified).issues
  {
    var pair: Trial := (trigger.0, trigger.1 + 1);
    var i :| 0 <= i < |result.records| && TrialOf(result.records[i]) == pair && !result.records[i].valid;
    DoubleCounting(result.records, c, verified);
    SomeInvalid(result.records, i);
    RunsAreValids(result.records, c);
    forall t | t in ByTrial(result.records) ensures t in Trials(result.records) {
      assert ByTrial(result.records)[t] in result.records;
    }
  }

  /** Pigeonhole: in a full population one infra-invalid run leaves a valid trial missing. */
  lemma InfraRunLeavesGap(records: seq<RunRecord>, c: RunContext, verified: set<string>)
    requires ValidContext(c) && Summarizable(records, c) && |records| == |c.taskIds| * c.trials
    ensures (exists r :: r in records && !r.valid) <==> MissingValidTrials in SummaryOf(records, c, verified).issues
  {
    DoubleCounting(records, c, verified);
    ValidsFewer(records);
    if |Valids(records)| == |records| {
      AllValid(records);
    }
    if forall r | r in records :: r.valid {
      AllKept(records);
    }
  }

  lemma {:induction false} AllKept(records: seq<RunRecord>)
    requires forall r | r in records :: r.valid
    ensures Valids(records) == records
  {
    if records == [] {
    } else {
      var rest, last := records[..|records| - 1], records[|records| - 1];
      assert records == rest + [last] && last in records;
      AllKept(rest);
    }
  }

  // ---- How many joins a complete batch carries ----

  ghost predicate OneJoin(joins: seq<Join>, t: Trial) {
    exists i :: 0 <= i < |joins| && JoinTrial(joins[i]) == t
                && forall j | 0 <= j < |joins| && JoinTrial(joins[j]) == t :: j == i
  }

  ghost predicate DistinctJoins(joins: seq<Join>) {
    forall i, j | 0 <= i < j < |joins| :: JoinTrial(joins[i]) != JoinTrial(joins[j])
  }

  lemma DistinctStep(rest: seq<Join>, last: Join)
    ensures DistinctJoins(rest + [last]) <==> DistinctJoins(rest) && JoinTrial(last) !in JoinedTrials(rest)
  {
    var joins := rest + [last];
    if JoinTrial(last) in JoinedTrials(rest) {
      var j :| j in rest && JoinTrial(j) == JoinTrial(last);
      var i :| 0 <= i < |rest| && rest[i] == j;
      assert joins[i] == j && joins[|rest|] == last;
    } else {
      forall i | 0 <= i < |rest| ensures JoinTrial(joins[i]) != JoinTrial(last) {
        assert rest[i] in rest;
      }
    }
    if DistinctJoins(joins) {
      forall i, j | 0 <= i < j < |rest| ensures JoinTrial(rest[i]) != JoinTrial(rest[j]) {
        assert joins[i] == rest[i] && joins[j] == rest[j];
      }
    }
  }

  lemma {:induction false} JoinMapKeys(joins: seq<Join>)
    ensures JoinMap(joins).Keys == JoinedTrials(joins)
  {
    if joins == [] {
    } else {
      var rest, last := joins[..|joins| - 1], joins[|joins| - 1];
      JoinMapKeys(rest);
      assert joins == rest + [last];
      assert JoinedTrials(joins) == JoinedTrials(rest) + {JoinTrial(last)};
    }
  }

  lemma {:induction false} JoinMapSize(joins: seq<Join>)
    ensures |JoinMap(joins)| <= |joins|
    ensures |JoinMap(joins)| == |joins| <==> DistinctJoins(joins)
  {
    if joins == [] {
    } else {
      var rest, last := joins[..|joins| - 1], joins[|joins| - 1];
      assert joins == rest + [last];
      JoinMapSize(rest);
      JoinMapKeys(rest);
      DistinctStep(rest, last);
    }
  }

  /** The source looks at one join per trial, the last one listed.  That every trial has exactly one
      join is true of an accepted full batch exactly when the list is as long as the population. */
  lemma OneJoinPerTrial(result: BatchResult, c: RunContext, traces: set<string>)
    requires EvidenceOk(result, c, false, traces)
    ensures |result.joins| == |c.taskIds| * c.trials <==>
              forall t | t in JoinedTrials(result.joins) :: OneJoin(result.joins, t)
  {
    JoinMapSize(result.joins);
    JoinMapKeys(result.joins);
    DistinctIsOne(result.joins);
  }

  lemma DistinctIsOne(joins: seq<Join>)
    ensures DistinctJoins(joins) <==> forall t | t in JoinedTrials(joins) :: OneJoin(joins, t)
  {
    if DistinctJoins(joins) {
      forall t | t in JoinedTrials(joins) ensures OneJoin(joins, t) {
        var x :| x in joins && JoinTrial(x) == t;
        var i :| 0 <= i < |joins| && joins[i] == x;
      }
    }
    if forall t | t in JoinedTrials(joins) :: OneJoin(joins, t) {
      forall i, j | 0 <= i < j < |joins| ensures JoinTrial(joins[i]) != JoinTrial(joins[j]) {
        assert joins[i] in joins && OneJoin(joins, JoinTrial(joins[i]));
      }
    }
  }

  /** The validator of the linked result (agentloopgate/adapters/dsh_tau3.py): it compares sets of run ids,
      which do not tell one join from two. */
  predicate ArtifactsAligned(result: BatchResult) {
    var harnessIds, tauIds := RunIds(result.harness), RunIds(result.records);
    var joined := set j | j in result.joins :: j.tauRunId;
    && |harnessIds| == |result.harness|
    && (set x | x in result.harnessReceipts :: x.runId) == harnessIds
    && (set j | j in result.joins :: j.harnessRunId) == harnessIds
    && if result.evidenceComplete then joined == tauIds
       else joined < tauIds && forall r | r in result.records && r.runId !in joined :: !r.valid
  }

  /** The linker makes one join per record. */
  predicate LinkedJoins(result: BatchResult) {
    && |result.joins| == |result.records|
    && forall i | 0 <= i < |result.joins| :: JoinTrial(result.joins[i]) == TrialOf(result.records[i])
  }

  /** So a full batch that comes from the linker has exactly one join per trial; only another executor or
      an altered evidence store can supply a list that has more. */
  lemma LinkerJoinsOnce(result: BatchResult, c: RunContext, traces: set<string>)
    requires EvidenceOk(result, c, false, traces) && LinkedJoins(result)
    ensures forall t | t in JoinedTrials(result.joins) :: OneJoin(result.joins, t)
  {
    OneJoinPerTrial(result, c, traces);
  }

  /** An accepted, complete batch that passes the validator of the linked result and also lists a join
      which contradicts its run. */
  lemma HiddenJoinConflict() returns (result: BatchResult, c: RunContext, traces: set<string>)
    ensures ArtifactsAligned(result) && !LinkedJoins(result)
    ensures ValidContext(c) && Summarizable(result.records, c) && EvidenceOk(result, c, false, traces)
    ensures var s := SummaryOf(result.records, c, RunIds(result.records)); s.infraRuns == 0 && s.issues == {}
    ensures exists j, r :: j in result.joins && r in result.records && JoinTrial(j) == TrialOf(r)
                           && j.outcome != r.success
  {
    c := RunContext(Pool.Selection, "s", None, ["t"], 1);
    var tau := RunRecord("a", "t", Pool.Selection, "s", None, 1, true, Some(true), 0, 0, Some(0.0));
    var wrong := Join("t", 1, "a", "b", "x", Some(false));
    result := SmallBatch(tau, tau.(runId := "b"), wrong, wrong.(outcome := Some(true)));
    traces := {"x"};
    SmallEvidence(tau, tau.(runId := "b"), wrong, wrong.(outcome := Some(true)), c, traces);
    SmallSummary(tau, c);
    SmallAligned(tau, tau.(runId := "b"), wrong, wrong.(outcome := Some(true)));
    assert wrong in result.joins && tau in result.records;
  }

  predicate NothingHeld(s: Summary) { s.infraRuns == 0 && Complete(s) }

  function SmallBatch(tau: RunRecord, dsh: RunRecord, hidden: Join, last: Join): (r: BatchResult) {
    BatchResult([tau], [Receipt(tau.runId, tau)], [dsh], [Receipt(dsh.runId, dsh)], [hidden, last], true, true)
  }

  lemma SmallAligned(tau: RunRecord, dsh: RunRecord, hidden: Join, last: Join)
    requires hidden.tauRunId == last.tauRunId == tau.runId && hidden.harnessRunId == last.harnessRunId == dsh.runId
    ensures ArtifactsAligned(SmallBatch(tau, dsh, hidden, last))
  {
    var result := SmallBatch(tau, dsh, hidden, last);
    assert RunIds(result.harness) == {dsh.runId} && RunIds(result.records) == {tau.runId};
    assert result.joins[0] in result.joins && result.harnessReceipts[0] in result.harnessReceipts;
  }

  lemma SmallEvidence(tau: RunRecord, dsh: RunRecord, hidden: Join, last: Join, c: RunContext, traces: set<string>)
    requires TrialOf(tau) == TrialOf(dsh) == JoinTrial(hidden) == JoinTrial(last)
    requires Agrees(last, tau, dsh) && last.trace in traces && |c.taskIds| * c.trials == 1
    ensures EvidenceOk(SmallBatch(tau, dsh, hidden, last), c, false, traces)
  {
    TwoJoins(hidden, last);
  }

  lemma SmallSummary(tau: RunRecord, c: RunContext)
    requires c.taskIds == [tau.taskId] && c.trials == 1 && tau.valid && Belongs(tau, c)
    ensures Summarizable([tau], c)
    ensures NothingHeld(SummaryOf([tau], c, RunIds([tau])))
  {
    SmallIssues(tau, c);
  }

  lemma SmallIssues(tau: RunRecord, c: RunContext)
    requires c.taskIds == [tau.taskId] && c.trials == 1 && tau.trialIndex == 1 && tau.valid
    ensures IssuesOf(ByTrial([tau]), c, false) == {}
  {
  }

  lemma TwoJoins(a: Join, b: Join)
    requires JoinTrial(a) == JoinTrial(b)
    ensures JoinMap([a, b]) == map[JoinTrial(b) := b]
  {
    assert [a, b][..1] == [a] && [a][..0] == [];
    assert JoinMap([a]) == map[JoinTrial(a) := a];
  }

  // ---- From raw result to verdict ----

  /** A raw result that ingestion accepts as a full population is always summarizable, and its batch
      misses a valid trial exactly when one of its simulations ended in infrastructure failure. */
  lemma IngestedBatch(listed: set<string>, sims: seq<Simulation>, c: RunContext, verified: set<string>)
    requires ValidContext(c) && Ingest.Ingestible(listed, sims, c, None)
    ensures var records := Ingest.RecordsOf(Sort(Ingest.RunFirst, sims), c);
            && Summarizable(records, c)
            && |records| == |c.taskIds| * c.trials
            && (MissingValidTrials in SummaryOf(records, c, verified).issues <==> exists s :: s in sims && s.infra)
  {
    var sorted := Sort(Ingest.RunFirst, sims);
    var records := Ingest.RecordsOf(sorted, c);
    Ingest.RunOrder();
    SortSorts(Ingest.RunFirst, sims);
    SameElements(sorted, sims);
    DistinctPermutes(sims, sorted);
    IngestedSummarizable(sims, sorted, c);
    IngestedCount(sorted, c);
    InfraRunLeavesGap(records, c, verified);
    InfraIsInvalid(sorted, c);
  }

  lemma InfraIsInvalid(sims: seq<Simulation>, c: RunContext)
    ensures (exists r :: r in Ingest.RecordsOf(sims, c) && !r.valid) <==> exists s :: s in sims && s.infra
  {
    var records := Ingest.RecordsOf(sims, c);
    if r :| r in records && !r.valid {
      var i :| 0 <= i < |sims| && records[i] == r;
      assert sims[i] in sims && sims[i].infra;
    }
    if s :| s in sims && s.infra {
      var i :| 0 <= i < |sims| && sims[i] == s;
      assert records[i] in records && !records[i].valid;
    }
  }

  lemma DistinctPermutes(a: seq<Simulation>, b: seq<Simulation>)
    requires multiset(a) == multiset(b) && Ingest.DistinctRuns(a)
    ensures Ingest.DistinctRuns(b)
  {
    forall i, j | 0 <= i < j < |b| ensures Ingest.Pair(b[i]) != Ingest.Pair(b[j]) && b[i].id != b[j].id {
      var k, l := Places(a, b, i, j);
    }
  }

  lemma IngestedSummarizable(sims: seq<Simulation>, sorted: seq<Simulation>, c: RunContext)
    requires Ingest.DistinctRuns(sorted) && (forall s :: s in sims <==> s in sorted)
    requires Ingest.Pairs(sims) <= Ingest.ExpectedPairs(c)
    ensures Summarizable(Ingest.RecordsOf(sorted, c), c)
  {
    var records := Ingest.RecordsOf(sorted, c);
    forall r | r in records ensures Belongs(r, c) {
      var i :| 0 <= i < |sorted| && records[i] == r;
      assert Ingest.Pair(sorted[i]) in Ingest.Pairs(sims);
    }
    forall i, j | 0 <= i < j < |records|
      ensures records[i].runId != records[j].runId && TrialOf(records[i]) != TrialOf(records[j])
    {
      assert Ingest.Pair(sorted[i]) != Ingest.Pair(sorted[j]);
    }
  }

  lemma {:induction false} PairsCount(sims: seq<Simulation>)
    requires Ingest.DistinctRuns(sims)
    ensures |Ingest.Pairs(sims)| == |sims|
  {
    if sims == [] {
      assert Ingest.Pairs(sims) == {};
    } else {
      var rest, last := sims[..|sims| - 1], sims[|sims| - 1];
      assert sims == rest + [last];
      PairsCount(rest);
      assert Ingest.Pair(last) !in Ingest.Pairs(rest);
      assert Ingest.Pairs(sims) == Ingest.Pairs(rest) + {Ingest.Pair(last)};
    }
  }

  lemma IngestedCount(sims: seq<Simulation>, c: RunContext)
    requires ValidContext(c) && Ingest.DistinctRuns(sims) && Ingest.Pairs(sims) == Ingest.ExpectedPairs(c)
    ensures |sims| == |c.taskIds| * c.trials
  {
    PairsCount(sims);
    ExpectedShift(c);
    ExpectedCard(c);
  }

  lemma ExpectedCard(c: RunContext)
    requires ValidContext(c)
    ensures |ExpectedTrials(c)| == |c.taskIds| * c.trials
  {
    assert Within(ExpectedTrials(c), c.taskIds, c.trials);
    SumAtIsCard(ExpectedTrials(c), c.taskIds, c.trials);
    SumAtBound(ExpectedTrials(c), c.taskIds, c.trials);
    CoversExactlyExpected(ExpectedTrials(c), c);
  }

  /** The raw result counts trials from zero, the records from one. */
  lemma ExpectedShift(c: RunContext)
    ensures |Ingest.ExpectedPairs(c)| == |ExpectedTrials(c)|
  {
    var shifted := set p | p in Ingest.ExpectedPairs(c) :: (p.0, p.1 + 1);
    ShiftCard(Ingest.ExpectedPairs(c), shifted);
    forall t | t in ExpectedTrials(c) ensures t in shifted {
      assert (t.0, t.1 - 1) in Ingest.ExpectedPairs(c);
    }
    assert shifted == ExpectedTrials(c);
  }

  lemma {:induction false} ShiftCard(s: set<Trial>, shifted: set<Trial>)
    requires shifted == set p | p in s :: (p.0, p.1 + 1)
    ensures |shifted| == |s|
    decreases |s|
  {
    if s == {} {
    } else {
      var p :| p in s;
      var less := set q | q in s - {p} :: (q.0, q.1 + 1);
      assert shifted == less + {(p.0, p.1 + 1)};
      ShiftCard(s - {p}, less);
    }
  }
}
