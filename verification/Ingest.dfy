/** Ingestion of one raw benchmark result (agentloopgate/adapters/tau3.py, _ingest and _record). */
module Ingest {
  import opened Common
  import opened Ordering
  import opened Records
  import opened CallLedger
  import opened CostLineage

  datatype IngestFault =
    | TaskListDiffers | Duplicate | PopulationDiffers | NotStrictSubset | TriggerNotInfra | RecordInvalid

  function Pair(s: Simulation): (r: (string, int)) { (s.taskId, s.trial) }

  function ExpectedPairs(context: RunContext): (r: set<(string, int)>) {
    set id, trial | id in context.taskIds && 0 <= trial < context.trials :: (id, trial)
  }

  function Pairs(sims: seq<Simulation>): (r: set<(string, int)>) {
    set s | s in sims :: Pair(s)
  }

  ghost predicate DistinctRuns(sims: seq<Simulation>) {
    forall i, j | 0 <= i < j < |sims| :: Pair(sims[i]) != Pair(sims[j]) && sims[i].id != sims[j].id
  }

  predicate Recordable(s: Simulation) {
    && (!s.infra ==> s.agentCost.Some?)
    && (s.agentCost.Some? ==> s.agentCost.value >= 0.0)
  }

  function RecordOf(s: Simulation, context: RunContext): (r: RunRecord) {
    RunRecord(
      s.id, s.taskId, context.pool, context.snapshotId, context.candidateId, s.trial + 1,
      !s.infra, if s.infra then None else Some(s.success), 0, s.latencyMs, s.agentCost)
  }

  predicate RunFirst(a: Simulation, b: Simulation) {
    if a.taskId != b.taskId then StringLe(a.taskId, b.taskId)
    else if a.trial != b.trial then a.trial < b.trial
    else StringLe(a.id, b.id)
  }

  function RecordsOf(sims: seq<Simulation>, context: RunContext): (r: seq<RunRecord>) {
    seq(|sims|, i requires 0 <= i < |sims| => RecordOf(sims[i], context))
  }

  /** The population a result must have: every expected pair once, or, when a fail-fast position is
      given, a strict part of them that contains that position as an infrastructure failure. */
  ghost predicate PopulationOk(sims: seq<Simulation>, context: RunContext, failFast: Option<(string, int)>) {
    match failFast
    case None => Pairs(sims) == ExpectedPairs(context)
    case Some(pair) =>
      && pair in Pairs(sims) && Pairs(sims) < ExpectedPairs(context)
      && forall s | s in sims && Pair(s) == pair :: s.infra
  }

  ghost predicate Ingestible(listed: set<string>, sims: seq<Simulation>, context: RunContext,
                             failFast: Option<(string, int)>) {
    && listed == (set id | id in context.taskIds)
    && DistinctRuns(sims)
    && PopulationOk(sims, context, failFast)
    && forall s | s in sims :: Recordable(s)
  }

  /** The duplicate check of the source: two growing sets. */
  method CheckDuplicates(sims: seq<Simulation>) returns (pairs: Option<set<(string, int)>>)
    ensures pairs.Some? <==> DistinctRuns(sims)
    ensures pairs.Some? ==> pairs.value == Pairs(sims)
  {
    var actual: set<(string, int)> := {};
    var ids: set<string> := {};
    for k := 0 to |sims|
      invariant DistinctRuns(sims[..k])
      invariant actual == Pairs(sims[..k]) && ids == set s | s in sims[..k] :: s.id
    {
      var s := sims[k];
      ghost var before, after := sims[..k], sims[..k + 1];
      assert after == before + [s];
      if Pair(s) in actual || s.id in ids {
        ghost var t :| t in before && (Pair(t) == Pair(s) || t.id == s.id);
        ghost var i :| 0 <= i < k && sims[i] == t;
        return None;
      }
      forall i | 0 <= i < k ensures Pair(sims[i]) != Pair(s) && sims[i].id != s.id {
        assert sims[i] in before;
      }
      assert Pairs(after) == Pairs(before) + {Pair(s)};
      assert (set x | x in after :: x.id) == (set x | x in before :: x.id) + {s.id};
      actual := actual + {Pair(s)};
      ids := ids + {s.id};
    }
    assert sims[..|sims|] == sims;
    return Some(actual);
  }

  /** A record that keeps its simulation: identity, position, validity, outcome, latency and cost. */
  ghost predicate Keeps(r: RunRecord, s: Simulation, c: RunContext) {
    && r.runId == s.id && r.taskId == s.taskId && r.trialIndex == s.trial + 1
    && r.pool == c.pool && r.snapshotId == c.snapshotId && r.candidateId == c.candidateId
    && r.valid == !s.infra && r.success == (if s.infra then None else Some(s.success))
    && r.criticalViolations == 0 && r.latencyMs == s.latencyMs && r.cost == s.agentCost
  }

  /** The records match the simulations one to one, in the order of task, trial and id. */
  ghost predicate Matches(records: seq<RunRecord>, sims: seq<Simulation>, c: RunContext) {
    && |records| == |sims| && InRunOrder(records)
    && (forall s | s in sims :: IsKept(s, records, c))
    && (forall r | r in records :: IsIngested(r, sims, c))
  }

  ghost predicate IsKept(s: Simulation, records: seq<RunRecord>, c: RunContext) {
    exists r :: r in records && Keeps(r, s, c)
  }

  ghost predicate IsIngested(r: RunRecord, sims: seq<Simulation>, c: RunContext) {
    exists s :: s in sims && Keeps(r, s, c)
  }

  ghost predicate InRunOrder(records: seq<RunRecord>) {
    forall i, j | 0 <= i < j < |records| :: RunsBefore(records[i], records[j])
  }

  ghost predicate RunsBefore(a: RunRecord, b: RunRecord) {
    if a.taskId != b.taskId then StringLe(a.taskId, b.taskId) else a.trialIndex < b.trialIndex
  }

  lemma RecordsMatch(sims: seq<Simulation>, c: RunContext)
    requires DistinctRuns(sims)
    ensures Matches(RecordsOf(Sort(RunFirst, sims), c), sims, c)
  {
    var sorted := Sort(RunFirst, sims);
    var records := RecordsOf(sorted, c);
    RunOrder();
    SortSorts(RunFirst, sims);
    SameElements(sorted, sims);
    forall s | s in sims ensures IsKept(s, records, c) {
      var i :| 0 <= i < |sorted| && sorted[i] == s;
      assert records[i] in records && Keeps(records[i], s, c);
    }
    forall r | r in records ensures IsIngested(r, sims, c) {
      var i :| 0 <= i < |records| && records[i] == r;
      assert sorted[i] in sims && Keeps(r, sorted[i], c);
    }
    forall i, j | 0 <= i < j < |records| ensures RunsBefore(records[i], records[j]) {
      assert RunFirst(sorted[i], sorted[j]);
      var k, l := Places(sims, sorted, i, j);
    }
  }

  /** The population check, over the positions that were found. */
  method CheckPopulation(sims: seq<Simulation>, actual: set<(string, int)>, context: RunContext,
                         failFast: Option<(string, int)>) returns (fault: Option<IngestFault>)
    requires DistinctRuns(sims) && actual == Pairs(sims)
    ensures fault.None? <==> PopulationOk(sims, context, failFast)
  {
    var expected := ExpectedPairs(context);
    if failFast.None? {
      return if actual == expected then None else Some(PopulationDiffers);
    }
    var pair := failFast.value;
    if pair !in expected || pair !in actual || !(actual < expected) {
      return Some(NotStrictSubset);
    }
    var trigger: Simulation :| trigger in sims && Pair(trigger) == pair;
    assert forall s | s in sims && Pair(s) == pair :: s == trigger;
    return if trigger.infra then None else Some(TriggerNotInfra);
  }

  method IngestResult(listed: set<string>, sims: seq<Simulation>, context: RunContext,
                      failFast: Option<(string, int)>)
    returns (r: Result<seq<RunRecord>, IngestFault>)
    ensures r.Success? <==> Ingestible(listed, sims, context, failFast)
    ensures r.Success? ==> Matches(r.value, sims, context)
    ensures r.Success? ==> r.value == RecordsOf(Sort(RunFirst, sims), context)
  {
    if listed != (set id | id in context.taskIds) {
      return Failure(TaskListDiffers);
    }
    var actual := CheckDuplicates(sims);
    if actual.None? {
      return Failure(Duplicate);
    }
    var fault := CheckPopulation(sims, actual.value, context, failFast);
    if fault.Some? {
      return Failure(fault.value);
    }
    if exists s | s in sims :: !Recordable(s) {
      return Failure(RecordInvalid);
    }
    RecordsMatch(sims, context);
    return Success(RecordsOf(Sort(RunFirst, sims), context));
  }

  /** Some simulation is of this task and trial. */
  ghost predicate HasRun(sims: seq<Simulation>, task: string, trial: int) {
    exists s :: s in sims && s.taskId == task && s.trial == trial
  }

  lemma PairsAreRuns(sims: seq<Simulation>, context: RunContext, task: string, trial: int)
    ensures (task, trial) in Pairs(sims) <==> HasRun(sims, task, trial)
    ensures (task, trial) in ExpectedPairs(context) <==> task in context.taskIds && 0 <= trial < context.trials
  {
    if HasRun(sims, task, trial) {
      var s :| s in sims && s.taskId == task && s.trial == trial;
      assert Pair(s) == (task, trial);
    }
  }

  ghost predicate InPopulation(sims: seq<Simulation>, context: RunContext) {
    forall s | s in sims :: s.taskId in context.taskIds && 0 <= s.trial < context.trials
  }

  ghost predicate IsFull(sims: seq<Simulation>, context: RunContext) {
    forall task, trial | task in context.taskIds && 0 <= trial < context.trials :: HasRun(sims, task, trial)
  }

  lemma PairsByRuns(sims: seq<Simulation>, context: RunContext)
    ensures Pairs(sims) <= ExpectedPairs(context) <==> InPopulation(sims, context)
    ensures ExpectedPairs(context) <= Pairs(sims) <==> IsFull(sims, context)
  {
    forall task, trial
      ensures (task, trial) in Pairs(sims) <==> HasRun(sims, task, trial)
      ensures (task, trial) in ExpectedPairs(context) <==> task in context.taskIds && 0 <= trial < context.trials
    {
      PairsAreRuns(sims, context, task, trial);
    }
    if Pairs(sims) <= ExpectedPairs(context) {
      forall s | s in sims ensures s.taskId in context.taskIds && 0 <= s.trial < context.trials {
        assert Pair(s) in Pairs(sims) && Pair(s) == (s.taskId, s.trial);
      }
    }
    if InPopulation(sims, context) {
      forall p | p in Pairs(sims) ensures p in ExpectedPairs(context) {
        assert p == (p.0, p.1) && HasRun(sims, p.0, p.1);
      }
    }
    if IsFull(sims, context) {
      forall p | p in ExpectedPairs(context) ensures p in Pairs(sims) {
        assert p == (p.0, p.1) && HasRun(sims, p.0, p.1);
      }
    }
  }

  /** What an accepted result is, simulation by simulation: the task list is the expected one, no run and no
      id is repeated, every run is expected, none is missing (or, with a fail-fast position, some are missing
      and that position is an infrastructure failure), and a scored run has a cost that is not negative. */
  lemma IngestibleByRuns(listed: set<string>, sims: seq<Simulation>, context: RunContext,
                         failFast: Option<(string, int)>)
    ensures Ingestible(listed, sims, context, failFast) <==>
              && (forall id :: id in listed <==> id in context.taskIds)
              && (forall i, j | 0 <= i < j < |sims| ::
                    sims[i].id != sims[j].id && (sims[i].taskId != sims[j].taskId || sims[i].trial != sims[j].trial))
              && InPopulation(sims, context)
              && (failFast.None? ==> IsFull(sims, context))
              && (failFast.Some? ==>
                    && !IsFull(sims, context) && HasRun(sims, failFast.value.0, failFast.value.1)
                    && forall s | s in sims && s.taskId == failFast.value.0 && s.trial == failFast.value.1 :: s.infra)
              && (forall s | s in sims ::
                    if s.agentCost.Some? then s.agentCost.value >= 0.0 else s.infra)
  {
    PairsByRuns(sims, context);
    if failFast.Some? {
      PairsAreRuns(sims, context, failFast.value.0, failFast.value.1);
      assert failFast.value == (failFast.value.0, failFast.value.1);
    }
  }

  // ---- Main results ----

  lemma RunOrder()
    ensures TotalPreorder(RunFirst)
  {
    forall a, b ensures RunFirst(a, b) || RunFirst(b, a) {
      StringTotal(a.taskId, b.taskId);
      StringTotal(a.id, b.id);
    }
    forall a, b, c | RunFirst(a, b) && RunFirst(b, c) ensures RunFirst(a, c) {
      if StringLe(a.taskId, b.taskId) && StringLe(b.taskId, c.taskId) {
        StringTransitive(a.taskId, b.taskId, c.taskId);
        StringTotal(a.taskId, b.taskId);
        StringTotal(b.taskId, c.taskId);
      }
      if StringLe(a.id, b.id) && StringLe(b.id, c.id) {
        StringTransitive(a.id, b.id, c.id);
      }
    }
  }

  function Scored(s: Simulation): (r: nat) { if s.infra then 0 else 1 }

  lemma PushCounts(t: seq<Simulation>, x: Simulation)
    ensures CountScored(t + [x]) == CountScored(t) + Scored(x)
    ensures SimPositions(t + [x]) == SimPositions(t) + multiset{(x.taskId, x.trial + 1)}
  {
  }

  lemma {:induction false} InsertScored(le: (Simulation, Simulation) -> bool, x: Simulation, s: seq<Simulation>)
    ensures CountScored(Insert(le, x, s)) == CountScored(s) + Scored(x)
    ensures SimPositions(Insert(le, x, s)) == SimPositions(s) + multiset{(x.taskId, x.trial + 1)}
  {
    if s == [] || le(s[|s| - 1], x) {
      PushCounts(s, x);
      assert Insert(le, x, s) == s + [x];
    } else {
      var rest, last := s[..|s| - 1], s[|s| - 1];
      assert s == rest + [last];
      InsertScored(le, x, rest);
      PushCounts(rest, last);
      PushCounts(Insert(le, x, rest), last);
    }
  }

  lemma {:induction false} SortCounts(le: (Simulation, Simulation) -> bool, sims: seq<Simulation>)
    ensures CountScored(Sort(le, sims)) == CountScored(sims)
    ensures SimPositions(Sort(le, sims)) == SimPositions(sims)
  {
    if sims == [] {
    } else {
      var rest, last := sims[..|sims| - 1], sims[|sims| - 1];
      assert sims == rest + [last];
      SortCounts(le, rest);
      PushCounts(rest, last);
      InsertScored(le, last, Sort(le, rest));
    }
  }

  lemma RecordsStep(sims: seq<Simulation>, context: RunContext)
    requires sims != []
    ensures var k, records := |sims| - 1, RecordsOf(sims, context);
            && |records| == |sims| && records[k] == RecordOf(sims[k], context)
            && records[..k] == RecordsOf(sims[..k], context)
  {
  }

  lemma {:induction false} RecordCounts(sims: seq<Simulation>, context: RunContext)
    ensures CountValid(RecordsOf(sims, context)) == CountScored(sims)
  {
    if sims == [] {
    } else {
      RecordsStep(sims, context);
      RecordCounts(sims[..|sims| - 1], context);
    }
  }

  lemma {:induction false} RecordPlaces(sims: seq<Simulation>, context: RunContext)
    ensures RecordPositions(RecordsOf(sims, context)) == SimPositions(sims)
  {
    if sims == [] {
    } else {
      RecordsStep(sims, context);
      RecordPlaces(sims[..|sims| - 1], context);
    }
  }

  /** Ingested records sit at the positions of their simulations and keep their validity, so the count
      of valid task attempts that the cost lineage reports is the count of VALID records. */
  lemma IngestedRecordsMatch(sims: seq<Simulation>, context: RunContext, order: seq<Identity>,
                             retained: map<Identity, bool>)
    requires Distinct(order) && Mirrors(retained, order, sims)
    ensures var records := RecordsOf(Sort(RunFirst, sims), context);
            && RecordPositions(records) == SimPositions(sims)
            && CountValid(records) == CountScored(sims)
            && |WithValue(retained, false)| == CountValid(records)
            && |retained| == |sims|
  {
    SortCounts(RunFirst, sims);
    RecordCounts(Sort(RunFirst, sims), context);
    RecordPlaces(Sort(RunFirst, sims), context);
    RetainedCounts(sims, order, retained);
  }

  /** Every ingested record passes the record validators. */
  lemma IngestedRecordsValid(listed: set<string>, sims: seq<Simulation>, context: RunContext,
                             failFast: Option<(string, int)>)
    requires Ingestible(listed, sims, context, failFast)
    ensures forall r | r in RecordsOf(Sort(RunFirst, sims), context) :: ValidRecord(r)
  {
    RunOrder();
    SortSorts(RunFirst, sims);
    var sorted := Sort(RunFirst, sims);
    SameElements(sorted, sims);
    forall i | 0 <= i < |sorted| ensures ValidRecord(RecordOf(sorted[i], context)) {
      assert sorted[i] in sims;
      PairExpected(sims, context, failFast, sorted[i]);
    }
  }

  lemma PairExpected(sims: seq<Simulation>, context: RunContext, failFast: Option<(string, int)>, s: Simulation)
    requires PopulationOk(sims, context, failFast) && s in sims
    ensures Pair(s) in ExpectedPairs(context)
  {
  }
}
