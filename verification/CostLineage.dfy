/** Binding every retained simulation to exactly one task attempt
    (agentloopgate/experiment/ledger.py, the first half of _direct_cost_lineage). */
module CostLineage {
  import opened Common
  import opened CallLedger
  import opened Records

  datatype TaskState = TaskStarted | SessionBound | TaskCompleted | TaskFailed

  datatype TaskEvent = TaskEvent(
    ledger11: bool,
    state: TaskState,
    taskId: string,
    trial: int,
    seed: int,
    attemptIndex: int,
    simulationId: Option<string>,
    timedOut: bool)

  /** A task, trial and seed, over which attempts are numbered. */
  datatype Position = Position(taskId: string, trial: int, seed: int)

  function PositionOf(e: TaskEvent): (r: Position) { Position(e.taskId, e.trial, e.seed) }

  function IdentityOf(e: TaskEvent): (r: Identity) { Identity(e.taskId, e.trial, e.seed, e.attemptIndex) }

  datatype LineageFault =
    | NeedsLedger11 | CompletedLacksSimulation | SimulationClaimedTwice
    | NoLineage | IdentityMoved | IdentityReused | TerminationDisagrees | PositionsDiffer

  /** The retained attempts in the order of their simulations, and whether each is an infra failure. */
  datatype Lineage = Lineage(order: seq<Identity>, retained: map<Identity, bool>)

  // ---- What a correct binding is ----

  ghost predicate Claims(e: TaskEvent, simulationId: string) {
    e.state.TaskCompleted? && e.simulationId == Some(simulationId)
  }

  /** Every completed attempt names a simulation and no two name the same one. */
  ghost predicate CompletedOk(events: seq<TaskEvent>) {
    && (forall e | e in events && e.state.TaskCompleted? :: e.simulationId.Some? && e.simulationId.value != "")
    && (forall i, j | 0 <= i < j < |events| && events[i].state.TaskCompleted? && events[j].state.TaskCompleted? ::
          events[i].simulationId != events[j].simulationId)
  }

  ghost predicate FailedAt(e: TaskEvent, p: Position) {
    e.state.TaskFailed? && e.taskId == p.taskId && e.trial == p.trial && e.seed == p.seed
  }

  /** The event is about the attempt `item`. */
  ghost predicate IsAttempt(e: TaskEvent, item: Identity) {
    && e.taskId == item.taskId && e.trial == item.trial && e.seed == item.seed
    && e.attemptIndex == item.attemptIndex
  }

  /** `e` is a failed attempt of position `p` and no failed attempt of `p` has a higher index. */
  ghost predicate LatestFailed(events: seq<TaskEvent>, p: Position, e: TaskEvent) {
    e in events && FailedAt(e, p) && forall f | f in events && FailedAt(f, p) :: f.attemptIndex <= e.attemptIndex
  }

  ghost predicate HasFailed(events: seq<TaskEvent>, p: Position) {
    exists e :: e in events && FailedAt(e, p)
  }

  ghost predicate Claimed(events: seq<TaskEvent>, simulationId: string) {
    exists e :: e in events && Claims(e, simulationId)
  }

  /** A scored simulation binds to the completed attempt that names it; an infra-invalid one, which no
      completed attempt may name, binds to the last failed attempt of its position. */
  ghost predicate BindsTo(events: seq<TaskEvent>, s: Simulation, item: Identity) {
    var p := Position(s.taskId, s.trial, s.seed);
    if s.infra then
      !Claimed(events, s.id) && exists e :: LatestFailed(events, p, e) && IsAttempt(e, item)
    else
      exists e :: e in events && Claims(e, s.id) && IsAttempt(e, item)
                  && e.taskId == s.taskId && e.trial == s.trial && e.seed == s.seed
  }

  ghost predicate Binding(events: seq<TaskEvent>, sims: seq<Simulation>, order: seq<Identity>) {
    && |order| == |sims|
    && (forall i | 0 <= i < |sims| :: BindsTo(events, sims[i], order[i]))
    && Distinct(order)
  }

  ghost function SimPositions(sims: seq<Simulation>): (r: multiset<(string, int)>) {
    if sims == [] then multiset{}
    else
      var s := sims[|sims| - 1];
      SimPositions(sims[..|sims| - 1]) + multiset{(s.taskId, s.trial + 1)}
  }

  ghost function RecordPositions(records: seq<RunRecord>): (out: multiset<(string, int)>) {
    if records == [] then multiset{}
    else
      var r := records[|records| - 1];
      RecordPositions(records[..|records| - 1]) + multiset{(r.taskId, r.trialIndex)}
  }

  ghost predicate Bindable(events: seq<TaskEvent>, sims: seq<Simulation>) {
    exists order :: Binding(events, sims, order)
  }

  ghost predicate Accepted(events: seq<TaskEvent>, sims: seq<Simulation>, records: seq<RunRecord>) {
    && (forall e | e in events :: e.ledger11)
    && CompletedOk(events)
    && Bindable(events, sims)
    && SimPositions(sims) == RecordPositions(records)
  }

  /** At most one attempt can be bound to a simulation. */
  lemma BindingUnique(events: seq<TaskEvent>, s: Simulation, a: Identity, b: Identity)
    requires CompletedOk(events) && BindsTo(events, s, a) && BindsTo(events, s, b)
    ensures a == b
  {
  }

  // ---- The two passes of the source ----

  /** Indexes completed attempts by simulation and, per position, the last failed attempt. */
  method IndexEvents(events: seq<TaskEvent>)
    returns (r: Result<(map<string, TaskEvent>, map<Position, TaskEvent>), LineageFault>)
    ensures r.Success? <==> CompletedOk(events)
    ensures r.Success? ==>
              && (forall id :: id in r.value.0 <==> Claimed(events, id))
              && (forall id | id in r.value.0 :: r.value.0[id] in events && Claims(r.value.0[id], id))
              && (forall p :: p in r.value.1 <==> HasFailed(events, p))
              && (forall p | p in r.value.1 :: LatestFailed(events, p, r.value.1[p]))
  {
    var completed: map<string, TaskEvent> := map[];
    var failed: map<Position, TaskEvent> := map[];
    for k := 0 to |events|
      invariant CompletedOk(events[..k])
      invariant forall id :: id in completed <==> Claimed(events[..k], id)
      invariant forall id | id in completed :: completed[id] in events[..k] && Claims(completed[id], id)
      invariant forall p :: p in failed <==> HasFailed(events[..k], p)
      invariant forall p | p in failed :: LatestFailed(events[..k], p, failed[p])
    {
      var e := events[k];
      ghost var before, after := events[..k], events[..k + 1];
      assert after == before + [e];
      assert forall f :: f in after <==> f in before || f == e;
      if e.state.TaskCompleted? {
        assert e in events && e in after;
        if e.simulationId.None? || e.simulationId.value == "" {
          return Failure(CompletedLacksSimulation);
        }
        if e.simulationId.value in completed {
          ghost var c := completed[e.simulationId.value];
          ghost var i :| 0 <= i < k && events[i] == c;
          return Failure(SimulationClaimedTwice);
        }
        forall i | 0 <= i < k && before[i].state.TaskCompleted? ensures before[i].simulationId != e.simulationId {
          assert before[i] in before;
        }
        completed := completed[e.simulationId.value := e];
      } else if e.state.TaskFailed? {
        var p := PositionOf(e);
        assert e in after && HasFailed(after, p);
        assert forall q :: HasFailed(after, q) <==> HasFailed(before, q) || q == p;
        if p !in failed || e.attemptIndex > failed[p].attemptIndex {
          failed := failed[p := e];
        }
      }
    }
    assert events[..|events|] == events;
    return Success((completed, failed));
  }

  /** The attempt of one simulation, by the source's lookup and its consistency checks. */
  method Terminal(ghost events: seq<TaskEvent>, completed: map<string, TaskEvent>,
                  failed: map<Position, TaskEvent>, s: Simulation)
    returns (r: Result<Identity, LineageFault>)
    requires CompletedOk(events)
    requires forall id :: id in completed <==> Claimed(events, id)
    requires forall id | id in completed :: completed[id] in events && Claims(completed[id], id)
    requires forall p :: p in failed <==> HasFailed(events, p)
    requires forall p | p in failed :: LatestFailed(events, p, failed[p])
    ensures r.Success? ==> BindsTo(events, s, r.value)
    ensures r.Failure? ==> forall item :: !BindsTo(events, s, item)
  {
    var p := Position(s.taskId, s.trial, s.seed);
    var terminal: TaskEvent;
    if s.id in completed {
      terminal := completed[s.id];
      forall e | e in events && Claims(e, s.id) ensures e == terminal {
      }
    } else if s.infra && p in failed {
      terminal := failed[p];
    } else {
      assert forall e | e in events && Claims(e, s.id) :: Claimed(events, s.id);
      return Failure(NoLineage);
    }
    if PositionOf(terminal) != p {
      return Failure(IdentityMoved);
    }
    if s.infra != terminal.state.TaskFailed? {
      return Failure(TerminationDisagrees);
    }
    return Success(IdentityOf(terminal));
  }

  /** Accepts exactly the evidence in which every simulation has its own task attempt and the
      normalized records sit at the same task/trial positions; returns that binding. */
  method BindSimulations(events: seq<TaskEvent>, sims: seq<Simulation>, records: seq<RunRecord>)
    returns (r: Result<Lineage, LineageFault>)
    ensures r.Success? <==> Accepted(events, sims, records)
    ensures r.Success? ==> Binding(events, sims, r.value.order)
    ensures r.Success? ==> Mirrors(r.value.retained, r.value.order, sims)
  {
    if exists e | e in events :: !e.ledger11 {
      return Failure(NeedsLedger11);
    }
    var index := IndexEvents(events);
    if index.Failure? {
      return Failure(index.error);
    }
    var (completed, failed) := index.value;
    var order: seq<Identity> := [];
    var retained: map<Identity, bool> := map[];
    for k := 0 to |sims|
      invariant Binding(events, sims[..k], order)
      invariant Mirrors(retained, order, sims[..k])
    {
      var terminal := Terminal(events, completed, failed, sims[k]);
      if terminal.Failure? {
        StuckRefuted(events, sims, k);
        return Failure(terminal.error);
      }
      var item := terminal.value;
      if item in retained {
        return Failure(IdentityReused);
      }
      BindOne(events, sims, order, retained, k, item);
      order := order + [item];
      retained := retained[item := sims[k].infra];
    }
    assert sims[..|sims|] == sims;
    var agree := SamePositions(sims, records);
    if !agree {
      return Failure(PositionsDiffer);
    }
    return Success(Lineage(order, retained));
  }

  ghost predicate Mirrors(retained: map<Identity, bool>, order: seq<Identity>, sims: seq<Simulation>) {
    && |order| == |sims|
    && (forall item :: item in retained <==> item in order)
    && (forall i | 0 <= i < |sims| :: retained[order[i]] == sims[i].infra)
  }

  lemma BindOne(events: seq<TaskEvent>, sims: seq<Simulation>, order: seq<Identity>,
                retained: map<Identity, bool>, k: nat, item: Identity)
    requires k < |sims| && Binding(events, sims[..k], order) && Mirrors(retained, order, sims[..k])
    requires item !in order && BindsTo(events, sims[k], item)
    ensures Binding(events, sims[..k + 1], order + [item])
    ensures Mirrors(retained[item := sims[k].infra], order + [item], sims[..k + 1])
  {
  }

  lemma NextSimPosition(sims: seq<Simulation>, k: nat)
    requires k < |sims|
    ensures SimPositions(sims[..k + 1]) == SimPositions(sims[..k]) + multiset{(sims[k].taskId, sims[k].trial + 1)}
  {
    assert sims[..k + 1][..k] == sims[..k];
  }

  lemma NextRecordPosition(records: seq<RunRecord>, k: nat)
    requires k < |records|
    ensures RecordPositions(records[..k + 1])
         == RecordPositions(records[..k]) + multiset{(records[k].taskId, records[k].trialIndex)}
  {
    assert records[..k + 1][..k] == records[..k];
  }

  method SamePositions(sims: seq<Simulation>, records: seq<RunRecord>) returns (same: bool)
    ensures same <==> SimPositions(sims) == RecordPositions(records)
  {
    var positions: multiset<(string, int)> := multiset{};
    for k := 0 to |sims|
      invariant positions == SimPositions(sims[..k])
    {
      NextSimPosition(sims, k);
      positions := positions + multiset{(sims[k].taskId, sims[k].trial + 1)};
    }
    assert sims[..|sims|] == sims;
    var recorded: multiset<(string, int)> := multiset{};
    for k := 0 to |records|
      invariant recorded == RecordPositions(records[..k])
    {
      NextRecordPosition(records, k);
      recorded := recorded + multiset{(records[k].taskId, records[k].trialIndex)};
    }
    assert records[..|records|] == records;
    same := positions == recorded;
  }

  lemma StuckRefuted(events: seq<TaskEvent>, sims: seq<Simulation>, k: nat)
    requires k < |sims| && forall item :: !BindsTo(events, sims[k], item)
    ensures !Bindable(events, sims)
  {
    forall order | |order| == |sims| ensures !Binding(events, sims, order) {
      assert !BindsTo(events, sims[k], order[k]);
    }
  }

  // ---- Main results ----

  ghost function CountScored(sims: seq<Simulation>): (r: nat) {
    if sims == [] then 0
    else CountScored(sims[..|sims| - 1]) + (if sims[|sims| - 1].infra then 0 else 1)
  }

  ghost function CountValid(records: seq<RunRecord>): (r: nat) {
    if records == [] then 0
    else CountValid(records[..|records| - 1]) + (if records[|records| - 1].valid then 1 else 0)
  }

  /** The binding is injective: retained attempts are as many as simulations, and they split into
      scored and infra-invalid ones as the simulations do. */
  lemma {:induction false} RetainedCounts(sims: seq<Simulation>, order: seq<Identity>, retained: map<Identity, bool>)
    requires Distinct(order) && Mirrors(retained, order, sims)
    ensures |retained| == |sims|
    ensures |WithValue(retained, false)| == CountScored(sims)
    ensures |WithValue(retained, true)| == |sims| - CountScored(sims)
  {
    if sims == [] {
      assert retained == map[];
    } else {
      var k := |sims| - 1;
      var less := retained - {order[k]};
      MirrorsLess(sims, order, retained);
      RetainedCounts(sims[..k], order[..k], less);
      WithValueStep(less, order[k], sims[k].infra);
    }
  }

  ghost function WithValue(retained: map<Identity, bool>, infra: bool): (r: set<Identity>) {
    set item | item in retained && retained[item] == infra
  }

  lemma WithValueStep(less: map<Identity, bool>, item: Identity, infra: bool)
    requires item !in less
    ensures |less[item := infra]| == |less| + 1
    ensures |WithValue(less[item := infra], infra)| == |WithValue(less, infra)| + 1
    ensures |WithValue(less[item := infra], !infra)| == |WithValue(less, !infra)|
  {
    assert WithValue(less[item := infra], infra) == WithValue(less, infra) + {item};
    assert WithValue(less[item := infra], !infra) == WithValue(less, !infra);
  }

  lemma MirrorsLess(sims: seq<Simulation>, order: seq<Identity>, retained: map<Identity, bool>)
    requires sims != [] && Distinct(order) && Mirrors(retained, order, sims)
    ensures var k := |sims| - 1;
            Mirrors(retained - {order[k]}, order[..k], sims[..k]) && Distinct(order[..k])
            && order[k] !in retained - {order[k]}
            && retained == (retained - {order[k]})[order[k] := sims[k].infra]
  {
  }
}
