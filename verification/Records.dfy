/** The normalized run record and the retained simulation it is made from
    (agentloopgate/schemas/models.py, RunRecord; agentloopgate/adapters/tau3.py). */
module Records {
  import opened Common

  datatype Pool = Pilot | UpdateSource | UpdateCheck | Selection | ReleaseId | ReleaseOod

  datatype RunRecord = RunRecord(
    runId: string,
    taskId: string,
    pool: Pool,
    snapshotId: string,
    candidateId: Option<string>,
    trialIndex: int,
    valid: bool,
    success: Option<bool>,
    criticalViolations: nat,
    latencyMs: nat,
    cost: Option<real>)

  /** The validators of RunRecord, which every stored record has passed. */
  predicate ValidRecord(r: RunRecord) {
    && r.trialIndex >= 1
    && (r.valid ==> r.success.Some? && r.cost.Some?)
    && (!r.valid ==> r.success.None?)
    && (r.cost.Some? ==> r.cost.value >= 0.0)
  }

  /** One simulation of a raw benchmark result; `infra` is termination by infrastructure error and
      `userMessages` counts the user messages that carry usage. */
  datatype Simulation = Simulation(
    id: string,
    taskId: string,
    trial: int,
    seed: int,
    infra: bool,
    success: bool,
    latencyMs: nat,
    agentCost: Option<real>,
    userCost: Option<real>,
    userMessages: nat)

  /** The frozen population and identity that a set of runs is evaluated against. */
  datatype RunContext = RunContext(
    pool: Pool, snapshotId: string, candidateId: Option<string>, taskIds: seq<string>, trials: nat)

  ghost predicate ValidContext(c: RunContext) {
    c.taskIds != [] && c.trials >= 1 && Distinct(c.taskIds)
  }
}
