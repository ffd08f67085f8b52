# AgentLoopGate: verified models of the evidence and release engine

AgentLoopGate collects evidence about candidate changes to an agent harness and decides whether one may be
released. This project states what that evidence and those decisions mean, and proves it of models of the
code: one module per component, methods where the code changes things step by step, functions and lemmas for
what is promised about them.

| module | component |
|---|---|
| `CallLedger`, `ChannelCost`, `CostLineage`, `CostAccounting` | replay of model-call logs, binding of simulations to task attempts, cost sums and statuses |
| `Strata`, `SplitPlan`, `Ingest`, `IngestedSummary` | stratified order, six-pool split, ingestion of raw benchmark results and what their summary means |
| `Metrics`, `BatchGate` | strict Pass^k summaries, what makes a batch complete |
| `Quantiles`, `SelectionEvidence`, `Selector`, `DiverseSubset` | evidence from batches, baseline-bound selection, choice of executable candidates |
| `Lifecycle`, `Proposals`, `ExperimentRun` | candidate logs and the steps that advance them, proposal rounds, whole experiment runs over crashes and restarts |
| `ReleaseGate`, `BatchRun` | paid release authorization over concurrent processes, batches over crashes and resumes |
| `TraceSync`, `Redaction`, `RequestCache`, `Framing` | the trace bridge: merging, verification, redaction, dispatch, line framing |
| `Statistics` | paired bootstrap and comparison |
| `Common`, `Ordering`, `Records` | results, sums over maps, stable sorting, shared record types |

Conventions. A digest is taken to be injective, so a digested value stands for its digest. Files are written
at most once; where a crash can interrupt a write, the model says what it leaves. Money and latencies are
exact. Histories are sequences of runs or actions of any length, each cut off at any write. A library sort is
a stable insertion sort; the seeded generator of the bootstrap is an arbitrary stream of indexes; clocks,
model adapters and request handlers are parameters.

What the code turned out to promise less than its text or its tests suggest, each with the exact condition:

- The note beside an EXACT accounting ("all observed agent and user calls have exact terminal cost evidence")
  covers retained attempts only (`NoteNeedsSuperseded`, `NoteCanBeFalse`).
- A run restarts from the top and proposes again, without the candidates that stand at HELD or REJECTED. Once
  the plan is written, a run raises if and only if the outcome is not sealed and a selected candidate already
  stands at HELD, REJECTED or SHIP_RECOMMENDED (`RunRaisesExactlyWhenEnded`), and then no later run ever seals
  the outcome (`RecoverableExactlyWhenNoneEnded`). So no verdict survives a crash between the last transition of
  a candidate and the outcome file (`EveryVerdictCanBlock`), a Selection HOLD included (`HoldCanBeLost`).
- A crash while a candidate is being registered or rejected, before the plan is written, blocks the experiment
  for good, whatever the updater would answer (`UnfinishedRaises`, `UnfinishedForever`).
- Taken alone, the calls of _advance do converge from any status but SHIP_RECOMMENDED and REJECTED
  (`ReplayRaisesExactlyWhenStuck`, `ReplaySurvivesExactlyWhenResumable`).
- Pools of a split plan are validated one by one; that they are disjoint rests on the catalog reader
  (`DisjointExactlyWhenUnique`, with a catalog that fails in `RepeatedIdsAreAccepted`).
- A complete batch may list several joins for a trial, of which the last is looked at, and the validator of the
  linked result lets them pass (`OneJoinPerTrial`, `HiddenJoinConflict`). The linker itself makes one join per
  record (`LinkerJoinsOnce`), so only another executor or an altered evidence store can supply such a list.
- Median latency is taken over valid runs and p95 over all runs, so they are in order for certain only below a
  number of infra-invalid runs that depends on the batch size (`OrderedExactlyWhenSafe`). Out of order they make
  the selection raise instead of saying HOLD (`AmendedSelectionReachesVerdict`).
- No validator ties the stable count of a summary to its stable tasks (`NetsAgree`, `NetsCanDiffer`).
- The guard before choosing a diverse subset suffices for all candidate lists if and only if no more families
  than candidates are asked for, which no validator of the configuration checks; that each candidate has a family
  is not needed (`GuardSufficesExactlyWhenFewFamilies`, `GuardNotEnough`).
- A short last request without a newline is refused as exceeding the size limit (`UnterminatedIsRefused`).
- A torn raw, evidence, cost or batch file is never repaired by a resume (`TornStays`); an evidence file torn during
  ingestion blocks a batch whose raw result and ledgers are whole (`TornEvidenceBlocks`).

## Model

| member | source | states |
|---|---|---|
| CallLedger.ModelCallEvents | agentloopgate/experiment/ledger.py:1285-1322 | a log is accepted if and only if starts are unique, terminals are unique, and every terminal follows a start of the same call with the same lineage; otherwise the fault of the first offending event is returned |
| CallLedger.ModelCallTerminals | agentloopgate/experiment/ledger.py:1325-1333 | gives the terminal events in log order, on exactly the accepted logs |
| CallLedger.UnresolvedModelCalls | agentloopgate/experiment/ledger.py:1336-1342 | counts the calls that have a start and no terminal |
| CallLedger.StartedBalance | agentloopgate/experiment/ledger.py:1135-1173 | for any interleaving of calls, starts of an attempt exceed its terminals by exactly its unresolved calls, so the two counts agree if and only if no call of that attempt is unresolved |
| CallLedger.UnresolvedByAttempt | agentloopgate/experiment/ledger.py:1336-1342 | a log has no unresolved call if and only if no attempt has one |
| ChannelCost.DirectChannelCost | agentloopgate/experiment/ledger.py:1101-1200 | accepts exactly the usage 1.2 logs in order whose exact calls carry the frozen price, and gives the known and exact costs of the retained attempts, split into valid and infra |
| ChannelCost.MatchIsArithmetic | agentloopgate/experiment/ledger.py:1146-1170 | the accepted prices, by arithmetic: every exact call of the attempts carries three counters, and a million times its cost is what they come to at the input, cache and output price |
| ChannelCost.ExactCostIsFrozenPrice | agentloopgate/experiment/ledger.py:1146-1170 | when all calls of a set of attempts are exact, a million times their known cost is their input, cached and output tokens, each at its own price |
| ChannelCost.ExactEntry | agentloopgate/experiment/ledger.py:1171-1182 | an attempt has an exact entry if and only if it made a call or failed, left none unresolved and ended each exactly; a million times the entry is the sum of its tokens at the three prices |
| ChannelCost.CostConservation | agentloopgate/experiment/ledger.py:1184-1200 | valid and infra known cost add up to retained known cost, which is the sum over exactly the selected calls and at most the cost of any wider set of attempts |
| CostLineage.IndexEvents | agentloopgate/experiment/ledger.py:967-996 | indexes each completed attempt under its simulation and, per position, the failed attempt of the highest index; refuses a completed attempt without a simulation or a simulation claimed twice |
| CostLineage.Terminal | agentloopgate/experiment/ledger.py:1019-1039 | a simulation gets an attempt if and only if one may be bound to it: the completed attempt that names it, or for an infra failure the last failed attempt of its position |
| CostLineage.BindSimulations | agentloopgate/experiment/ledger.py:947-1049 | lineage is accepted if and only if some binding gives every simulation its own attempt and records sit at the same positions as simulations; it returns that binding |
| CostLineage.BindingUnique | agentloopgate/experiment/ledger.py:1019-1039 | at most one attempt can be bound to a simulation |
| CostLineage.RetainedCounts | agentloopgate/experiment/ledger.py:998-1098 | the binding is injective: retained attempts are as many as simulations, and valid and infra attempts as many as scored and infra-failed simulations |
| CostAccounting.ReadUsage | agentloopgate/experiment/ledger.py:677-733 | reads the terminals and the number of unresolved calls of one usage file |
| CostAccounting.DirectLineage | agentloopgate/experiment/ledger.py:734-798 | succeeds if and only if some set of retained attempts is linked: non-negative prices and costs, an accepted binding, and usage 1.2 logs in order at frozen prices in both channels; the costs are those of that set |
| CostAccounting.Reconcile | agentloopgate/experiment/ledger.py:595-918 | succeeds if and only if user costs are non-negative, both logs are in order and, with lineage, the evidence is linked; every cost, observed cost and mean is then stated over the logs, in both branches; EXACT means every call of every retained attempt is exact in both channels |
| CostAccounting.UserCostsByRun | agentloopgate/experiment/ledger.py:654-675 | the reported user costs of scored, or of infra-failed, simulations add up run by run |
| CostAccounting.RecordCostsByRun | agentloopgate/experiment/ledger.py:610-624 | the agent costs of VALID, or of INFRA_INVALID, records add up record by record |
| CostAccounting.KnownSumParts | agentloopgate/experiment/ledger.py:679-709 | the known cost of a log counts exact and partial calls with their cost and no other, and parts of the log add up |
| CostAccounting.CostsAreOrdered | agentloopgate/experiment/ledger.py:734-798 | per channel and in total, valid cost is at most retained cost, which is at most the lower bound; infra cost is the difference where it is exact |
| CostAccounting.PayloadValidates | agentloopgate/experiment/ledger.py:55-127 | the schema 1.4 payload always passes its validator: every bounded cost field is non-negative, the total mean is exact valid cost over valid runs and absent otherwise, and counts add up |
| CostAccounting.RawPayloadValidates | agentloopgate/experiment/ledger.py:55-127 | so does the payload without lineage, under the rule of its schema |
| CostAccounting.ExactCoversValid | agentloopgate/experiment/ledger.py:771-798 | an EXACT whole-attempt status implies an EXACT valid status and complete observed totals |
| CostAccounting.MeanOverValidAttempts | agentloopgate/experiment/ledger.py:734-798 | the total mean is taken over exactly the valid attempts of the lineage |
| CostAccounting.ValidCostIsFrozenPrice | agentloopgate/experiment/ledger.py:1146-1182 | a million times an EXACT valid cost is all tokens of the valid attempts at the three prices, in both channels |
| CostAccounting.NoteNeedsSuperseded | agentloopgate/experiment/ledger.py:845-850 | the note written beside EXACT, that all observed calls are exact, is true if and only if superseded attempts too left no inexact and no unresolved call |
| CostAccounting.NoteCanBeFalse | agentloopgate/experiment/ledger.py:845-850 | evidence of a retried task at positive prices that the reconciliation accepts with status EXACT, while the first attempt left a call unresolved: the note is false |
| Strata.GroupTasks | agentloopgate/adapters/tau3.py:190-198 | groups tasks by stratum, keeping their order |
| Strata.PopRound | agentloopgate/adapters/tau3.py:204-206 | one pass pops the front of every non-empty bucket, in key order |
| Strata.StratifiedOrder | agentloopgate/adapters/tau3.py:188-207 | the destructive round-robin terminates and computes the order by rounds |
| Strata.WholeStratum | agentloopgate/adapters/tau3.py:188-207 | restricted to one stratum the order is that stratum sorted by hash |
| Strata.OrderIsPermutation | agentloopgate/adapters/tau3.py:188-207 | the order is a permutation of its input |
| Strata.OrderForgetsInput | agentloopgate/adapters/tau3.py:188-211 | with a digest that tells tasks apart, the order is the same for every permutation of the input |
| Strata.OrderIsRoundRobin | agentloopgate/adapters/tau3.py:188-207 | of two tasks the one with fewer tasks of its stratum before it comes first, and at equal numbers the one whose stratum comes first by family, low risk, fewer documents and fewer tools, where three and more count alike; within a stratum the smaller digest comes first |
| Strata.SliceIsFair | agentloopgate/adapters/tau3.py:188-207 | in every contiguous slice two strata that still have items after it contribute counts that differ by at most one |
| SplitPlan.SlicePools | agentloopgate/adapters/tau3.py:108-124 | cuts the ordered tasks into the five in-distribution pools, each with unique ids |
| SplitPlan.BuildSplitPlan | agentloopgate/adapters/tau3.py:91-144 | the plan or the fault, as a function of the catalog and the digest |
| SplitPlan.PlanPartitions | agentloopgate/adapters/tau3.py:91-144 | pools have their frozen sizes and together hold each catalog entry exactly as often as the catalog |
| SplitPlan.DisjointExactlyWhenUnique | agentloopgate/adapters/tau3.py:86-130 | pools of an accepted plan share no id if and only if the catalog has unique ids, which only the catalog reader checks |
| SplitPlan.RepeatedIdsAreAccepted | agentloopgate/adapters/tau3.py:86-130 | a catalog that repeats ids across the reserved families is split for every digest into pools that share an id |
| SplitPlan.OodIsReserved | agentloopgate/adapters/tau3.py:92-130 | the reserved families are exactly those of the OOD pool and occur in no other pool |
| SplitPlan.OodIsSorted | agentloopgate/adapters/tau3.py:122-130 | the reserved tasks are listed by digest |
| SplitPlan.ReplayIsTopTen | agentloopgate/adapters/tau3.py:132-144 | ten distinct ids of update_source in the order of preference; no high-risk task is left out for a low-risk one, at equal risk none with more documents for one with fewer, then none with more tools, then none with a smaller digest |
| SplitPlan.PlanForgetsInput | agentloopgate/adapters/tau3.py:91-144 | with a digest that tells tasks apart, the whole plan is the same for every order of the catalog |
| SplitPlan.PoolsAreFair | agentloopgate/adapters/tau3.py:107-124 | two strata that later pools still draw from contribute to a pool counts that differ by at most one |
| SplitPlan.PlanPassesService | agentloopgate/splits/service.py:132-190 | a plan of a catalog with unique ids always passes the split service |
| Ingest.CheckDuplicates | agentloopgate/adapters/tau3.py:402-412 | finds whether any position or simulation id repeats |
| Ingest.CheckPopulation | agentloopgate/adapters/tau3.py:411-435 | the positions are the expected ones, or with a fail-fast position a strict part of them in which it is an infrastructure failure |
| Ingest.IngestResult | agentloopgate/adapters/tau3.py:380-485 | accepts exactly the results of the expected population; the records match the simulations one to one in the order of task and trial and keep id, position, validity, success, latency and agent cost |
| Ingest.IngestibleByRuns | agentloopgate/adapters/tau3.py:395-435 | acceptance, run by run: the expected tasks, no run or id repeated, every run expected and none missing (or some missing and the fail-fast position failed), scored runs with a cost |
| Ingest.IngestedRecordsMatch | agentloopgate/adapters/tau3.py:494-555 | records sit at the positions of their simulations, and the valid attempts of the lineage are as many as the VALID records |
| Ingest.IngestedRecordsValid | agentloopgate/adapters/tau3.py:494-555 | every ingested record passes the record validators |
| IngestedSummary.SummaryOfSimulations | agentloopgate/evaluation/metrics.py:92-171 | the Pass^1 numerator of an ingested result is the number of its scored successful simulations, the valid runs are its scored simulations, and the mean cost is the mean of their agent cost |
| IngestedSummary.StableOfSimulations | agentloopgate/evaluation/metrics.py:130-150 | a task of an accepted full population is stable if and only if all its simulations were scored and succeeded |
| Metrics.Audit | agentloopgate/evaluation/metrics.py:92-128 | the audit loop accepts exactly unique runs of this context and population with at most one valid run per trial |
| Metrics.Summarize | agentloopgate/evaluation/metrics.py:85-171 | the summary of exactly the summarizable records |
| Metrics.DoubleCounting | agentloopgate/evaluation/metrics.py:92-171 | success counts sum to the Pass^1 numerator; stable times trials is at most that, which is at most valid runs, which is at most tasks times trials, with equality if and only if no valid trial is missing |
| Metrics.SummaryValidates | agentloopgate/evaluation/metrics.py:55-69 | a task is stable if and only if its success count equals the trials |
| Metrics.TaskByRecords | agentloopgate/evaluation/metrics.py:130-150 | per task, successes are the trials with a valid successful record, and the task is stable when these are all trials |
| Metrics.MeanIsOverValidRuns | agentloopgate/evaluation/metrics.py:150-160 | the mean cost is the cost of the valid records over their number, and zero without any |
| Metrics.SummaryByRecords | agentloopgate/evaluation/metrics.py:92-171 | context, critical violations, median latency of the valid runs and the two integrity issues, each said of the records |
| Metrics.SummaryForgetsOrder | agentloopgate/evaluation/metrics.py:85-171 | acceptance and summary are the same for every permutation of the records |
| BatchGate.VerifiedFailFast | agentloopgate/experiment/batch.py:669-718 | a batch counts as stopped early if and only if its trigger names one infra-invalid run, its population is strictly partial, and only the trigger lacks evidence |
| BatchGate.SummarizeAndVerify | agentloopgate/experiment/batch.py:922-1008 | a batch is accepted if and only if its records are summarizable, receipts authenticate every run, and joins agree with both planes |
| BatchGate.EvidenceByLists | agentloopgate/experiment/batch.py:922-990 | the evidence check said of the lists: counts, a receipt for every record, the trials of the three planes, infra-invalid gaps, and for the last join of each trial both run ids, both outcomes and a verified trace |
| BatchGate.TriggerIsOneRun | agentloopgate/experiment/batch.py:669-718 | the fail-fast position has exactly one record, and that is infra-invalid |
| BatchGate.SealBatch | agentloopgate/experiment/batch.py:473-541 | the disposition is complete if and only if there is no hold reason, and the artifact passes the disposition rule |
| BatchGate.CompleteIsBijection | agentloopgate/experiment/batch.py:136-145 | a complete batch has exactly one record per expected trial, all of them valid, and no other |
| BatchGate.CompleteIsJoined | agentloopgate/experiment/batch.py:944-978 | in a complete batch every run has a harness run, a verified trace and a join that agrees with both |
| BatchGate.FailFastHolds | agentloopgate/experiment/batch.py:669-718 | a batch accepted through the fail-fast path always has an infra-invalid run and a missing valid trial, so it is HOLD |
| BatchGate.InfraRunLeavesGap | agentloopgate/evaluation/metrics.py:123-129 | in a full population an infra-invalid run exists if and only if a valid trial is missing |
| BatchGate.OneJoinPerTrial | agentloopgate/experiment/batch.py:944-946 | each trial has exactly one listed join if and only if the list is as long as the population; the code looks at the last join per trial only |
| BatchGate.LinkerJoinsOnce | agentloopgate/adapters/dsh_tau3.py:646-729 | a full batch with the linker's one join per record has exactly one join per trial |
| BatchGate.HiddenJoinConflict | agentloopgate/experiment/batch.py:944-978 | an accepted complete batch that passes the validator of the linked result and also lists a join contradicting its run |
| BatchGate.IngestedBatch | agentloopgate/adapters/tau3.py:382-489 | a raw result accepted as a full population is always summarizable, and misses a valid trial if and only if a simulation failed by infrastructure |
| Selector.BestForgetsOrder | agentloopgate/gates/selection.py:136-153 | a choice by keys that tell candidates apart does not depend on their order |
| Selector.Assess | agentloopgate/gates/selection.py:103-131 | the reasons against a candidate, in order; there are none if and only if it passes the policy |
| Selector.WithinRatioIsBound | agentloopgate/gates/selection.py:172-176 | within a ratio of a positive baseline is at most that multiple of it; over a zero baseline it is zero |
| Selector.ExamineCandidate | agentloopgate/gates/selection.py:93-134 | one candidate adds its finding and, if it passes, itself to the eligible ones; fails exactly when its population is not the baseline population |
| Selector.SelectWithBaseline | agentloopgate/gates/selection.py:81-169 | succeeds exactly with a safe complete baseline and comparable candidates; HOLD when none passes, otherwise SELECT of a passing candidate with the least key, and a finding on every candidate |
| Selector.GovernedKeyIsFields | agentloopgate/gates/selection.py:136-150 | the governed choice prefers more stable tasks, then fewer timeouts, fewer retries, lower p95, lower maximum latency, lower whole cost, lower mean cost, lower median and the smaller id, the first difference deciding |
| Selector.NativeKeyIsFields | agentloopgate/gates/selection.py:37-52 | the native choice prefers the higher score, or without scores the lower rank, and then the smaller id |
| Selector.LegacyKeyIsFields | agentloopgate/gates/selection.py:65-73 | without a baseline the choice prefers more stable tasks, then lower mean cost, lower median and the smaller id |
| Selector.CheckIds | agentloopgate/gates/selection.py:28-30 | finds whether candidate ids are unique |
| Selector.Freeze | agentloopgate/gates/selection.py:26-47 | accepts exactly the ladders with unique ids and native signals of one kind (with unique ranks), and gives the native winner |
| Selector.SelectCandidate | agentloopgate/gates/selection.py:19-78 | succeeds exactly on selectable inputs, with the native winner and the governed or legacy winner as specified |
| Selector.ChosenValidates | agentloopgate/gates/models.py:172-195 | every selection passes the validator of the stored selection |
| Selector.PassesIsStrictImprovement | agentloopgate/gates/selection.py:107-115 | a passing candidate is stable on a strict superset of the stable tasks of the baseline |
| Selector.SelectIsStrictImprovement | agentloopgate/gates/selection.py:136-169 | SELECT names a passing candidate of the ladder whose stable tasks strictly contain those of the baseline |
| Selector.HoldIsEveryCandidateFaulted | agentloopgate/gates/selection.py:132-169 | HOLD if and only if the recorded findings fault every candidate |
| Selector.GovernsUnique | agentloopgate/gates/selection.py:136-169 | a ladder has one governed outcome: decision, winner and findings |
| Selector.SelectionForgetsOrder | agentloopgate/gates/selection.py:19-169 | a permuted ladder is selectable alike and has the same native winner, decision, governed winner and findings |
| Selector.LooseningHelps | agentloopgate/gates/selection.py:116-131 | loosening policy bounds only grows the set of passing candidates, keeps a SELECT a SELECT, and never worsens the key of the winner |
| Quantiles.NearestRank | agentloopgate/experiment/orchestrator.py:2424-2428 | defined exactly for values and a percentile from 1 to 100; the value at the least rank that covers that share of the values |
| Quantiles.MedianIsMiddle | agentloopgate/evaluation/metrics.py:212-219 | twice the median is the sum of the two middle values |
| Quantiles.MixShifts | agentloopgate/experiment/orchestrator.py:1382-1394 | adding further values moves the k-th smallest value by at most their number |
| Quantiles.SafeIsOrdered | agentloopgate/gates/models.py:106-111 | median of the valid runs, p95 of all runs and maximum are in order for every batch with a safe number of infra-invalid runs |
| Quantiles.UnsafeIsUnordered | agentloopgate/gates/models.py:106-111 | for every other number of infra-invalid runs there are latencies whose median is above the p95 |
| Quantiles.OrderedExactlyWhenSafe | agentloopgate/gates/models.py:106-111 | the quantiles are in order for all latencies if and only if the counts of valid and infra-invalid runs are safe |
| SelectionEvidence.EvidenceOf | agentloopgate/experiment/orchestrator.py:1339-1404 | operational evidence exists if and only if cost is exact with no unresolved call, starts cover all positions, and there are latencies |
| SelectionEvidence.EvidenceOfFiles | agentloopgate/experiment/orchestrator.py:1368-1394 | attempts are the started events, retries those beyond one per task and trial, timeouts the ended attempts that timed out, and the cost is the lower bound of the accounting |
| SelectionEvidence.EvidenceOfLatencies | agentloopgate/experiment/orchestrator.py:1382-1394 | fewer than 95 percent of all latencies lie below the p95 and at least that many at or below it; the maximum is the largest |
| SelectionEvidence.InputsCarry | agentloopgate/experiment/orchestrator.py:1247-1284 | every field of a selection input is the field of its own batch, and the rank is the place in the plan |
| SelectionEvidence.BatchQuantiles | agentloopgate/experiment/orchestrator.py:1382-1394 | latency quantiles of a batch with safe counts are in order |
| SelectionEvidence.EvidenceValidates | agentloopgate/gates/models.py:57-143 | evidence of a batch passes the validators of the candidate and baseline inputs if and only if its median is at most its p95, which safe counts make sure of |
| SelectionEvidence.CompleteIsSafe | agentloopgate/experiment/orchestrator.py:1041-1053 | a batch without infra-invalid runs has safe counts |
| SelectionEvidence.AmendedSelectionReachesVerdict | agentloopgate/experiment/orchestrator.py:1237-1337 | for batches over one population with evidence, distinct candidates and a complete baseline without critical violation, all inputs are valid and a verdict is reached if and only if the quantiles of every batch are in order; with safe counts always |
| Lifecycle.CandidateRegistry.Register | agentloopgate/candidates/registry.py:90-168 | a new candidate gets one event, CHECKED or HELD; an existing one, a rejected or unrated patch and a semantic duplicate are refused without effect |
| Lifecycle.CandidateRegistry.Load | agentloopgate/candidates/registry.py:208-218 | the status of the last event |
| Lifecycle.CandidateRegistry.Transition | agentloopgate/candidates/registry.py:220-275 | appends one linked, numbered event if the table allows it, and otherwise changes nothing |
| Lifecycle.TableIsChain | agentloopgate/candidates/registry.py:47-82 | a candidate goes one stage on, may be held until it is shipped and rejected until a release is recommended; a draft cannot be held, and HELD, REJECTED and ROLLED_BACK are final |
| Lifecycle.MovesByStage | agentloopgate/experiment/orchestrator.py:1774-1814 | among CHECKED and the three evaluated stages a candidate stays at or above the target, goes one stage on and may not leave one out; HELD with sealed evidence counts as reached; any other status moves by the transition table |
| Lifecycle.Orchestrator.Seal | agentloopgate/experiment/orchestrator.py:1755-1773 | the evidence file of a target is written once; other evidence for it is a conflict |
| Lifecycle.Orchestrator.Move | agentloopgate/experiment/orchestrator.py:1774-1815 | stays, appends or refuses according to current and target status |
| Lifecycle.Orchestrator.Advance | agentloopgate/experiment/orchestrator.py:1748-1815 | seals, then moves |
| Lifecycle.Orchestrator.Attempt | agentloopgate/experiment/orchestrator.py:1748-1815 | the calls of _advance over a script in turn, cut off after a number of writes |
| Lifecycle.PathIsBounded | agentloopgate/candidates/registry.py:47-82 | a log that follows the transition table holds each status at most once; from CHECKED it has at most seven events |
| Lifecycle.PathsAreKept | agentloopgate/candidates/registry.py:220-275 | whatever steps are attempted and cut off, every log stays a path and nothing written is lost |
| Lifecycle.MoveStep | agentloopgate/experiment/orchestrator.py:1776-1815 | a step made before does nothing unless its plan is stuck; the next step is made |
| Lifecycle.AttemptKeepsReady | agentloopgate/experiment/orchestrator.py:1748-1815 | a replay of the calls of _advance, cut off or not, leaves every candidate on its plan, takes nothing back, and at the end has made every step |
| Lifecycle.ReplayRaisesExactlyWhenStuck | agentloopgate/experiment/orchestrator.py:1748-1815 | a whole replay of the calls of _advance raises if and only if some candidate already stands at SHIP_RECOMMENDED or REJECTED at the end of its plan |
| Lifecycle.ReplaysConverge | agentloopgate/experiment/orchestrator.py:1748-1815 | with plans that end in HELD or earlier, no history of replays of _advance raises, each status is appended once, and one whole replay makes every step |
| Lifecycle.ReachableLogs | agentloopgate/candidates/registry.py:47-82 | in every state that replays reach each log is a path of at most seven events without repeats |
| Lifecycle.ReplaySurvivesExactlyWhenResumable | agentloopgate/experiment/orchestrator.py:1748-1815 | the calls of _advance survive every history of replays if and only if no plan of two or more steps ends in SHIP_RECOMMENDED or REJECTED |
| Lifecycle.StuckForever | agentloopgate/experiment/orchestrator.py:1806-1815 | once stuck, the script is never replayed to its end, however often |
| Proposals.Updater.Ask | agentloopgate/updaters/ahe.py:736-847 | one candidate is found on disk, refused as unfinished, or asked for and registered or rejected, cut off at any write |
| Proposals.Updater.AskAll | agentloopgate/updaters/ahe.py:712-847 | all candidates of one call of the updater in turn |
| Proposals.Updater.Choose | agentloopgate/experiment/orchestrator.py:1179-1200 | another round, no subset, or the first qualifying subset of the candidates that may still be executed |
| Proposals.Updater.Round | agentloopgate/experiment/orchestrator.py:1164-1178 | asks the bundle whose turn it is for one candidate more than last time |
| Proposals.Updater.Propose | agentloopgate/experiment/orchestrator.py:1090-1205 | the loop over the proposal budget gives what the rounds give, one by one |
| Proposals.RoundsTakeTurns | agentloopgate/experiment/orchestrator.py:1164-1178 | the rounds go through the bundles in order, again and again, and the k-th time a bundle has its turn its first k candidates are asked for |
| Proposals.ExecutableExactly | agentloopgate/experiment/orchestrator.py:1179-1188 | executable are exactly the seen candidates on file that do not stand at HELD, REJECTED or ROLLED_BACK |
| Proposals.RoundsOnlyAdd | agentloopgate/experiment/orchestrator.py:1164-1205 | whatever the updater does and wherever a run is cut off, rounds change nothing on disk and only add candidates with one event |
| Proposals.SelectedAreFit | agentloopgate/experiment/orchestrator.py:1179-1199 | the selected candidates are as many as asked for, distinct, on file, and none stands at HELD, REJECTED or ROLLED_BACK |
| Proposals.ChoiceIsRepeated | agentloopgate/experiment/orchestrator.py:1164-1199 | rounds that came to a choice come to the same one again, without a write and whatever the updater would say, over every store that holds as much and bars the same candidates |
| Proposals.UnfinishedIsRepeated | agentloopgate/updaters/ahe.py:747-768 | rounds that left or met an unfinished candidate raise at it again |
| Proposals.RoundWrites | agentloopgate/experiment/orchestrator.py:1164-1205 | twelve writes a round are enough not to be cut off in the rounds |
| ExperimentRun.FormalRun.Prepare | agentloopgate/experiment/orchestrator.py:1207-1235 | the plan is written once or compared, and a candidate of a refused status makes no snapshot |
| ExperimentRun.FormalRun.Finish | agentloopgate/experiment/orchestrator.py:345-678 | plan, lifecycle steps and outcome of one run, cut off at any write |
| ExperimentRun.FormalRun.Run | agentloopgate/experiment/orchestrator.py:320-678 | one run from the top over the stored files equals its specification |
| ExperimentRun.PlanOfScript | agentloopgate/experiment/orchestrator.py:355-589 | a selected candidate is evaluated on update and selection pools and then goes the way of the verdict; no other candidate moves |
| ExperimentRun.MaterializesByStatus | agentloopgate/snapshots/manager.py:172-192 | snapshots are made for candidates of which every id stands at a status other than DRAFT, REJECTED, HELD and ROLLED_BACK |
| ExperimentRun.RunKeepsInv | agentloopgate/experiment/orchestrator.py:320-678 | every run, cut off at whatever write, keeps the invariant, an existing plan and a sealed outcome |
| ExperimentRun.RunsKeepInv | agentloopgate/experiment/orchestrator.py:320-678 | the invariant holds in every state that runs, crashes and restarts reach from an empty experiment |
| ExperimentRun.SelectedLogs | agentloopgate/candidates/registry.py:47-82 | in every such state the log of a selected candidate is a path of at most five events without repeats, and with a sealed outcome it is its whole plan |
| ExperimentRun.PlanIsChosenAgain | agentloopgate/experiment/orchestrator.py:1164-1199 | as long as no selected candidate is barred the rounds choose the plan again, without a write |
| ExperimentRun.PlanIsLost | agentloopgate/experiment/orchestrator.py:1179-1199 | once a selected candidate is barred the rounds never come to the plan again |
| ExperimentRun.FirstRunRaisesInRounds | agentloopgate/experiment/orchestrator.py:320-678 | before a plan is written a run raises if and only if its rounds do |
| ExperimentRun.RunRaisesExactlyWhenEnded | agentloopgate/experiment/orchestrator.py:320-678 | over a sealed plan a run that is not cut off raises if and only if the outcome is not sealed and some selected candidate already stands at HELD, REJECTED or SHIP_RECOMMENDED |
| ExperimentRun.EnoughWrites | agentloopgate/experiment/orchestrator.py:320-678 | a run with a stated number of writes is not cut off |
| ExperimentRun.EndedForever | agentloopgate/experiment/orchestrator.py:1179-1205 | once a selected candidate has ended without an outcome, no history of runs seals one |
| ExperimentRun.RecoverableExactlyWhenNoneEnded | agentloopgate/experiment/orchestrator.py:320-678 | some history seals an outcome if and only if no selected candidate has ended yet; one whole run is then enough |
| ExperimentRun.UnfinishedForever | agentloopgate/updaters/ahe.py:747-768 | no history gets past an unfinished candidate, and nothing on disk changes any more |
| ExperimentRun.EveryVerdictCanBlock | agentloopgate/experiment/orchestrator.py:400-678 | for every verdict a crash between the last transition and the outcome file leaves an experiment that never gets an outcome |
| ExperimentRun.HoldCanBeLost | agentloopgate/experiment/orchestrator.py:400-456 | three candidates and an abstaining selector, from an empty experiment: after a crash behind the HELD transitions no history seals the Selection HOLD |
| ReleaseGate.ExperimentFiles.VerifyAuthorization | agentloopgate/experiment/service.py:249-302 | an authorization verifies if and only if its identity is current and, in the release tail, it is bound to the stored SELECT |
| ReleaseGate.ExperimentFiles.CreateAuthorization | agentloopgate/experiment/service.py:305-434 | writes one authorization or returns the verified existing one of the same actor; a failure changes nothing |
| ReleaseGate.ExperimentFiles.RunStage | agentloopgate/experiment/service.py:876-971 | an existing-only run succeeds exactly on a retained raw result with sound evidence; a paid run exactly with leave, a result and sound evidence; a paid result stays retained even where the evidence fails, and only success seals the batch |
| ReleaseGate.PaidTailNeedsLeave | agentloopgate/experiment/service.py:932-971 | a paid run of Release, OOD or Replay begins if and only if no HOLD is sealed, the stored selection says SELECT, and an authorization of the frozen identity for the release tail is bound to it |
| ReleaseGate.PaidPreReleaseNeedsLeave | agentloopgate/experiment/service.py:932-971 | a paid run of one of the other three stages begins if and only if there is an authorization of the frozen identity for the stages before the release |
| ReleaseGate.AuthorizationIsBound | agentloopgate/experiment/service.py:305-434 | a new authorization holds identity and actor, and for the release tail the stored SELECT, without which there is none |
| ReleaseGate.VerdictSeals | agentloopgate/experiment/orchestrator.py:688-713 | a stored HOLD seals a hold outcome and nothing else does; a SELECT with a batch of each release stage seals a release outcome |
| ReleaseGate.SelectionIsWrittenOnce | agentloopgate/experiment/orchestrator.py:1328-1338 | a selection is stored if and only if it names a governed candidate exactly when it says SELECT and no other selection is stored already |
| ReleaseGate.OutcomeNeedsRelease | agentloopgate/experiment/orchestrator.py:320-678 | over every history a release outcome comes with a stored SELECT and sealed Release, OOD and Replay batches |
| ReleaseGate.InvAlways | agentloopgate/experiment/service.py:924-971 | the protocol invariant holds in every state that any interleaving of processes and crashes reaches |
| ReleaseGate.HoldExcludesRelease | agentloopgate/experiment/orchestrator.py:320-326 | over every history a sealed Selection HOLD leaves no batch of the Release, OOD or Replay stage under way, retained or sealed, and no release outcome |
| ReleaseGate.PaidReleaseNeedsSelect | agentloopgate/experiment/service.py:944-971 | a paid tail run begins only under a stored SELECT and an authorization bound to it, and that selection stays ever after |
| ReleaseGate.HoldFileCheckIsRedundant | agentloopgate/experiment/service.py:944-952 | in reachable states the check for a sealed HOLD decides nothing that the selection does not decide already |
| ReleaseGate.RetainedWasAuthorized | agentloopgate/experiment/service.py:910-971 | every raw result and every sealed batch comes from a paid run that was authorized when it began |
| ReleaseGate.StoreOnlyGrows | agentloopgate/experiment/service.py:363-388 | no stored artifact is taken back or changed over any history |
| ReleaseGate.CreationIsTwoSteps | agentloopgate/experiment/service.py:426-434 | creating an authorization is a check followed by an exclusive write |
| ReleaseGate.StageRunIsThreeSteps | agentloopgate/experiment/service.py:876-971 | a paid stage run is its beginning, the retention of its result and the sealing of its batch |
| BatchRun.BatchFiles.Execute | agentloopgate/experiment/batch.py:207-235 | finds the retained raw result without any effect, or runs the paid adapter once and retains its result |
| BatchRun.BatchFiles.SealEvidence | agentloopgate/adapters/evidence.py:174-189 | every evidence file is written once, or must be there as it would be written; a torn one is a conflict |
| BatchRun.BatchFiles.SealCosts | agentloopgate/experiment/ledger.py:1203-1214 | the cost file is written once and must equal the recomputed cost |
| BatchRun.BatchFiles.RunBatch | agentloopgate/experiment/batch.py:404-605 | one run, cut off at any write, with the end that the code gives |
| BatchRun.RunKeeps | agentloopgate/experiment/batch.py:404-605 | every run keeps the store consistent and changes nothing already written |
| BatchRun.HistoryKeeps | agentloopgate/experiment/batch.py:207-235 | over all runs, crashes and resumes, written files never change, and once a raw result is retained the paid adapter is never run again and the ledgers do not grow |
| BatchRun.ResumeFinishesExactlyWhenIntact | agentloopgate/experiment/batch.py:434-541 | with a retained raw result a run that does not die finishes if and only if no file is torn, evidence files included, and the evidence is good, with the recomputed evidence, cost and artifact; enough writes keep it from dying |
| BatchRun.CrashThenResume | agentloopgate/experiment/batch.py:492-541 | a run that dies between two writes is finished by the next one, unless that dies, with the files and values that it would have had |
| BatchRun.FinishedRunsAgree | agentloopgate/experiment/batch.py:434-541 | all runs that ever finish agree on cost and artifact |
| BatchRun.TornStays | agentloopgate/experiment/batch.py:1052-1066 | once a file is torn no later run finishes |
| BatchRun.PutAllKeeps | agentloopgate/adapters/evidence.py:174-189 | ingestion takes nothing back and leaves the first of the expected files; it is through if and only if none was torn and the writes were enough |
| BatchRun.TornEvidenceBlocks | agentloopgate/adapters/evidence.py:174-189 | a crash that tears the first evidence file blocks every later run although raw result and ledgers are whole |
| TraceSync.MergeEvents | agentloopgate/bridge/service.py:303-309 | merges one batch, failing exactly on a conflicting sequence number |
| TraceSync.Merge | agentloopgate/bridge/service.py:302-309 | succeeds if and only if no two events in range conflict, and lists exactly their set |
| TraceSync.TraceBridge.Ingest | agentloopgate/bridge/service.py:231-285 | stores a batch of 1 to 100 events with distinct non-negative numbers and a policy under its id, at most once; another batch under a stored id is refused |
| TraceSync.TraceBridge.CheckBatches | agentloopgate/bridge/service.py:290-300 | the shared policy of a session whose batches all agree with the payload |
| TraceSync.TraceBridge.Record | agentloopgate/bridge/service.py:325-366 | policy record, mirror and reference are written one after another, each once, up to a conflict or a crash |
| TraceSync.TraceBridge.SyncTrace | agentloopgate/bridge/service.py:287-367 | on exactly the uniform sessions without conflicting events it succeeds or dies between two writes; success records the cursor of all their events, a crash some of the records and not the reference |
| TraceSync.TraceBridge.VerifyTrace | agentloopgate/bridge/service.py:369-439 | succeeds exactly when the events in range are still the referenced cursor under its policy; reports whether it is complete |
| TraceSync.VerifiableByEvents | agentloopgate/bridge/service.py:389-437 | a reference verifies if and only if every event stored in its range lies in a batch under its policy and is the one its cursor lists, and every event of the cursor is stored there |
| TraceSync.SyncForgetsBatching | agentloopgate/bridge/service.py:302-324 | sessions with the same events sync alike, however these were batched, repeated or ordered |
| TraceSync.SyncIsIdempotent | agentloopgate/bridge/service.py:325-366 | syncing again gives the same id and changes nothing, whatever the clock says |
| TraceSync.NeverConflicts | agentloopgate/bridge/service.py:498-509 | a sync never conflicts with what earlier syncs wrote under the same id |
| TraceSync.RefValidates | agentloopgate/schemas/models.py:230-246 | every reference passes its validator: a complete one counts its whole range, an incomplete one fewer |
| TraceSync.CutThenSync | agentloopgate/bridge/service.py:325-366 | a sync that died leaves nothing in the way of the next one, which comes to the store that the dead one would have left |
| TraceSync.SyncThenVerify | agentloopgate/bridge/service.py:369-439 | right after a sync verification succeeds, and the reference is complete if and only if the sequence is 0, 1, up to the last |
| TraceSync.LaterVerification | agentloopgate/bridge/service.py:389-437 | over every run a complete reference is reported VERIFIED later if and only if no conflict and no other policy came into its range; an incomplete one never is; a mirrored one never changes |
| TraceSync.FilledGapFails | agentloopgate/bridge/service.py:428-437 | once an event missing from its cursor is stored in its range, a reference never verifies again |
| Redaction.NextFree | agentloopgate/bridge/service.py:527-530 | finds the least free anonymous field number; terminates because field names differ |
| Redaction.RedactFields | agentloopgate/bridge/service.py:513-540 | redacts an object field by field in name order, anonymous fields under the least free numbers |
| Redaction.RedactValue | agentloopgate/bridge/service.py:512-545 | redacts any JSON value |
| Redaction.RedactedIsUnique | agentloopgate/bridge/service.py:512-545 | a value has exactly one redacted form, the numbers of anonymous fields included |
| Redaction.FieldImage | agentloopgate/bridge/service.py:513-540 | sensitive and safe keys keep their names and all others get numbered ones; sensitive values are replaced and digests under the two digest keys kept |
| Redaction.AnonymousNumbers | agentloopgate/bridge/service.py:515-530 | fields neither sensitive nor safe get free numbers in the order of their names, each the least left: every smaller number is in the result too |
| Redaction.FieldsSurvive | agentloopgate/bridge/service.py:513-540 | no two fields of an object are merged by redaction |
| Redaction.RedactedIsClean | agentloopgate/bridge/service.py:512-545 | no text and no number survives redaction at any depth, except digests under a digest key |
| RequestCache.BridgeService.Handle | agentloopgate/bridge/service.py:113-160 | answers from the cache, refuses a reused id, or answers and stores |
| RequestCache.HandlersRunOnce | agentloopgate/bridge/service.py:113-160 | over any history a handler runs for a request id at most once, plus once for every process that died in it |
| RequestCache.OnlyHandledRuns | agentloopgate/bridge/service.py:126-142 | no forbidden or unknown method ever reaches a handler |
| RequestCache.UnhandledIsRefused | agentloopgate/bridge/service.py:126-142 | a fresh request with a forbidden verb or prefix, and one with an unknown verb, is refused with its own code and reaches no handler; a handled one reaches its handler |
| RequestCache.StoredIsFinal | agentloopgate/bridge/service.py:450-466 | a stored response never changes and no handler runs for its id again |
| RequestCache.RepeatsAgree | agentloopgate/bridge/service.py:114-124 | a repeated request gets its first answer ever after; another request under its id is refused without effect |
| Framing.Channel.ReadLine | agentloopgate/bridge/transport.py:28 | reads up to and including the next newline, at most the limit |
| Framing.Channel.Drain | agentloopgate/bridge/transport.py:32-33 | discards exactly the rest of the current line |
| Framing.Channel.ServeLine | agentloopgate/bridge/transport.py:28-57 | answers exactly one line and leaves the stream at the next |
| Framing.Channel.ServeStream | agentloopgate/bridge/transport.py:25-57 | the bounded read loop answers every line of the stream as if split and classified one by one |
| Framing.Channel.Serve | agentloopgate/bridge/transport.py:16-57 | the whole stream is served under the limit of 1 MiB |
| Framing.ServeIsPerLine | agentloopgate/bridge/transport.py:25-57 | the answers are the classifications of the lines |
| Framing.LinesPartition | agentloopgate/bridge/transport.py:28 | the lines joined are the stream, and only the last may lack a newline |
| Framing.OneResponsePerLine | agentloopgate/bridge/transport.py:25-57 | one response per newline and one more for an unterminated end |
| Framing.ServeSplits | agentloopgate/bridge/transport.py:31-43 | whatever a terminated prefix holds, a line of any length included, never changes how the rest is answered |
| Framing.UnterminatedIsRefused | agentloopgate/bridge/transport.py:31-43 | a last line without newline is refused as too large, however short |
| Framing.HandedIsLine | agentloopgate/bridge/transport.py:44-57 | a request is handed over only as one whole line that fits |
| Statistics.IntervalIsOrdered | agentloopgate/experiment/statistics.py:128-193 | for any index stream the comparison of an accepted pair passes its validator and its interval lies within [-1, 1] |
| Statistics.PairsByFields | agentloopgate/experiment/statistics.py:321-343 | a pair is accepted if and only if both summaries are of the expected pool, with as many trials, over the same tasks and at least one, without integrity issue and infra-invalid run |
| Statistics.ResampleCounts | agentloopgate/experiment/statistics.py:140-152 | every resample nets the gained tasks that it drew against the regressed ones, with repetition |
| Statistics.EndsAreQuantiles | agentloopgate/experiment/statistics.py:153-182 | the ends of the interval are nearest-rank quantiles of the resampled nets at 2.5 and 97.5 percent, per task |
| Statistics.ComparedByFields | agentloopgate/evaluation/metrics.py:173-210 | which summaries compare, and net, catastrophic tasks and both ratios of compare, field by field |
| Statistics.NoRegressionNoLoss | agentloopgate/experiment/statistics.py:128-193 | without a regressed task the interval does not go below zero |
| Statistics.SelfComparisonIsNull | agentloopgate/experiment/statistics.py:128-193 | a batch against itself gives net 0 and interval [0, 0] for any index stream |
| Statistics.AliasCheckNeverRaises | agentloopgate/experiment/statistics.py:276-282 | the alias check on identical snapshots can never raise |
| Statistics.NetsAgree | agentloopgate/evaluation/metrics.py:195-202 | the bootstrap net is gains less regressions, and equals the net of compare if and only if both stable counts are off by the same amount |
| Statistics.NetsCanDiffer | agentloopgate/evaluation/metrics.py:41-61 | two summaries that pass their validators and compare, with net 1 of the bootstrap and net 0 of compare |
| Statistics.SummariesCountStable | agentloopgate/evaluation/metrics.py:130-171 | summaries made by summarize count their stable tasks exactly |
| Statistics.CatastrophicIsRegression | agentloopgate/evaluation/metrics.py:173-210 | catastrophic tasks are regressions, and the net is at most gains less catastrophic tasks |
| DiverseSubset.SelectDiverse | agentloopgate/experiment/orchestrator.py:2560-2570 | the first qualifying combination in enumeration order, and none only if none qualifies |
| DiverseSubset.CombinationsAreSubsequences | agentloopgate/experiment/orchestrator.py:2566 | the enumerated combinations are exactly the subsequences of the asked length |
| DiverseSubset.PossibleExactlyUnderGuard | agentloopgate/experiment/orchestrator.py:1179-1200 | when no more families than candidates are asked for, a combination qualifies if and only if the guard of the caller holds |
| DiverseSubset.GuardSufficesExactlyWhenFewFamilies | agentloopgate/experiment/orchestrator.py:1179-1200 | the guard implies a qualifying combination for every candidate list if and only if no more families than candidates are asked for |
| DiverseSubset.GuardNotEnough | agentloopgate/experiment/orchestrator.py:1179-1200 | at three candidates and four families, four proposals of one family each pass the guard and no combination qualifies |

## Left out

- The cost reconciliation without task-attempt lineage is modelled for its totals and statuses only; the count of raw/direct cost mismatches, the provider-retry and token counters and the texts of notes are not.
- Rounding of the decimal context: money is exact, so the mean of costs and ratios are exact quotients.
- The float used for the rank of the bootstrap quantiles: the rank is the exact ceiling.
- Which of several faults is reported first, where one input has several, except where a row says so.
- CallLedger.ModelCallEvents: reading and parsing the file is not modelled; events are those that passed their own validators.
- Ingest.IngestResult: the structure checks on raw JSON, the evidence receipts and the diagnostics are not modelled.
- BatchGate.SealBatch: the mean cost taken over from an exact accounting into the summary is not modelled, nor are receipt and trace files other than by their records.
- SelectionEvidence.AmendedSelectionReachesVerdict: reading the study policy and the stored cost and attempt files is not modelled; the mean cost is that of the summary.
- Proposals.Updater.Ask: what the updater writes for one candidate is one unfinished directory and one last write, so a crash anywhere in between counts as unfinished; its own runs and their cost are not modelled.
- ExperimentRun.FormalRun.Run: batches, selection, decisions and reports are taken to give the same evidence in every run, and the two candidates of the release stage to come in one order; a torn event, plan or lifecycle file is not modelled.
- ReleaseGate.ExperimentFiles.RunStage: the equality checks on contract, split, snapshot, protocol and study are one identity; write-once files other than authorizations are taken to be written atomically; the evidence checks behind a retained result are one parameter.
- BatchRun.BatchFiles.RunBatch: one process at a time; ingestion, evidence checks, reconciliation and artifact are functions of the retained files, the evidence files form one sequence in the order of their writes, and attempt receipts are not modelled.
- TraceSync.TraceBridge.SyncTrace: truncation of digests in ids and the older id form are not modelled, so distinct contents always get distinct ids; a torn file is not modelled.
- Redaction.RedactValue: the regular expressions and case folding of key names are parameters.
- RequestCache.BridgeService.Handle: the handlers are parameters; schema validation errors are among their answers.
- Framing.Channel.ServeStream: parsing of a line and its response bytes are not modelled, only which line is handed over and which is refused.
- Gate thresholds, infrastructure assessment, failure diagnosis, split access roles and freezing, protocol and study pins: finite checks that one reading settles.
- Reports, charts, command line, subprocesses, environment and network: foreign calls without internal properties.
- The hold outcome and report payloads of a sealed Selection HOLD, and the accounting of updater costs: field copying and one sum.
