/** The append-only model-call usage log and its lifecycle check
    (agentloopgate/experiment/ledger.py, _model_call_events and its two readers). */
module CallLedger {
  import opened Common

  datatype AttemptState = Started | Completed | Failed

  datatype CostStatus = Pending | Exact | Partial | Unavailable | NotApplicable

  datatype UsageSchema = Usage10 | Usage11 | Usage12

  /** A task attempt: task, trial, seed and attempt index. */
  datatype Identity = Identity(taskId: string, trial: int, seed: int, attemptIndex: int)

  datatype CallEvent = CallEvent(
    schema: UsageSchema,
    callId: string,
    state: AttemptState,
    sessionHash: string,
    model: string,
    identity: Option<Identity>,
    input: Option<nat>,
    cacheRead: Option<nat>,
    output: Option<nat>,
    retries: Option<nat>,
    cost: Option<real>,
    costStatus: CostStatus)

  /** The validators of ModelCallUsageEvent, which every parsed event has passed. */
  predicate ValidEvent(e: CallEvent) {
    && (e.state.Started? ==> e.costStatus.Pending?)
    && (e.costStatus.Exact? ==> e.cost.Some?)
    && (e.cost.Some? ==> e.cost.value >= 0.0)
    && (e.schema.Usage11? ==> e.retries.Some?)
    && (e.schema.Usage10? ==> e.retries.None?)
    && (e.schema.Usage12? <==> e.identity.Some?)
    && (e.identity.Some? ==> e.identity.value.trial >= 0 && e.identity.value.attemptIndex >= 1)
  }

  /** The fields that a terminal event must share with its STARTED event. */
  predicate SameLineage(a: CallEvent, b: CallEvent) {
    a.sessionHash == b.sessionHash && a.model == b.model && a.identity == b.identity
  }

  datatype LedgerFault = DuplicateStarted | NoStarted | DuplicateTerminal | IdentityChanged

  ghost function StartedIds(log: seq<CallEvent>): (r: set<string>) {
    set e | e in log && e.state.Started? :: e.callId
  }

  ghost function TerminalIds(log: seq<CallEvent>): (r: set<string>) {
    set e | e in log && !e.state.Started? :: e.callId
  }

  /** What an acceptable log is: starts are unique, terminals are unique, and every terminal
      comes after a start of the same call with the same lineage. */
  ghost predicate LifecycleOk(log: seq<CallEvent>) {
    && (forall i, j | 0 <= i < j < |log| && log[i].state.Started? && log[j].state.Started? ::
          log[i].callId != log[j].callId)
    && (forall i, j | 0 <= i < j < |log| && !log[i].state.Started? && !log[j].state.Started? ::
          log[i].callId != log[j].callId)
    && (forall j | 0 <= j < |log| && !log[j].state.Started? :: StartedBefore(log, j))
  }

  ghost predicate StartedBefore(log: seq<CallEvent>, j: nat)
    requires j < |log|
  {
    exists i :: 0 <= i < j && log[i].state.Started? && log[i].callId == log[j].callId
                && log[i].sessionHash == log[j].sessionHash && log[i].model == log[j].model
                && log[i].identity == log[j].identity
  }

  /** The fault that event `e` adds after the accepted prefix `log`, if any. */
  ghost function FaultOf(log: seq<CallEvent>, e: CallEvent): (r: Option<LedgerFault>) {
    if e.state.Started? then
      if e.callId in StartedIds(log) then Some(DuplicateStarted) else None
    else if e.callId !in StartedIds(log) then Some(NoStarted)
    else if e.callId in TerminalIds(log) then Some(DuplicateTerminal)
    else if exists s :: s in log && s.state.Started? && s.callId == e.callId && !SameLineage(s, e)
      then Some(IdentityChanged)
    else None
  }

  lemma ExtendOk(p: seq<CallEvent>, e: CallEvent)
    requires LifecycleOk(p) && FaultOf(p, e).None?
    ensures LifecycleOk(p + [e])
  {
    var q := p + [e];
    forall i, j | 0 <= i < j < |q| && q[i].state.Started? == q[j].state.Started?
      ensures q[i].callId != q[j].callId
    {
      assert q[i] == p[i];
      if j == |p| {
        assert p[i] in p;
      }
    }
    forall j | 0 <= j < |q| && !q[j].state.Started? ensures StartedBefore(q, j) {
      if j < |p| {
        assert StartedBefore(p, j);
        var i :| 0 <= i < j && p[i].state.Started? && p[i].callId == p[j].callId && SameLineage(p[i], p[j]);
        assert q[i] == p[i] && q[j] == p[j];
      } else {
        var s :| s in p && s.state.Started? && s.callId == e.callId;
        var i :| 0 <= i < |p| && p[i] == s;
        assert q[i] == s;
      }
    }
  }

  lemma NoFault(p: seq<CallEvent>, e: CallEvent)
    requires LifecycleOk(p) && LifecycleOk(p + [e])
    ensures FaultOf(p, e).None?
  {
    var q := p + [e];
    forall i | 0 <= i < |p| && p[i].state.Started? == e.state.Started? ensures p[i].callId != e.callId {
      assert q[i] == p[i] && q[|p|] == e;
    }
    if !e.state.Started? {
      assert StartedBefore(q, |p|);
      var i :| 0 <= i < |p| && q[i].state.Started? && q[i].callId == e.callId && SameLineage(q[i], e);
      assert q[i] == p[i] && p[i] in p;
    }
  }

  lemma LifecycleStep(log: seq<CallEvent>, k: nat)
    requires k < |log| && LifecycleOk(log[..k])
    ensures LifecycleOk(log[..k + 1]) <==> FaultOf(log[..k], log[k]).None?
  {
    assert log[..k + 1] == log[..k] + [log[k]];
    if FaultOf(log[..k], log[k]).None? {
      ExtendOk(log[..k], log[k]);
    }
    if LifecycleOk(log[..k + 1]) {
      NoFault(log[..k], log[k]);
    }
  }

  /** Accepts a log exactly when its lifecycle is in order, and otherwise reports the fault of the
      first event that breaks it. */
  method ModelCallEvents(log: seq<CallEvent>) returns (r: Result<seq<CallEvent>, LedgerFault>)
    ensures r.Success? <==> LifecycleOk(log)
    ensures r.Success? ==> r.value == log
    ensures r.Failure? ==> exists k :: 0 <= k < |log| && LifecycleOk(log[..k])
                                       && FaultOf(log[..k], log[k]) == Some(r.error)
  {
    var started: map<string, CallEvent> := map[];
    var terminal: set<string> := {};
    for k := 0 to |log|
      invariant LifecycleOk(log[..k])
      invariant started.Keys == StartedIds(log[..k])
      invariant forall id | id in started ::
                  started[id] in log[..k] && started[id].state.Started? && started[id].callId == id
      invariant terminal == TerminalIds(log[..k])
    {
      var e := log[k];
      ghost var p := log[..k];
      assert log[..k + 1] == p + [e];
      LifecycleStep(log, k);
      if e.state.Started? {
        if e.callId in started {
          RejectAt(log, k);
          return Failure(DuplicateStarted);
        }
        started := started[e.callId := e];
      } else {
        if e.callId !in started {
          RejectAt(log, k);
          return Failure(NoStarted);
        }
        if e.callId in terminal {
          RejectAt(log, k);
          return Failure(DuplicateTerminal);
        }
        if !SameLineage(started[e.callId], e) {
          RejectAt(log, k);
          return Failure(IdentityChanged);
        }
        terminal := terminal + {e.callId};
      }
    }
    assert log[..|log|] == log;
    return Success(log);
  }

  lemma RejectAt(log: seq<CallEvent>, k: nat)
    requires k < |log| && LifecycleOk(log[..k]) && FaultOf(log[..k], log[k]).Some?
    ensures !LifecycleOk(log)
  {
  }

  // ---- The two readers of an accepted log ----

  function Terminals(log: seq<CallEvent>): (r: seq<CallEvent>) {
    if log == [] then []
    else Terminals(log[..|log| - 1]) + (if log[|log| - 1].state.Started? then [] else [log[|log| - 1]])
  }

  function CountStarted(log: seq<CallEvent>, item: Option<Identity>): (r: nat) {
    if log == [] then 0
    else
      var e := log[|log| - 1];
      CountStarted(log[..|log| - 1], item) + (if e.state.Started? && e.identity == item then 1 else 0)
  }

  function CountTerminal(log: seq<CallEvent>, item: Option<Identity>): (r: nat) {
    if log == [] then 0
    else
      var e := log[|log| - 1];
      CountTerminal(log[..|log| - 1], item) + (if !e.state.Started? && e.identity == item then 1 else 0)
  }

  /** Calls of one task attempt that were started and never reached a terminal event. */
  ghost function UnresolvedOf(log: seq<CallEvent>, item: Option<Identity>): (r: set<string>) {
    set e | e in log && e.state.Started? && e.identity == item && e.callId !in TerminalIds(log) :: e.callId
  }

  ghost function IdsOf(log: seq<CallEvent>, item: Option<Identity>, started: bool): (r: set<string>) {
    set e | e in log && e.state.Started? == started && e.identity == item :: e.callId
  }

  lemma IdsStep(p: seq<CallEvent>, e: CallEvent, item: Option<Identity>, started: bool)
    ensures IdsOf(p + [e], item, started)
         == IdsOf(p, item, started) + (if e.state.Started? == started && e.identity == item then {e.callId} else {})
  {
  }

  lemma FreshId(p: seq<CallEvent>, e: CallEvent, item: Option<Identity>)
    requires LifecycleOk(p + [e])
    ensures e.callId !in IdsOf(p, item, e.state.Started?)
  {
    var q := p + [e];
    forall i | 0 <= i < |p| && p[i].state.Started? == e.state.Started? ensures p[i].callId != e.callId {
      assert q[i] == p[i] && q[|p|] == e;
    }
  }

  lemma {:induction false} CountsAreIds(log: seq<CallEvent>, item: Option<Identity>)
    requires LifecycleOk(log)
    ensures CountStarted(log, item) == |IdsOf(log, item, true)|
    ensures CountTerminal(log, item) == |IdsOf(log, item, false)|
  {
    if log == [] {
    } else {
      var p, e := log[..|log| - 1], log[|log| - 1];
      assert log == p + [e];
      CountsAreIds(p, item);
      CountsStep(p, e, item);
    }
  }

  lemma CountsStep(p: seq<CallEvent>, e: CallEvent, item: Option<Identity>)
    requires LifecycleOk(p + [e])
    ensures |IdsOf(p + [e], item, true)|
         == |IdsOf(p, item, true)| + (if e.state.Started? && e.identity == item then 1 else 0)
    ensures |IdsOf(p + [e], item, false)|
         == |IdsOf(p, item, false)| + (if !e.state.Started? && e.identity == item then 1 else 0)
  {
    FreshId(p, e, item);
    IdsStep(p, e, item, true);
    IdsStep(p, e, item, false);
  }

  lemma StartedSplits(log: seq<CallEvent>, item: Option<Identity>)
    requires LifecycleOk(log)
    ensures IdsOf(log, item, true) == IdsOf(log, item, false) + UnresolvedOf(log, item)
    ensures IdsOf(log, item, false) !! UnresolvedOf(log, item)
  {
  }

  /** Terminals inject into starts: what separates the two counts of a task attempt is exactly the
      number of its unresolved calls, whatever the interleaving of calls in the log. */
  lemma {:induction false} StartedBalance(log: seq<CallEvent>, item: Option<Identity>)
    requires LifecycleOk(log)
    ensures CountStarted(log, item) == CountTerminal(log, item) + |UnresolvedOf(log, item)|
    ensures CountStarted(log, item) == CountTerminal(log, item) <==> UnresolvedOf(log, item) == {}
  {
    CountsAreIds(log, item);
    StartedSplits(log, item);
  }

  /** On an accepted log a terminal event is the first one of its call. */
  lemma TerminalsStep(log: seq<CallEvent>, k: nat)
    requires LifecycleOk(log) && k < |log|
    ensures log[k].state.Started? ==>
              Terminals(log[..k + 1]) == Terminals(log[..k]) && TerminalIds(log[..k + 1]) == TerminalIds(log[..k])
    ensures !log[k].state.Started? ==>
              && Terminals(log[..k + 1]) == Terminals(log[..k]) + [log[k]]
              && TerminalIds(log[..k + 1]) == TerminalIds(log[..k]) + {log[k].callId}
              && log[k].callId !in TerminalIds(log[..k])
  {
    assert log[..k + 1] == log[..k] + [log[k]] && log[..k + 1][..k] == log[..k];
  }

  /** The terminal events in log order; on an accepted log no second terminal is ever found. */
  method ModelCallTerminals(log: seq<CallEvent>) returns (r: Result<seq<CallEvent>, LedgerFault>)
    ensures r.Success? <==> LifecycleOk(log)
    ensures r.Success? ==> r.value == Terminals(log)
  {
    var checked := ModelCallEvents(log);
    if checked.Failure? {
      return Failure(checked.error);
    }
    var terminals: seq<CallEvent> := [];
    var seen: set<string> := {};
    for k := 0 to |log|
      invariant terminals == Terminals(log[..k])
      invariant seen == TerminalIds(log[..k])
    {
      TerminalsStep(log, k);
      if !log[k].state.Started? {
        terminals := terminals + [log[k]];
        seen := seen + {log[k].callId};
      }
    }
    assert log[..|log|] == log;
    return Success(terminals);
  }

  ghost function UnresolvedIds(log: seq<CallEvent>): (r: set<string>) {
    StartedIds(log) - TerminalIds(log)
  }

  /** Counts the calls without a terminal event. */
  method UnresolvedModelCalls(log: seq<CallEvent>) returns (r: Result<nat, LedgerFault>)
    ensures r.Success? <==> LifecycleOk(log)
    ensures r.Success? ==> r.value == |UnresolvedIds(log)|
  {
    var checked := ModelCallEvents(log);
    if checked.Failure? {
      return Failure(checked.error);
    }
    var started := set e | e in log && e.state.Started? :: e.callId;
    var terminal := set e | e in log && !e.state.Started? :: e.callId;
    return Success(|started - terminal|);
  }

  /** A whole log has no unresolved call exactly when no task attempt has one. */
  lemma UnresolvedByAttempt(log: seq<CallEvent>)
    requires LifecycleOk(log)
    ensures UnresolvedIds(log) == {} <==> forall e | e in log :: UnresolvedOf(log, e.identity) == {}
  {
  }
}
