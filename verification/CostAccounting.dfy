/** Cost reconciliation of one formal batch
    (agentloopgate/experiment/ledger.py, _reconcile_formal_costs_v12 and FormalCostAccounting). */
module CostAccounting {
  import opened Common
  import opened CallLedger
  import opened ChannelCost
  import opened Records
  import opened CostLineage

  type Log = Option<seq<CallEvent>>

  /** A task-attempt file and the frozen prices of a run with direct lineage. */
  datatype LineageInput = LineageInput(ledger: Option<seq<TaskEvent>>, prices: Option<Prices>)

  /** The retained attempts stand for their digest, which is taken to be injective. */
  datatype DirectCounts = DirectCounts(total: nat, valid: nat, infra: nat, identities: map<Identity, bool>)

  datatype Accounting = Accounting(
    schema14: bool,
    status: CostStatus,
    validStatus: CostStatus,
    validRuns: nat,
    infraRuns: nat,
    agentCalls: nat,
    unresolvedAgent: nat,
    userCalls: nat,
    unresolvedUser: nat,
    validAgent: real,
    validUser: Option<real>,
    infraAgent: Option<real>,
    infraUser: Option<real>,
    observedAgent: Option<real>,
    observedUser: Option<real>,
    retainedUser: Option<real>,
    lowerBound: real,
    meanAgent: Option<real>,
    meanTotal: Option<real>,
    direct: Option<DirectCounts>)

  datatype AccountingFault =
    | BadUsage(usage: LedgerFault)
    | BadChannel(channel: ChannelFault)
    | BadLineage(lineage: LineageFault)
    | NoTaskLedger | NoPrices | NegativePrice | NegativeCost

  // ---- Helper sums ----

  function OrZero(v: Option<real>): (r: real) { if v.Some? then v.value else 0.0 }

  function Max(a: real, b: real): (r: real) { if a < b then b else a }

  function SumOf(values: seq<Option<real>>): (r: real) {
    if values == [] then 0.0 else SumOf(values[..|values| - 1]) + OrZero(values[|values| - 1])
  }

  function Complete(values: seq<Option<real>>): (r: Option<real>) {
    if forall v | v in values :: v.Some? then Some(SumOf(values)) else None
  }

  function KnownSum(terminals: seq<CallEvent>): (r: real) {
    if terminals == [] then 0.0
    else KnownSum(terminals[..|terminals| - 1]) + Known(terminals[|terminals| - 1])
  }

  function RecordCosts(records: seq<RunRecord>, valid: bool): (out: seq<Option<real>>) {
    if records == [] then []
    else
      var r := records[|records| - 1];
      RecordCosts(records[..|records| - 1], valid) + (if r.valid == valid then [r.cost] else [])
  }

  function UserCosts(sims: seq<Simulation>, infra: bool): (r: seq<Option<real>>) {
    if sims == [] then []
    else
      var s := sims[|sims| - 1];
      UserCosts(sims[..|sims| - 1], infra) + (if s.infra == infra then [s.userCost] else [])
  }

  function AllUserCosts(sims: seq<Simulation>): (r: seq<Option<real>>) {
    seq(|sims|, i requires 0 <= i < |sims| => sims[i].userCost)
  }

  function UserMessages(sims: seq<Simulation>): (r: nat) {
    if sims == [] then 0 else UserMessages(sims[..|sims| - 1]) + sims[|sims| - 1].userMessages
  }

  predicate NonNegative(v: Option<real>) { v.Some? ==> v.value >= 0.0 }

  predicate AllCallsExact(terminals: seq<CallEvent>) {
    forall e | e in terminals :: e.costStatus.Exact?
  }

  predicate RetriesSeen(terminals: seq<CallEvent>) {
    forall e | e in terminals :: e.retries.Some?
  }

  function Events(file: Log): (r: seq<CallEvent>) { if file.Some? then file.value else [] }

  function StatusOf(exact: bool, known: real): (r: CostStatus) {
    if exact then Exact else if known > 0.0 then Partial else Unavailable
  }

  // ---- The meaning of an accounting with direct lineage ----

  ghost predicate ChannelExact(file: Log, retained: map<Identity, bool>, keys: set<Identity>)
    requires keys <= retained.Keys
  {
    file.Some? && AllExact(file.value, retained, keys)
  }

  /** The whole agent log costed: every call of a non-empty log is exact, resolved and retry-observed. */
  ghost function WholeAgent(file: Log): (r: Option<real>) {
    if Terminals(Events(file)) != [] && WholeExact(file) then Some(KnownSum(Terminals(Events(file)))) else None
  }

  /** The whole user log costed: it covers the user messages of the raw result, and is exact as above. */
  ghost function WholeUser(file: Log, sims: seq<Simulation>): (r: Option<real>) {
    if file.Some? && (Terminals(file.value) != [] || UserMessages(sims) == 0)
       && |Terminals(file.value)| >= UserMessages(sims) && WholeExact(file)
    then Some(KnownUser(file, sims)) else None
  }

  ghost predicate WholeExact(file: Log) {
    && (forall e | e in Terminals(Events(file)) :: e.costStatus.Exact? && e.retries.Some?)
    && UnresolvedIds(Events(file)) == {}
  }

  /** The user cost known from the log or from the raw result, whichever is higher. */
  ghost function KnownUser(file: Log, sims: seq<Simulation>): (r: real) {
    var logged, reported := KnownSum(Terminals(Events(file))), SumOf(AllUserCosts(sims));
    if logged >= reported then logged else reported
  }

  /** Each cost of the accounting is the known cost of a set of task attempts. */
  ghost predicate DirectCosts(a: Accounting, sims: seq<Simulation>, agent: Log, user: Log,
                              retained: map<Identity, bool>) {
    && a.validAgent == KnownIn(Events(agent), Valid(retained))
    && a.validUser == (if user.Some? then Some(KnownIn(user.value, Valid(retained))) else None)
    && a.retainedUser == (if user.Some? then Some(KnownIn(user.value, retained.Keys)) else None)
    && a.infraAgent == (if ChannelExact(agent, retained, Infra(retained))
                        then Some(KnownIn(Events(agent), Infra(retained))) else None)
    && a.infraUser == (if ChannelExact(user, retained, Infra(retained))
                       then Some(KnownIn(Events(user), Infra(retained))) else None)
    && a.observedAgent == (if ChannelExact(agent, retained, retained.Keys)
                           then Some(KnownIn(Events(agent), retained.Keys)) else WholeAgent(agent))
    && a.observedUser == (if ChannelExact(user, retained, retained.Keys)
                          then Some(KnownIn(Events(user), retained.Keys)) else WholeUser(user, sims))
  }

  /** Each status says which attempts are exact in both channels, and a mean needs exact costs. */
  ghost predicate DirectStatuses(a: Accounting, agent: Log, user: Log, retained: map<Identity, bool>) {
    && (a.status.Exact? <==> ChannelExact(agent, retained, retained.Keys) && ChannelExact(user, retained, retained.Keys))
    && (a.validStatus.Exact? <==>
          ChannelExact(agent, retained, Valid(retained)) && ChannelExact(user, retained, Valid(retained)))
    && a.meanAgent == (if a.validRuns > 0 && ChannelExact(agent, retained, Valid(retained))
                       then Some(a.validAgent / a.validRuns as real) else None)
    && a.direct == Some(DirectCounts(|retained|, |WithValue(retained, false)|, |WithValue(retained, true)|, retained))
  }

  ghost predicate DirectlyReconciled(a: Accounting, sims: seq<Simulation>, agent: Log, user: Log,
                                     retained: map<Identity, bool>) {
    a.schema14 && DirectCosts(a, sims, agent, user, retained) && DirectStatuses(a, agent, user, retained)
  }

  /** The sum of reported costs, if none is missing. */
  ghost predicate Totals(total: Option<real>, values: seq<Option<real>>) {
    total == if None in values then None else Some(SumOf(values))
  }

  /** Without lineage the costs are those that the raw result reports, and the whole logs decide. */
  ghost predicate RawlyReconciled(a: Accounting, sims: seq<Simulation>, records: seq<RunRecord>, agent: Log, user: Log) {
    && !a.schema14 && a.direct.None?
    && a.validAgent == SumOf(RecordCosts(records, true))
    && Totals(a.validUser, UserCosts(sims, false))
    && Totals(a.infraAgent, RecordCosts(records, false))
    && Totals(a.infraUser, UserCosts(sims, true))
    && Totals(a.retainedUser, AllUserCosts(sims))
    && a.observedAgent == WholeAgent(agent) && a.observedUser == WholeUser(user, sims)
    && (a.status.Exact? <==> a.observedAgent.Some? && a.observedUser.Some?)
    && (a.validStatus.Exact? <==> None !in RecordCosts(records, true) && a.validUser.Some?)
    && a.meanAgent == (if a.validRuns > 0 && None !in RecordCosts(records, true)
                       then Some(a.validAgent / a.validRuns as real) else None)
  }

  /** The part of the accounting that is the same with and without lineage. */
  ghost predicate CommonlyReconciled(a: Accounting, sims: seq<Simulation>, records: seq<RunRecord>,
                                     agent: Log, user: Log) {
    && a.lowerBound == KnownSum(Terminals(Events(agent))) + KnownUser(user, sims)
    && a.validRuns == |RecordCosts(records, true)| && a.infraRuns == |RecordCosts(records, false)|
    && a.agentCalls == |Terminals(Events(agent))| && a.userCalls == |Terminals(Events(user))|
    && a.unresolvedAgent == |UnresolvedIds(Events(agent))| && a.unresolvedUser == |UnresolvedIds(Events(user))|
    && StatusesFollow(a)
  }

  ghost predicate InputsOk(sims: seq<Simulation>, records: seq<RunRecord>, agent: Log, user: Log) {
    && (forall e | e in Events(agent) :: ValidEvent(e))
    && (forall e | e in Events(user) :: ValidEvent(e))
    && (forall r | r in records :: ValidRecord(r))
  }

  ghost predicate NonNegativeCosts(sims: seq<Simulation>) {
    forall s | s in sims && s.userCost.Some? :: s.userCost.value >= 0.0
  }

  predicate SimCostsOk(sims: seq<Simulation>, lineage: bool) {
    forall s | s in sims :: NonNegative(s.userCost) && (lineage ==> NonNegative(s.agentCost))
  }

  // ---- The reconciliation ----

  /** What the branch with or without lineage contributes to the accounting. */
  datatype Costs = Costs(
    validAgent: real, validAgentComplete: bool, validUser: Option<real>, validUserExact: bool,
    infraAgent: Option<real>, infraUser: Option<real>, retainedUser: Option<real>,
    agentTotal: Option<real>, userTotal: Option<real>, direct: Option<DirectCounts>)

  function CostsOf(retained: map<Identity, bool>, agent: Channel, user: Channel, userFile: bool): (r: Costs) {
    var valid := |set item | item in retained && retained[item] == false|;
    SplitByValue(retained);
    Costs(
      agent.validKnown, agent.validExact, if userFile then Some(user.validKnown) else None, user.validExact,
      if agent.infraExact then Some(agent.infraKnown) else None,
      if user.infraExact then Some(user.infraKnown) else None,
      if userFile then Some(user.retainedKnown) else None,
      if agent.retainedExact then Some(agent.retainedKnown) else None,
      if user.retainedExact then Some(user.retainedKnown) else None,
      Some(DirectCounts(|retained|, valid, |retained| - valid, retained)))
  }

  ghost function Cost(file: Log, retained: map<Identity, bool>): (r: Channel) {
    if file.Some? then ChannelOf(file.value, retained) else UNAVAILABLE
  }

  ghost predicate ChannelOk(file: Log, keys: set<Identity>, p: Prices) {
    file.Some? ==> LifecycleOk(file.value) && AllUsage12(file.value) && PricesMatch(file.value, keys, p)
  }

  /** What the evidence of the lineage branch must be, with the attempts that it retains. */
  ghost predicate Linked(sims: seq<Simulation>, records: seq<RunRecord>, agent: Log, user: Log,
                         input: LineageInput, retained: map<Identity, bool>) {
    && input.ledger.Some? && input.prices.Some?
    && input.prices.value.input >= 0.0 && input.prices.value.cacheRead >= 0.0 && input.prices.value.output >= 0.0
    && NonNegativeCosts(sims)
    && (forall s | s in sims && s.agentCost.Some? :: s.agentCost.value >= 0.0)
    && Accepted(input.ledger.value, sims, records)
    && (exists order :: Binding(input.ledger.value, sims, order) && Mirrors(retained, order, sims))
    && ChannelOk(agent, retained.Keys, input.prices.value)
    && ChannelOk(user, retained.Keys, input.prices.value)
  }

  /** The evidence determines the attempts that it retains. */
  lemma RetainedUnique(events: seq<TaskEvent>, sims: seq<Simulation>, order: seq<Identity>, retained: map<Identity, bool>,
                       order': seq<Identity>, retained': map<Identity, bool>)
    requires CompletedOk(events)
    requires Binding(events, sims, order) && Mirrors(retained, order, sims)
    requires Binding(events, sims, order') && Mirrors(retained', order', sims)
    ensures retained == retained'
  {
    forall i | 0 <= i < |sims| ensures order[i] == order'[i] {
      BindingUnique(events, sims[i], order[i], order'[i]);
    }
    assert order == order';
    forall item | item in retained ensures retained[item] == retained'[item] {
      var i :| 0 <= i < |sims| && order[i] == item;
    }
  }

  lemma LinkedIsBound(sims: seq<Simulation>, records: seq<RunRecord>, agent: Log, user: Log, input: LineageInput,
                      order: seq<Identity>, retained: map<Identity, bool>)
    requires input.ledger.Some? && CompletedOk(input.ledger.value)
    requires Binding(input.ledger.value, sims, order) && Mirrors(retained, order, sims)
    ensures forall other | Linked(sims, records, agent, user, input, other) :: other == retained
  {
    forall other | Linked(sims, records, agent, user, input, other) ensures other == retained {
      var order' :| Binding(input.ledger.value, sims, order') && Mirrors(other, order', sims);
      RetainedUnique(input.ledger.value, sims, order, retained, order', other);
    }
  }

  /** The costs of the lineage branch. */
  method DirectLineage(sims: seq<Simulation>, records: seq<RunRecord>, agent: Log, user: Log, input: LineageInput)
    returns (r: Result<Costs, AccountingFault>)
    requires InputsOk(sims, records, agent, user)
    ensures r.Success? <==> exists retained :: Linked(sims, records, agent, user, input, retained)
    ensures r.Success? ==>
              && r.value.direct.Some?
              && var retained := r.value.direct.value.identities;
                 && Linked(sims, records, agent, user, input, retained)
                 && r.value == CostsOf(retained, Cost(agent, retained), Cost(user, retained), user.Some?)
  {
    if input.ledger.None? {
      return Failure(NoTaskLedger);
    }
    if input.prices.None? {
      return Failure(NoPrices);
    }
    var p := input.prices.value;
    if p.input < 0.0 || p.cacheRead < 0.0 || p.output < 0.0 {
      return Failure(NegativePrice);
    }
    if !SimCostsOk(sims, true) {
      return Failure(NegativeCost);
    }
    var bound := BindSimulations(input.ledger.value, sims, records);
    if bound.Failure? {
      return Failure(BadLineage(bound.error));
    }
    var retained := bound.value.retained;
    LinkedIsBound(sims, records, agent, user, input, bound.value.order, retained);
    var agentCost := DirectChannelCost(agent, retained, p);
    if agentCost.Failure? {
      return Failure(BadChannel(agentCost.error));
    }
    var userCost := DirectChannelCost(user, retained, p);
    if userCost.Failure? {
      return Failure(BadChannel(userCost.error));
    }
    assert Linked(sims, records, agent, user, input, retained);
    return Success(CostsOf(retained, agentCost.value, userCost.value, user.Some?));
  }

  /** The costs of the branch without lineage: what the raw result itself reports. */
  function RawCosts(sims: seq<Simulation>, records: seq<RunRecord>, agentTotal: Option<real>,
                    userTotal: Option<real>): (r: Costs) {
    Costs(
      SumOf(RecordCosts(records, true)), Complete(RecordCosts(records, true)).Some?,
      Complete(UserCosts(sims, false)), true,
      Complete(RecordCosts(records, false)), Complete(UserCosts(sims, true)), Complete(AllUserCosts(sims)),
      agentTotal, userTotal, None)
  }

  /** One usage log, read as a whole. */
  datatype Usage = Usage(calls: seq<CallEvent>, unresolved: nat)

  predicate UsageExact(u: Usage) {
    AllCallsExact(u.calls) && u.unresolved == 0 && RetriesSeen(u.calls)
  }

  method ReadUsage(file: Log) returns (r: Result<Usage, LedgerFault>)
    ensures r.Success? <==> LifecycleOk(Events(file))
    ensures r.Success? ==> r.value == Usage(Terminals(Events(file)), |UnresolvedIds(Events(file))|)
  {
    var calls := ModelCallTerminals(Events(file));
    if calls.Failure? {
      return Failure(calls.error);
    }
    var unresolved := UnresolvedModelCalls(Events(file));
    return Success(Usage(calls.value, unresolved.value));
  }

  function Assemble(c: Costs, agent: Usage, user: Usage, validRuns: nat, infraRuns: nat,
                    observedAgent: Option<real>, observedUser: Option<real>, lowerBound: real): (r: Accounting) {
    var schema14 := c.direct.Some?;
    var validExact := c.validAgentComplete && c.validUser.Some? && c.validUserExact;
    var validKnown := c.validAgent + OrZero(c.validUser);
    var validStatus := StatusOf(validExact, validKnown);
    Accounting(
      schema14, StatusOf(c.agentTotal.Some? && c.userTotal.Some?, lowerBound), validStatus,
      validRuns, infraRuns, |agent.calls|, agent.unresolved, |user.calls|, user.unresolved,
      c.validAgent, c.validUser, c.infraAgent, c.infraUser,
      if schema14 && c.agentTotal.Some? then c.agentTotal else observedAgent,
      if schema14 && c.userTotal.Some? then c.userTotal else observedUser,
      c.retainedUser, lowerBound,
      if validRuns > 0 && c.validAgentComplete then Some(c.validAgent / validRuns as real) else None,
      if schema14 && validRuns > 0 && validStatus.Exact? then Some(validKnown / validRuns as real) else None,
      c.direct)
  }

  function ObservedAgent(agent: Usage, known: real): (r: Option<real>) {
    if agent.calls != [] && UsageExact(agent) then Some(known) else None
  }

  function ObservedUser(file: bool, user: Usage, messages: nat, known: real): (r: Option<real>) {
    if file && (user.calls != [] || messages == 0) && |user.calls| >= messages && UsageExact(user)
    then Some(known) else None
  }

  lemma ObservedWhole(agent: Log, user: Log, sims: seq<Simulation>, agentUsage: Usage, userUsage: Usage)
    requires agentUsage == Usage(Terminals(Events(agent)), |UnresolvedIds(Events(agent))|)
    requires userUsage == Usage(Terminals(Events(user)), |UnresolvedIds(Events(user))|)
    ensures ObservedAgent(agentUsage, KnownSum(agentUsage.calls)) == WholeAgent(agent)
    ensures ObservedUser(user.Some?, userUsage, UserMessages(sims), KnownUser(user, sims)) == WholeUser(user, sims)
  {
  }

  method Reconcile(sims: seq<Simulation>, records: seq<RunRecord>, agent: Log, user: Log,
                   lineage: Option<LineageInput>)
    returns (r: Result<Accounting, AccountingFault>)
    requires InputsOk(sims, records, agent, user)
    ensures r.Success? <==>
              && NonNegativeCosts(sims) && LifecycleOk(Events(agent)) && LifecycleOk(Events(user))
              && (lineage.Some? ==> exists retained :: Linked(sims, records, agent, user, lineage.value, retained))
    ensures r.Success? ==> CommonlyReconciled(r.value, sims, records, agent, user)
    ensures r.Success? ==> (r.value.direct.Some? <==> lineage.Some?) && r.value.schema14 == lineage.Some?
    ensures r.Success? && lineage.Some? ==>
              && Linked(sims, records, agent, user, lineage.value, r.value.direct.value.identities)
              && DirectlyReconciled(r.value, sims, agent, user, r.value.direct.value.identities)
    ensures r.Success? && lineage.None? ==> RawlyReconciled(r.value, sims, records, agent, user)
  {
    if !SimCostsOk(sims, false) {
      return Failure(NegativeCost);
    }
    var agentRead := ReadUsage(agent);
    if agentRead.Failure? {
      return Failure(BadUsage(agentRead.error));
    }
    var userRead := ReadUsage(user);
    if userRead.Failure? {
      return Failure(BadUsage(userRead.error));
    }
    var agentUsage, userUsage := agentRead.value, userRead.value;
    var knownAgent := KnownSum(agentUsage.calls);
    var knownUser := Max(KnownSum(userUsage.calls), SumOf(AllUserCosts(sims)));
    var observedAgent := ObservedAgent(agentUsage, knownAgent);
    var observedUser := ObservedUser(user.Some?, userUsage, UserMessages(sims), knownUser);
    ObservedWhole(agent, user, sims, agentUsage, userUsage);
    var costs := RawCosts(sims, records, observedAgent, observedUser);
    if lineage.Some? {
      var linked := DirectLineage(sims, records, agent, user, lineage.value);
      if linked.Failure? {
        return Failure(linked.error);
      }
      costs := linked.value;
    }
    var lowerBound := knownAgent + knownUser;
    var validRuns, infraRuns := |RecordCosts(records, true)|, |RecordCosts(records, false)|;
    AssembledCommonly(costs, agentUsage, userUsage, validRuns, infraRuns, observedAgent, observedUser, lowerBound);
    if lineage.Some? {
      AssembledDirectly(costs, agentUsage, userUsage, validRuns, infraRuns, observedAgent, observedUser, lowerBound,
                        sims, agent, user, costs.direct.value.identities);
    } else {
      AssembledRawly(costs, agentUsage, userUsage, validRuns, infraRuns, observedAgent, observedUser, lowerBound,
                     sims, records, agent, user);
    }
    return Success(Assemble(costs, agentUsage, userUsage, validRuns, infraRuns,
                            observedAgent, observedUser, lowerBound));
  }

  /** The statuses and the total mean of an assembled accounting. */
  ghost predicate StatusesFollow(a: Accounting) {
    && (!a.validStatus.Exact? ==>
          a.validStatus == if a.validAgent + OrZero(a.validUser) > 0.0 then Partial else Unavailable)
    && (!a.status.Exact? ==> a.status == if a.lowerBound > 0.0 then Partial else Unavailable)
    && a.meanTotal == (if a.schema14 && a.validRuns > 0 && a.validStatus.Exact?
                       then Some((a.validAgent + OrZero(a.validUser)) / a.validRuns as real) else None)
  }

  lemma AssembledCommonly(c: Costs, agent: Usage, user: Usage, validRuns: nat, infraRuns: nat,
                          observedAgent: Option<real>, observedUser: Option<real>, lowerBound: real)
    ensures StatusesFollow(Assemble(c, agent, user, validRuns, infraRuns, observedAgent, observedUser, lowerBound))
  {
  }

  lemma AssembledDirectly(c: Costs, agentUsage: Usage, userUsage: Usage, validRuns: nat, infraRuns: nat,
                          observedAgent: Option<real>, observedUser: Option<real>, lowerBound: real,
                          sims: seq<Simulation>, agent: Log, user: Log, retained: map<Identity, bool>)
    requires c == CostsOf(retained, Cost(agent, retained), Cost(user, retained), user.Some?)
    requires observedAgent == WholeAgent(agent) && observedUser == WholeUser(user, sims)
    ensures DirectlyReconciled(Assemble(c, agentUsage, userUsage, validRuns, infraRuns,
                                        observedAgent, observedUser, lowerBound), sims, agent, user, retained)
  {
    var a := Assemble(c, agentUsage, userUsage, validRuns, infraRuns, observedAgent, observedUser, lowerBound);
    DirectCostsFollow(a, c, observedAgent, observedUser, sims, agent, user, retained);
    DirectStatusesFollow(a, c, agent, user, retained);
  }

  lemma DirectCostsFollow(a: Accounting, c: Costs, observedAgent: Option<real>, observedUser: Option<real>,
                          sims: seq<Simulation>, agent: Log, user: Log, retained: map<Identity, bool>)
    requires c == CostsOf(retained, Cost(agent, retained), Cost(user, retained), user.Some?)
    requires observedAgent == WholeAgent(agent) && observedUser == WholeUser(user, sims)
    requires a.validAgent == c.validAgent && a.validUser == c.validUser && a.retainedUser == c.retainedUser
    requires a.infraAgent == c.infraAgent && a.infraUser == c.infraUser
    requires a.observedAgent == (if c.agentTotal.Some? then c.agentTotal else observedAgent)
    requires a.observedUser == (if c.userTotal.Some? then c.userTotal else observedUser)
    ensures DirectCosts(a, sims, agent, user, retained)
  {
  }

  lemma DirectStatusesFollow(a: Accounting, c: Costs, agent: Log, user: Log, retained: map<Identity, bool>)
    requires c == CostsOf(retained, Cost(agent, retained), Cost(user, retained), user.Some?)
    requires a.status.Exact? <==> c.agentTotal.Some? && c.userTotal.Some?
    requires a.validStatus.Exact? <==> c.validAgentComplete && c.validUser.Some? && c.validUserExact
    requires a.validAgent == c.validAgent && a.direct == c.direct
    requires a.meanAgent == (if a.validRuns > 0 && c.validAgentComplete then Some(c.validAgent / a.validRuns as real)
                             else None)
    ensures DirectStatuses(a, agent, user, retained)
  {
    SplitByValue(retained);
  }

  lemma AssembledRawly(c: Costs, agentUsage: Usage, userUsage: Usage, validRuns: nat, infraRuns: nat,
                       observedAgent: Option<real>, observedUser: Option<real>, lowerBound: real,
                       sims: seq<Simulation>, records: seq<RunRecord>, agent: Log, user: Log)
    requires c == RawCosts(sims, records, observedAgent, observedUser)
    requires observedAgent == WholeAgent(agent) && observedUser == WholeUser(user, sims)
    ensures RawlyReconciled(Assemble(c, agentUsage, userUsage, validRuns, infraRuns,
                                     observedAgent, observedUser, lowerBound), sims, records, agent, user)
  {
  }

  lemma SplitByValue(retained: map<Identity, bool>)
    ensures |retained| == |WithValue(retained, false)| + |WithValue(retained, true)|
    ensures WithValue(retained, false) == Valid(retained) && WithValue(retained, true) == Infra(retained)
  {
    assert retained.Keys == WithValue(retained, false) + WithValue(retained, true);
  }

  // ---- The sums, said of their parts ----

  /** A missing cost counts as zero, and the costs of two parts add up. */
  lemma {:induction false} SumOfParts(a: seq<Option<real>>, b: seq<Option<real>>)
    ensures SumOf([]) == 0.0 && SumOf([None]) == 0.0 && forall v :: SumOf([Some(v)]) == v
    ensures SumOf(a + b) == SumOf(a) + SumOf(b)
  {
    assert forall v :: SumOf([v]) == SumOf([v][..0]) + OrZero(v);
    if b == [] {
      assert a + b == a;
    } else {
      SumOfParts(a, b[..|b| - 1]);
      assert (a + b)[..|a + b| - 1] == a + b[..|b| - 1];
    }
  }

  /** A call that ended with an exact or partial cost counts with it, any other not at all, and the calls of
      two parts of a log add up. */
  lemma {:induction false} KnownSumParts(a: seq<CallEvent>, b: seq<CallEvent>)
    ensures KnownSum([]) == 0.0
    ensures forall e :: KnownSum([e]) ==
                        if e.cost.Some? && (e.costStatus.Exact? || e.costStatus.Partial?) then e.cost.value else 0.0
    ensures KnownSum(a + b) == KnownSum(a) + KnownSum(b)
  {
    assert forall e :: KnownSum([e]) == KnownSum([e][..0]) + Known(e);
    if b == [] {
      assert a + b == a;
    } else {
      KnownSumParts(a, b[..|b| - 1]);
      assert (a + b)[..|a + b| - 1] == a + b[..|b| - 1];
    }
  }

  ghost function UserCostsAt(sims: seq<Simulation>, infra: bool): (out: seq<Option<real>>) {
    seq(|sims|, i requires 0 <= i < |sims| => if sims[i].infra == infra then sims[i].userCost else None)
  }

  /** The reported user costs of the scored runs, or of the infra-failed ones, added up run by run. */
  lemma {:induction false} UserCostsByRun(sims: seq<Simulation>, infra: bool)
    ensures SumOf(UserCosts(sims, infra)) == SumOf(UserCostsAt(sims, infra))
  {
    if sims == [] {
    } else {
      var k := |sims| - 1;
      UserCostsByRun(sims[..k], infra);
      assert UserCostsAt(sims, infra)[..k] == UserCostsAt(sims[..k], infra);
      SumOfParts(UserCosts(sims[..k], infra), if sims[k].infra == infra then [sims[k].userCost] else []);
    }
  }

  lemma {:induction false} UserCostsMissing(sims: seq<Simulation>, infra: bool)
    ensures None in UserCosts(sims, infra) <==> exists s :: s in sims && s.infra == infra && s.userCost.None?
  {
    if sims == [] {
    } else {
      var k := |sims| - 1;
      UserCostsMissing(sims[..k], infra);
      assert sims == sims[..k] + [sims[k]];
    }
  }

  ghost function RecordCostsAt(records: seq<RunRecord>, valid: bool): (out: seq<Option<real>>) {
    seq(|records|, i requires 0 <= i < |records| => if records[i].valid == valid then records[i].cost else None)
  }

  /** The agent costs of the valid records, or of the invalid ones, added up record by record. */
  lemma {:induction false} RecordCostsByRun(records: seq<RunRecord>, valid: bool)
    ensures SumOf(RecordCosts(records, valid)) == SumOf(RecordCostsAt(records, valid))
  {
    if records == [] {
    } else {
      var k := |records| - 1;
      RecordCostsByRun(records[..k], valid);
      assert RecordCostsAt(records, valid)[..k] == RecordCostsAt(records[..k], valid);
      SumOfParts(RecordCosts(records[..k], valid), if records[k].valid == valid then [records[k].cost] else []);
    }
  }

  lemma {:induction false} RecordCostsMissing(records: seq<RunRecord>, valid: bool)
    ensures None in RecordCosts(records, valid) <==> exists r :: r in records && r.valid == valid && r.cost.None?
  {
    if records == [] {
    } else {
      var k := |records| - 1;
      RecordCostsMissing(records[..k], valid);
      assert records == records[..k] + [records[k]];
    }
  }

  lemma {:induction false} UserMessagesParts(a: seq<Simulation>, b: seq<Simulation>)
    ensures UserMessages([]) == 0 && forall s :: UserMessages([s]) == s.userMessages
    ensures UserMessages(a + b) == UserMessages(a) + UserMessages(b)
  {
    assert forall s :: UserMessages([s]) == UserMessages([s][..0]) + s.userMessages;
    if b == [] {
      assert a + b == a;
    } else {
      UserMessagesParts(a, b[..|b| - 1]);
      assert (a + b)[..|a + b| - 1] == a + b[..|b| - 1];
    }
  }

  // ---- Main results ----

  lemma {:induction false} SelectedWithinAll(log: seq<CallEvent>, keys: set<Identity>)
    requires forall e | e in log :: ValidEvent(e)
    ensures 0.0 <= KnownIn(log, keys) <= KnownSum(Terminals(log))
  {
    if log == [] {
    } else {
      var k := |log| - 1;
      assert log[k] in log && forall e | e in log[..k] :: e in log;
      SelectedWithinAll(log[..k], keys);
      KnownStep(log);
      assert 0.0 <= Known(log[k]);
    }
  }

  lemma KnownStep(log: seq<CallEvent>)
    requires log != []
    ensures var before, last := log[..|log| - 1], log[|log| - 1];
            KnownSum(Terminals(log)) == KnownSum(Terminals(before)) + if last.state.Started? then 0.0 else Known(last)
  {
    var before, last := log[..|log| - 1], log[|log| - 1];
    if !last.state.Started? {
      assert (Terminals(before) + [last])[..|Terminals(before)|] == Terminals(before);
    } else {
      assert Terminals(log) == Terminals(before);
    }
  }

  /** Per channel and in total: valid cost is at most retained cost, which is at most the lower bound
      reported for the whole batch. */
  lemma CostsAreOrdered(a: Accounting, sims: seq<Simulation>, records: seq<RunRecord>, agent: Log, user: Log,
                        retained: map<Identity, bool>)
    requires InputsOk(sims, records, agent, user)
    requires CommonlyReconciled(a, sims, records, agent, user) && DirectlyReconciled(a, sims, agent, user, retained)
    ensures 0.0 <= a.validAgent <= KnownIn(Events(agent), retained.Keys) <= KnownSum(Terminals(Events(agent)))
    ensures a.retainedUser.Some? ==>
              0.0 <= OrZero(a.validUser) <= a.retainedUser.value <= KnownSum(Terminals(Events(user)))
    ensures a.validAgent + OrZero(a.validUser)
         <= KnownIn(Events(agent), retained.Keys) + OrZero(a.retainedUser)
         <= a.lowerBound
    ensures NonNegative(a.infraAgent) && NonNegative(a.infraUser) && NonNegative(a.validUser)
    ensures a.infraAgent.Some? ==> a.validAgent + a.infraAgent.value == KnownIn(Events(agent), retained.Keys)
    ensures a.infraUser.Some? ==> OrZero(a.validUser) + a.infraUser.value == OrZero(a.retainedUser)
  {
    SelectedWithinAll(Events(agent), retained.Keys);
    SelectedWithinAll(Events(user), retained.Keys);
    CostConservation(Events(agent), retained, retained.Keys);
    CostConservation(Events(user), retained, retained.Keys);
  }

  /** The rule of FormalCostAccounting for its schema 1.4: the total mean is the exact valid cost over
      the valid runs and is absent otherwise; older schemas have no total mean and no lineage. */
  predicate MeanRule(a: Accounting) {
    if a.schema14 then
      && a.direct.Some?
      && a.meanTotal == (if a.validStatus.Exact? && a.validRuns > 0
                         then Some((a.validAgent + OrZero(a.validUser)) / a.validRuns as real) else None)
    else a.meanTotal.None? && a.direct.None?
  }

  /** The fields of FormalCostAccounting that its schema bounds by zero from below. */
  predicate FieldsInBounds(a: Accounting) {
    && a.validAgent >= 0.0 && NonNegative(a.validUser) && NonNegative(a.infraAgent) && NonNegative(a.infraUser)
    && NonNegative(a.observedAgent) && NonNegative(a.observedUser) && NonNegative(a.retainedUser)
    && a.lowerBound >= 0.0 && NonNegative(a.meanAgent) && NonNegative(a.meanTotal)
  }

  lemma {:induction false} SumIsNonNegative(values: seq<Option<real>>)
    requires forall v | v in values :: NonNegative(v)
    ensures SumOf(values) >= 0.0
  {
    if values == [] {
    } else {
      assert values[|values| - 1] in values;
      SumIsNonNegative(values[..|values| - 1]);
    }
  }

  lemma {:induction false} RecordCostsInBounds(records: seq<RunRecord>, valid: bool)
    requires forall r | r in records :: ValidRecord(r)
    ensures forall v | v in RecordCosts(records, valid) :: NonNegative(v)
    ensures SumOf(RecordCosts(records, valid)) >= 0.0
  {
    if records == [] {
    } else {
      assert records[|records| - 1] in records;
      RecordCostsInBounds(records[..|records| - 1], valid);
    }
    SumIsNonNegative(RecordCosts(records, valid));
  }

  lemma {:induction false} UserCostsInBounds(sims: seq<Simulation>, infra: bool)
    requires NonNegativeCosts(sims)
    ensures forall v | v in UserCosts(sims, infra) :: NonNegative(v)
    ensures SumOf(UserCosts(sims, infra)) >= 0.0
  {
    if sims == [] {
    } else {
      assert sims[|sims| - 1] in sims;
      UserCostsInBounds(sims[..|sims| - 1], infra);
    }
    SumIsNonNegative(UserCosts(sims, infra));
  }

  lemma WholeCosts(sims: seq<Simulation>, records: seq<RunRecord>, agent: Log, user: Log)
    requires InputsOk(sims, records, agent, user) && NonNegativeCosts(sims)
    ensures NonNegative(WholeAgent(agent)) && NonNegative(WholeUser(user, sims))
    ensures KnownSum(Terminals(Events(agent))) + KnownUser(user, sims) >= 0.0
  {
    SelectedWithinAll(Events(agent), {});
    SelectedWithinAll(Events(user), {});
    SumIsNonNegative(AllUserCosts(sims));
  }

  /** A payload with lineage keeps each of its bounded fields. */
  lemma DirectFieldsInBounds(a: Accounting, sims: seq<Simulation>, records: seq<RunRecord>, agent: Log, user: Log,
                             retained: map<Identity, bool>)
    requires InputsOk(sims, records, agent, user) && NonNegativeCosts(sims)
    requires CommonlyReconciled(a, sims, records, agent, user) && DirectlyReconciled(a, sims, agent, user, retained)
    ensures FieldsInBounds(a) && a.validAgent + OrZero(a.validUser) >= 0.0
  {
    CostsAreOrdered(a, sims, records, agent, user, retained);
    WholeCosts(sims, records, agent, user);
    SelectedWithinAll(Events(user), retained.Keys);
    MeansInBounds(a);
  }

  lemma MeansInBounds(a: Accounting)
    requires StatusesFollow(a) && a.validAgent >= 0.0 && NonNegative(a.validUser)
    ensures NonNegative(a.meanTotal) && (a.validRuns > 0 ==> a.validAgent / a.validRuns as real >= 0.0)
  {
  }

  /** Every payload with lineage passes its own validator: each bounded field, the equation of the total
      mean, and the counts of the attempts. */
  lemma PayloadValidates(a: Accounting, sims: seq<Simulation>, records: seq<RunRecord>, agent: Log, user: Log,
                         retained: map<Identity, bool>)
    requires InputsOk(sims, records, agent, user) && NonNegativeCosts(sims)
    requires CommonlyReconciled(a, sims, records, agent, user) && DirectlyReconciled(a, sims, agent, user, retained)
    ensures MeanRule(a) && FieldsInBounds(a)
    ensures a.direct.value.total == a.direct.value.valid + a.direct.value.infra
  {
    DirectFieldsInBounds(a, sims, records, agent, user, retained);
    DirectCountsAddUp(a, sims, agent, user, retained);
    MeanFollows(a);
  }

  /** So does every payload without lineage, under the rule of its schema. */
  lemma RawPayloadValidates(a: Accounting, sims: seq<Simulation>, records: seq<RunRecord>, agent: Log, user: Log)
    requires InputsOk(sims, records, agent, user) && NonNegativeCosts(sims)
    requires CommonlyReconciled(a, sims, records, agent, user) && RawlyReconciled(a, sims, records, agent, user)
    ensures MeanRule(a) && FieldsInBounds(a)
  {
    WholeCosts(sims, records, agent, user);
    RecordCostsInBounds(records, true);
    RecordCostsInBounds(records, false);
    RawUserInBounds(a, sims);
    MeansInBounds(a);
  }

  lemma RawUserInBounds(a: Accounting, sims: seq<Simulation>)
    requires NonNegativeCosts(sims) && Totals(a.retainedUser, AllUserCosts(sims))
    requires Totals(a.validUser, UserCosts(sims, false)) && Totals(a.infraUser, UserCosts(sims, true))
    ensures NonNegative(a.validUser) && NonNegative(a.infraUser) && NonNegative(a.retainedUser)
  {
    UserCostsInBounds(sims, true);
    UserCostsInBounds(sims, false);
    SumIsNonNegative(AllUserCosts(sims));
  }

  lemma DirectCountsAddUp(a: Accounting, sims: seq<Simulation>, agent: Log, user: Log, retained: map<Identity, bool>)
    requires DirectlyReconciled(a, sims, agent, user, retained)
    ensures a.direct.value.total == a.direct.value.valid + a.direct.value.infra
  {
    SplitByValue(retained);
  }

  lemma MeanFollows(a: Accounting)
    requires StatusesFollow(a) && a.schema14 && a.direct.Some?
    requires a.validAgent + OrZero(a.validUser) >= 0.0
    ensures MeanRule(a) && NonNegative(a.meanTotal)
  {
  }

  /** An exact whole-attempt status is never weaker than the status of the valid runs. */
  lemma ExactCoversValid(a: Accounting, sims: seq<Simulation>, agent: Log, user: Log,
                         retained: map<Identity, bool>)
    requires DirectlyReconciled(a, sims, agent, user, retained) && a.status.Exact?
    ensures a.validStatus.Exact?
    ensures a.observedAgent == Some(KnownIn(Events(agent), retained.Keys))
    ensures a.observedUser == Some(KnownIn(Events(user), retained.Keys))
  {
  }

  lemma {:induction false} ValidRunsAreRecords(records: seq<RunRecord>)
    ensures |RecordCosts(records, true)| == CountValid(records)
    ensures |RecordCosts(records, false)| == |records| - CountValid(records)
  {
    if records == [] {
    } else {
      ValidRunsAreRecords(records[..|records| - 1]);
    }
  }

  /** With records that keep the validity of their simulations, the total mean is taken over exactly
      the valid task attempts. */
  lemma MeanOverValidAttempts(a: Accounting, sims: seq<Simulation>, records: seq<RunRecord>, agent: Log, user: Log,
                              order: seq<Identity>)
    requires CommonlyReconciled(a, sims, records, agent, user) && a.schema14
    requires a.direct.Some? && a.direct.value.valid == |WithValue(a.direct.value.identities, false)|
    requires Distinct(order) && Mirrors(a.direct.value.identities, order, sims)
    requires CountValid(records) == CountScored(sims)
    ensures a.validRuns == a.direct.value.valid
    ensures a.validStatus.Exact? && a.direct.value.valid > 0 ==>
              a.meanTotal == Some((a.validAgent + OrZero(a.validUser)) / a.direct.value.valid as real)
  {
    ScoredAreValid(sims, records, order, a.direct.value.identities);
  }

  lemma ScoredAreValid(sims: seq<Simulation>, records: seq<RunRecord>, order: seq<Identity>,
                       retained: map<Identity, bool>)
    requires Distinct(order) && Mirrors(retained, order, sims) && CountValid(records) == CountScored(sims)
    ensures |RecordCosts(records, true)| == |WithValue(retained, false)|
  {
    RetainedCounts(sims, order, retained);
    ValidRunsAreRecords(records);
  }

  /** An exact valid cost is the frozen price of all tokens of all calls of the valid attempts. */
  lemma ValidCostIsFrozenPrice(a: Accounting, sims: seq<Simulation>, agent: Log, user: Log,
                               retained: map<Identity, bool>, p: Prices)
    requires DirectlyReconciled(a, sims, agent, user, retained) && a.validStatus.Exact?
    requires agent.Some? ==> PricesMatch(agent.value, retained.Keys, p)
    requires user.Some? ==> PricesMatch(user.value, retained.Keys, p)
    ensures agent.Some? && user.Some?
    ensures PricesTokens(a.validAgent, agent.value, Valid(retained), p)
    ensures a.validUser.Some? && PricesTokens(a.validUser.value, user.value, Valid(retained), p)
  {
    ExactOver(agent.value, retained, p);
    ExactOver(user.value, retained, p);
  }

  ghost predicate PricesTokens(cost: real, log: seq<CallEvent>, keys: set<Identity>, p: Prices) {
    var t := TokensIn(log, keys);
    1000000.0 * cost == t.0 as real * p.input + t.1 as real * p.cacheRead + t.2 as real * p.output
  }

  lemma ExactOver(log: seq<CallEvent>, retained: map<Identity, bool>, p: Prices)
    requires AllExact(log, retained, Valid(retained)) && PricesMatch(log, retained.Keys, p)
    ensures PricesTokens(KnownIn(log, Valid(retained)), log, Valid(retained), p)
  {
    ExactEach(log, retained);
    ExactCostIsFrozenPrice(log, Valid(retained), p);
  }

  lemma ExactEach(log: seq<CallEvent>, retained: map<Identity, bool>)
    requires AllExact(log, retained, Valid(retained))
    ensures forall e | e in log && TerminalIn(e, Valid(retained)) :: e.costStatus.Exact?
  {
    forall e | e in log && TerminalIn(e, Valid(retained)) ensures e.costStatus.Exact? {
      assert ExactAttempt(log, e.identity.value, false) && TerminalIn(e, {e.identity.value});
    }
  }

  // ---- What EXACT does not say ----

  /** The note written beside an EXACT status: all observed calls of a channel have exact terminals. */
  ghost predicate NoteHolds(log: seq<CallEvent>) {
    (forall e | e in log && !e.state.Started? :: e.costStatus.Exact?) && UnresolvedIds(log) == {}
  }

  /** The calls of attempts that no retained simulation ended in. */
  ghost function Superseded(log: seq<CallEvent>, keys: set<Identity>): (r: set<CallEvent>) {
    set e | e in log && e.identity.Some? && e.identity.value !in keys
  }

  /** EXACT covers the retained attempts only.  The wider note is true exactly when the superseded
      attempts, too, left no inexact and no unresolved call. */
  lemma NoteNeedsSuperseded(log: seq<CallEvent>, retained: map<Identity, bool>)
    requires LifecycleOk(log) && AllUsage12(log) && forall e | e in log :: ValidEvent(e)
    requires AllExact(log, retained, retained.Keys)
    ensures NoteHolds(log) <==>
              forall e | e in Superseded(log, retained.Keys) ::
                if e.state.Started? then e.callId in TerminalIds(log) else e.costStatus.Exact?
  {
    forall e | e in log && e.identity.Some? && e.identity.value in retained
      ensures !e.state.Started? ==> e.costStatus.Exact?
      ensures e.state.Started? ==> e.callId in TerminalIds(log)
    {
      var item := e.identity.value;
      assert ExactAttempt(log, item, retained[item]);
      assert e.callId !in UnresolvedOf(log, Some(item));
    }
    assert forall e | e in log && e.state.Started? && e.callId !in TerminalIds(log) :: e.callId in UnresolvedIds(log);
  }

  // A task that was retried: the agent call of the first attempt was never resolved, all calls of the
  // second attempt, which the retained simulation ended in, are exact at the frozen prices.

  const FIRST := Identity("t", 0, 7, 1)
  const SECOND := Identity("t", 0, 7, 2)
  const PRICES := Prices(1.0, 0.5, 2.0)

  function Call(id: string, item: Identity, ended: bool): (e: CallEvent)
    requires item.trial >= 0 && item.attemptIndex >= 1
    ensures ValidEvent(e)
  {
    if ended then
      CallEvent(Usage12, id, Completed, "h", "m", Some(item), Some(10), Some(4), Some(5), Some(0),
                Some(FrozenCost(10, 4, 5, PRICES)), Exact)
    else CallEvent(Usage12, id, Started, "h", "m", Some(item), None, None, None, None, None, Pending)
  }

  function Retried(): (r: seq<TaskEvent>) {
    [TaskEvent(true, TaskFailed, "t", 0, 7, 1, None, false),
     TaskEvent(true, TaskCompleted, "t", 0, 7, 2, Some("s"), false)]
  }

  function RetriedSimulation(): (r: Simulation) {
    Simulation("s", "t", 0, 7, false, true, 1, Some(FrozenCost(10, 4, 5, PRICES)), Some(FrozenCost(10, 4, 5, PRICES)), 1)
  }

  function RetriedRecord(): (r: RunRecord)
    ensures ValidRecord(r)
  {
    RunRecord("r", "t", Selection, "snapshot", None, 1, true, Some(true), 0, 1, Some(FrozenCost(10, 4, 5, PRICES)))
  }

  lemma RetriedIsBound()
    ensures Accepted(Retried(), [RetriedSimulation()], [RetriedRecord()])
    ensures Binding(Retried(), [RetriedSimulation()], [SECOND])
    ensures Mirrors(map[SECOND := false], [SECOND], [RetriedSimulation()])
  {
    var events, sims, records := Retried(), [RetriedSimulation()], [RetriedRecord()];
    assert events[1] in events && Claims(events[1], "s");
    assert Binding(events, sims, [SECOND]);
    assert sims[..0] == [] && records[..0] == [];
    assert SimPositions(sims) == SimPositions([]) + multiset{("t", 1)};
    assert RecordPositions(records) == RecordPositions([]) + multiset{("t", 1)};
  }

  /** A log of the second attempt's only call, behind whatever one unresolved call of the first. */
  lemma SecondIsExact(log: seq<CallEvent>)
    requires log == [Call("b", SECOND, false), Call("b", SECOND, true)]
             || log == [Call("a", FIRST, false), Call("b", SECOND, false), Call("b", SECOND, true)]
    ensures LifecycleOk(log) && AllUsage12(log) && PricesMatch(log, {SECOND}, PRICES)
    ensures AllExact(log, map[SECOND := false], {SECOND})
  {
    var n := |log| - 1;
    assert StartedBefore(log, n) by {
      assert log[n - 1].callId == log[n].callId && SameLineage(log[n - 1], log[n]);
    }
    assert "a"[0] != "b"[0];
    assert log[n - 1] in log && log[n] in log;
    assert "b" in TerminalIds(log);
    assert UnresolvedOf(log, Some(SECOND)) == {};
    assert ExactAttempt(log, SECOND, false);
  }

  /** The evidence of the retried task is reconciled, at positive prices, to an accounting with status
      EXACT; the note beside that status is false. */
  lemma NoteCanBeFalse()
    returns (sims: seq<Simulation>, records: seq<RunRecord>, agent: Log, user: Log, input: LineageInput,
             retained: map<Identity, bool>)
    ensures InputsOk(sims, records, agent, user) && NonNegativeCosts(sims)
    ensures LifecycleOk(Events(agent)) && LifecycleOk(Events(user)) && agent.Some?
    ensures Linked(sims, records, agent, user, input, retained) && retained != map[]
    ensures input.prices.value.input > 0.0 && input.prices.value.cacheRead > 0.0 && input.prices.value.output > 0.0
    ensures forall a, other | Linked(sims, records, agent, user, input, other)
              && DirectlyReconciled(a, sims, agent, user, other) :: a.status.Exact?
    ensures !NoteHolds(agent.value)
  {
    var log := [Call("a", FIRST, false), Call("b", SECOND, false), Call("b", SECOND, true)];
    sims, records, retained := [RetriedSimulation()], [RetriedRecord()], map[SECOND := false];
    agent, user := Some(log), Some(log[1..]);
    input := LineageInput(Some(Retried()), Some(PRICES));
    assert log[1..] == [Call("b", SECOND, false), Call("b", SECOND, true)];
    RetriedIsBound();
    LinkedIsBound(sims, records, agent, user, input, [SECOND], retained);
    RetriedIsLinked(log, log[1..], retained, input);
    FirstIsUnresolved(log);
  }

  lemma RetriedIsLinked(agent: seq<CallEvent>, user: seq<CallEvent>, retained: map<Identity, bool>, input: LineageInput)
    requires agent == [Call("a", FIRST, false), Call("b", SECOND, false), Call("b", SECOND, true)]
    requires user == [Call("b", SECOND, false), Call("b", SECOND, true)]
    requires retained == map[SECOND := false] && input == LineageInput(Some(Retried()), Some(PRICES))
    ensures Linked([RetriedSimulation()], [RetriedRecord()], Some(agent), Some(user), input, retained)
    ensures ChannelExact(Some(agent), retained, retained.Keys) && ChannelExact(Some(user), retained, retained.Keys)
  {
    assert retained.Keys == {SECOND};
    RetriedIsBound();
    SecondIsExact(agent);
    SecondIsExact(user);
  }

  lemma FirstIsUnresolved(log: seq<CallEvent>)
    requires log == [Call("a", FIRST, false), Call("b", SECOND, false), Call("b", SECOND, true)]
    ensures !NoteHolds(log)
  {
    assert log[0] in log && "a"[0] != "b"[0];
    assert "a" in UnresolvedIds(log);
  }
}
