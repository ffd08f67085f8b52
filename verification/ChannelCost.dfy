/** Direct cost of one channel (agent or user): the calls of the retained task attempts, priced at the
    frozen token prices (agentloopgate/experiment/ledger.py, _direct_channel_cost). */
module ChannelCost {
  import opened Common
  import opened CallLedger

  datatype Prices = Prices(input: real, cacheRead: real, output: real)

  /** Prices are per million tokens. */
  function FrozenCost(input: nat, cacheRead: nat, output: nat, p: Prices): (r: real) {
    (input as real * p.input + cacheRead as real * p.cacheRead + output as real * p.output) / 1000000.0
  }

  datatype Channel = Channel(
    validKnown: real, validExact: bool,
    infraKnown: real, infraExact: bool,
    retainedKnown: real, retainedExact: bool,
    exactByIdentity: map<Identity, real>)

  datatype ChannelFault = Lifecycle(fault: LedgerFault) | NeedsUsage12 | IncompleteTokens | PriceMismatch

  // ---- What the channel cost means, in terms of the log alone ----

  /** The cost a terminal event contributes: exact and partial costs are known, the rest is not. */
  function Known(e: CallEvent): (r: real) {
    if (e.costStatus.Exact? || e.costStatus.Partial?) && e.cost.Some? then e.cost.value else 0.0
  }

  predicate TerminalIn(e: CallEvent, keys: set<Identity>) {
    !e.state.Started? && e.identity.Some? && e.identity.value in keys
  }

  /** The known cost of exactly the terminal calls whose task attempt is in `keys`. */
  ghost function KnownIn(log: seq<CallEvent>, keys: set<Identity>): (r: real) {
    if log == [] then 0.0
    else
      var e := log[|log| - 1];
      KnownIn(log[..|log| - 1], keys) + (if TerminalIn(e, keys) then Known(e) else 0.0)
  }

  ghost predicate AllUsage12(log: seq<CallEvent>) {
    forall e | e in log :: e.schema.Usage12?
  }

  predicate CompleteTokens(e: CallEvent) {
    e.input.Some? && e.cacheRead.Some? && e.output.Some?
  }

  predicate PricedRight(e: CallEvent, p: Prices)
    requires CompleteTokens(e)
  {
    e.cost == Some(FrozenCost(e.input.value, e.cacheRead.value, e.output.value, p))
  }

  /** Every retained exact call carries full token counters and the frozen price. */
  ghost predicate PricesMatch(log: seq<CallEvent>, keys: set<Identity>, p: Prices) {
    forall e | e in log && TerminalIn(e, keys) && e.costStatus.Exact? :: CompleteTokens(e) && PricedRight(e, p)
  }

  /** The cost of a task attempt is exact when the attempt made a call (or ended in infrastructure
      failure), none of its calls is unresolved, and each of its calls ended with an exact cost and
      an observed provider-retry count. */
  ghost predicate ExactAttempt(log: seq<CallEvent>, item: Identity, infra: bool) {
    && (infra || exists e :: e in log && e.state.Started? && e.identity == Some(item))
    && UnresolvedOf(log, Some(item)) == {}
    && (forall e | e in log && TerminalIn(e, {item}) :: e.costStatus.Exact? && e.retries.Some?)
  }

  ghost function Valid(retained: map<Identity, bool>): (r: set<Identity>) {
    set item | item in retained && !retained[item]
  }

  ghost function Infra(retained: map<Identity, bool>): (r: set<Identity>) {
    set item | item in retained && retained[item]
  }

  ghost predicate AllExact(log: seq<CallEvent>, retained: map<Identity, bool>, keys: set<Identity>)
    requires keys <= retained.Keys
  {
    forall item | item in keys :: ExactAttempt(log, item, retained[item])
  }

  ghost function ChannelOf(log: seq<CallEvent>, retained: map<Identity, bool>): (r: Channel) {
    Channel(
      KnownIn(log, Valid(retained)), AllExact(log, retained, Valid(retained)),
      KnownIn(log, Infra(retained)), AllExact(log, retained, Infra(retained)),
      KnownIn(log, retained.Keys), AllExact(log, retained, retained.Keys),
      map item | item in retained && ExactAttempt(log, item, retained[item]) :: KnownIn(log, {item}))
  }

  const UNAVAILABLE := Channel(0.0, false, 0.0, false, 0.0, false, map[])

  // ---- Sums over calls ----

  lemma {:induction false} KnownInUnion(log: seq<CallEvent>, a: set<Identity>, b: set<Identity>)
    requires a !! b
    ensures KnownIn(log, a + b) == KnownIn(log, a) + KnownIn(log, b)
  {
    if log == [] {
    } else {
      KnownInUnion(log[..|log| - 1], a, b);
    }
  }

  lemma {:induction false} KnownInMonotone(log: seq<CallEvent>, a: set<Identity>, b: set<Identity>)
    requires a <= b && forall e | e in log :: ValidEvent(e)
    ensures 0.0 <= KnownIn(log, a) <= KnownIn(log, b)
  {
    if log == [] {
    } else {
      var k := |log| - 1;
      assert forall e | e in log[..k] :: e in log;
      KnownInMonotone(log[..k], a, b);
      assert log[k] in log;
    }
  }

  /** A map that holds the known cost of each single attempt sums to the known cost of all of them. */
  lemma {:induction false} SumOfSingles(log: seq<CallEvent>, m: map<Identity, real>, keys: set<Identity>)
    requires keys <= m.Keys && forall item | item in m :: m[item] == KnownIn(log, {item})
    ensures SumOver(m, keys) == KnownIn(log, keys)
    decreases |keys|
  {
    if keys == {} {
      NoKeys(log);
    } else {
      var k :| k in keys;
      SumOverSplit(m, keys, k);
      SumOfSingles(log, m, keys - {k});
      KnownInUnion(log, {k}, keys - {k});
      assert {k} + (keys - {k}) == keys;
    }
  }

  lemma {:induction false} NoKeys(log: seq<CallEvent>)
    ensures KnownIn(log, {}) == 0.0
  {
    if log == [] {
    } else {
      NoKeys(log[..|log| - 1]);
    }
  }

  /** Dropping calls outside `keys` changes no sum over a part of `keys`. */
  ghost function Selected(log: seq<CallEvent>, keys: set<Identity>): (r: seq<CallEvent>) {
    if log == [] then []
    else
      var e := log[|log| - 1];
      Selected(log[..|log| - 1], keys) + (if TerminalIn(e, keys) then [e] else [])
  }

  lemma {:induction false} SelectedSame(log: seq<CallEvent>, keys: set<Identity>, part: set<Identity>)
    requires part <= keys
    ensures KnownIn(Selected(log, keys), part) == KnownIn(log, part)
  {
    if log == [] {
    } else {
      var k := |log| - 1;
      SelectedSame(log[..k], keys, part);
      var s := Selected(log[..k], keys);
      if TerminalIn(log[k], keys) {
        assert (s + [log[k]])[..|s|] == s;
      } else {
        assert Selected(log, keys) == s && !TerminalIn(log[k], part);
      }
    }
  }

  lemma {:induction false} SelectedMembers(log: seq<CallEvent>, keys: set<Identity>)
    ensures forall e :: e in Selected(log, keys) <==> e in log && TerminalIn(e, keys)
  {
    if log == [] {
    } else {
      var k := |log| - 1;
      SelectedMembers(log[..k], keys);
      assert log == log[..k] + [log[k]];
    }
  }

  lemma {:induction false} CountsSeeEvents(log: seq<CallEvent>, item: Option<Identity>)
    ensures CountStarted(log, item) > 0 <==> exists e :: e in log && e.state.Started? && e.identity == item
  {
    if log == [] {
    } else {
      var k := |log| - 1;
      CountsSeeEvents(log[..k], item);
      assert log == log[..k] + [log[k]];
      if CountStarted(log, item) > 0 && CountStarted(log[..k], item) == 0 {
        assert log[k] in log;
      }
    }
  }

  // ---- The accounting itself ----

  method SumKeys(m: map<Identity, real>, keys: set<Identity>) returns (total: real)
    requires keys <= m.Keys
    ensures total == SumOver(m, keys)
  {
    total := 0.0;
    var rest := keys;
    while rest != {}
      invariant rest <= keys
      invariant total + SumOver(m, rest) == SumOver(m, keys)
      decreases |rest|
    {
      var k :| k in rest;
      SumOverSplit(m, rest, k);
      total := total + m[k];
      rest := rest - {k};
    }
  }

  function Get(counter: map<Identity, nat>, item: Identity): (r: nat) {
    if item in counter then counter[item] else 0
  }

  /** Splits the events of the retained attempts into per-attempt counts and the list of terminals. */
  method SelectEvents(log: seq<CallEvent>, keys: set<Identity>)
    returns (started: map<Identity, nat>, terminal: map<Identity, nat>, terminals: seq<CallEvent>)
    requires forall e | e in log :: e.identity.Some?
    ensures forall item | item in keys :: Get(started, item) == CountStarted(log, Some(item))
    ensures forall item | item in keys :: Get(terminal, item) == CountTerminal(log, Some(item))
    ensures terminals == Selected(log, keys)
  {
    started, terminal, terminals := map[], map[], [];
    for k := 0 to |log|
      invariant forall item | item in keys :: Get(started, item) == CountStarted(log[..k], Some(item))
      invariant forall item | item in keys :: Get(terminal, item) == CountTerminal(log[..k], Some(item))
      invariant terminals == Selected(log[..k], keys)
    {
      assert log[..k + 1][..k] == log[..k];
      assert log[k] in log;
      var e, item := log[k], log[k].identity.value;
      if item in keys {
        if e.state.Started? {
          started := started[item := Get(started, item) + 1];
        } else {
          terminal := terminal[item := Get(terminal, item) + 1];
          terminals := terminals + [e];
        }
      }
    }
    assert log[..|log|] == log;
  }

  /** Checks the frozen price of every exact terminal and accumulates the known cost per attempt. */
  method AccumulateKnown(terminals: seq<CallEvent>, keys: set<Identity>, p: Prices)
    returns (r: Result<map<Identity, real>, ChannelFault>)
    requires forall e | e in terminals :: TerminalIn(e, keys)
    ensures r.Success? <==> PricesMatch(terminals, keys, p)
    ensures r.Success? ==> r.value.Keys == keys
    ensures r.Success? ==> forall item | item in keys :: r.value[item] == KnownIn(terminals, {item})
    ensures r.Failure? ==> exists e :: e in terminals && e.costStatus.Exact? &&
                                       if CompleteTokens(e) then !PricedRight(e, p) && r.error == PriceMismatch
                                       else r.error == IncompleteTokens
  {
    var known: map<Identity, real> := map item | item in keys :: 0.0;
    for k := 0 to |terminals|
      invariant known.Keys == keys
      invariant forall item | item in keys :: known[item] == KnownIn(terminals[..k], {item})
      invariant forall e | e in terminals[..k] && e.costStatus.Exact? :: CompleteTokens(e) && PricedRight(e, p)
    {
      assert terminals[..k + 1][..k] == terminals[..k];
      assert terminals[..k + 1] == terminals[..k] + [terminals[k]];
      var e := terminals[k];
      assert e in terminals;
      if e.costStatus.Exact? {
        if !CompleteTokens(e) {
          return Failure(IncompleteTokens);
        }
        if !PricedRight(e, p) {
          return Failure(PriceMismatch);
        }
      }
      if (e.costStatus.Exact? || e.costStatus.Partial?) && e.cost.Some? {
        var item := e.identity.value;
        known := known[item := known[item] + e.cost.value];
      }
    }
    assert terminals[..|terminals|] == terminals;
    return Success(known);
  }

  method ExactItems(terminals: seq<CallEvent>, started: map<Identity, nat>, terminal: map<Identity, nat>,
                    known: map<Identity, real>, retained: map<Identity, bool>)
    returns (exact: map<Identity, real>)
    requires known.Keys == retained.Keys
    ensures exact == map item | item in retained && ExactByCounts(terminals, started, terminal, item, retained[item])
                       :: known[item]
  {
    exact := map[];
    var rest := retained.Keys;
    while rest != {}
      invariant rest <= retained.Keys
      invariant exact == map item | item in retained && item !in rest
                                     && ExactByCounts(terminals, started, terminal, item, retained[item])
                           :: known[item]
      decreases |rest|
    {
      var item :| item in rest;
      if ExactByCounts(terminals, started, terminal, item, retained[item]) {
        exact := exact[item := known[item]];
      }
      rest := rest - {item};
    }
  }

  predicate ExactByCounts(terminals: seq<CallEvent>, started: map<Identity, nat>, terminal: map<Identity, nat>,
                          item: Identity, infra: bool)
  {
    && (Get(started, item) > 0 || infra)
    && Get(started, item) == Get(terminal, item)
    && (forall e | e in terminals :: e.identity == Some(item) ==> e.costStatus.Exact? && e.retries.Some?)
  }

  /** The counters decide exactness: equal counts mean that no call of the attempt is unresolved. */
  lemma CountsDecide(log: seq<CallEvent>, keys: set<Identity>, started: map<Identity, nat>,
                     terminal: map<Identity, nat>, item: Identity, infra: bool)
    requires LifecycleOk(log) && item in keys
    requires Get(started, item) == CountStarted(log, Some(item))
    requires Get(terminal, item) == CountTerminal(log, Some(item))
    ensures ExactByCounts(Selected(log, keys), started, terminal, item, infra) <==> ExactAttempt(log, item, infra)
  {
    StartedBalance(log, Some(item));
    CountsSeeEvents(log, Some(item));
    SelectedMembers(log, keys);
    assert forall e | e in log && TerminalIn(e, {item}) :: e in Selected(log, keys);
  }

  lemma SumsOfParts(log: seq<CallEvent>, known: map<Identity, real>, a: set<Identity>, b: set<Identity>)
    requires a !! b && a + b == known.Keys && forall item | item in known :: known[item] == KnownIn(log, {item})
    ensures SumOver(known, a) == KnownIn(log, a) && SumOver(known, b) == KnownIn(log, b)
    ensures KnownIn(log, known.Keys) == KnownIn(log, a) + KnownIn(log, b)
  {
    SumOfSingles(log, known, a);
    SumOfSingles(log, known, b);
    KnownInUnion(log, a, b);
  }

  /** Totals per run validity, from the known cost and the exact attempts. */
  method Totals(ghost log: seq<CallEvent>, known: map<Identity, real>, exact: map<Identity, real>,
                retained: map<Identity, bool>)
    returns (c: Channel)
    requires known.Keys == retained.Keys
    requires forall item | item in known :: known[item] == KnownIn(log, {item})
    requires exact == map item | item in retained && ExactAttempt(log, item, retained[item]) :: known[item]
    ensures c == ChannelOf(log, retained)
  {
    var valid := set item | item in retained && !retained[item];
    var infra := retained.Keys - valid;
    assert infra == Infra(retained) && valid + infra == retained.Keys;
    var validKnown := SumKeys(known, valid);
    var infraKnown := SumKeys(known, infra);
    SumsOfParts(log, known, valid, infra);
    AllExactByKeys(log, retained, exact.Keys);
    c := Channel(
      validKnown, valid <= exact.Keys, infraKnown, infra <= exact.Keys,
      validKnown + infraKnown, retained.Keys <= exact.Keys, exact);
  }

  lemma AllExactByKeys(log: seq<CallEvent>, retained: map<Identity, bool>, exact: set<Identity>)
    requires exact == set item | item in retained && ExactAttempt(log, item, retained[item])
    ensures forall keys | keys <= retained.Keys :: AllExact(log, retained, keys) <==> keys <= exact
  {
  }

  method DirectChannelCost(file: Option<seq<CallEvent>>, retained: map<Identity, bool>, p: Prices)
    returns (r: Result<Channel, ChannelFault>)
    requires file.Some? ==> forall e | e in file.value :: ValidEvent(e)
    ensures file.None? ==> r == Success(UNAVAILABLE)
    ensures file.Some? ==> (r.Success? <==> LifecycleOk(file.value) && AllUsage12(file.value)
                                            && PricesMatch(file.value, retained.Keys, p))
    ensures file.Some? && r.Success? ==> r.value == ChannelOf(file.value, retained)
    ensures r.Failure? && r.error.Lifecycle? ==> !LifecycleOk(file.value)
    ensures r.Failure? && r.error.NeedsUsage12? ==> LifecycleOk(file.value) && !AllUsage12(file.value)
  {
    if file.None? {
      return Success(UNAVAILABLE);
    }
    var log := file.value;
    var events := ModelCallEvents(log);
    if events.Failure? {
      return Failure(Lifecycle(events.error));
    }
    if exists e | e in log :: !e.schema.Usage12? {
      return Failure(NeedsUsage12);
    }
    assert AllUsage12(log) && forall e | e in log :: e.identity.Some?;
    var started, terminal, terminals := SelectEvents(log, retained.Keys);
    PricesOfSelected(log, retained.Keys, p);
    var accumulated := AccumulateKnown(terminals, retained.Keys, p);
    if accumulated.Failure? {
      return Failure(accumulated.error);
    }
    var known := accumulated.value;
    var exact := ExactItems(terminals, started, terminal, known, retained);
    ItemsDecided(log, retained, started, terminal, known);
    var c := Totals(log, known, exact, retained);
    return Success(c);
  }

  lemma ItemsDecided(log: seq<CallEvent>, retained: map<Identity, bool>, started: map<Identity, nat>,
                     terminal: map<Identity, nat>, known: map<Identity, real>)
    requires LifecycleOk(log) && known.Keys == retained.Keys
    requires forall item | item in retained :: Get(started, item) == CountStarted(log, Some(item))
    requires forall item | item in retained :: Get(terminal, item) == CountTerminal(log, Some(item))
    requires forall item | item in retained :: known[item] == KnownIn(Selected(log, retained.Keys), {item})
    ensures forall item | item in retained :: known[item] == KnownIn(log, {item})
    ensures (map item | item in retained && ExactByCounts(Selected(log, retained.Keys), started, terminal, item,
                                                          retained[item]) :: known[item])
         == (map item | item in retained && ExactAttempt(log, item, retained[item]) :: known[item])
  {
    forall item | item in retained
      ensures known[item] == KnownIn(log, {item})
      ensures ExactByCounts(Selected(log, retained.Keys), started, terminal, item, retained[item])
         <==> ExactAttempt(log, item, retained[item])
    {
      SelectedSame(log, retained.Keys, {item});
      CountsDecide(log, retained.Keys, started, terminal, item, retained[item]);
    }
  }

  lemma PricesOfSelected(log: seq<CallEvent>, keys: set<Identity>, p: Prices)
    ensures PricesMatch(Selected(log, keys), keys, p) <==> PricesMatch(log, keys, p)
    ensures forall e | e in Selected(log, keys) :: TerminalIn(e, keys)
  {
    SelectedMembers(log, keys);
  }

  // ---- Main results ----

  ghost function TokensIn(log: seq<CallEvent>, keys: set<Identity>): (r: (int, int, int)) {
    if log == [] then (0, 0, 0)
    else
      var e := log[|log| - 1];
      var t := TokensIn(log[..|log| - 1], keys);
      if TerminalIn(e, keys) && CompleteTokens(e)
      then (t.0 + e.input.value, t.1 + e.cacheRead.value, t.2 + e.output.value) else t
  }

  /** The frozen cost, by the prices of a million tokens of each kind. */
  lemma FrozenCostIsArithmetic(input: nat, cacheRead: nat, output: nat, p: Prices, cost: real)
    ensures cost == FrozenCost(input, cacheRead, output, p) <==>
              1000000.0 * cost == input as real * p.input + cacheRead as real * p.cacheRead + output as real * p.output
  {
    var x, y, z := input as real * p.input, cacheRead as real * p.cacheRead, output as real * p.output;
    assert FrozenCost(input, cacheRead, output, p) == (x + y + z) / 1000000.0;
  }

  /** The logs whose prices match are those in which every exact call of the attempts carries all three
      counters and costs what they come to at the three prices. */
  lemma MatchIsArithmetic(log: seq<CallEvent>, keys: set<Identity>, p: Prices)
    ensures PricesMatch(log, keys, p) <==>
              forall e | e in log && !e.state.Started? && e.identity.Some? && e.identity.value in keys
                         && e.costStatus.Exact? ::
                && e.input.Some? && e.cacheRead.Some? && e.output.Some? && e.cost.Some?
                && 1000000.0 * e.cost.value == e.input.value as real * p.input
                                               + e.cacheRead.value as real * p.cacheRead
                                               + e.output.value as real * p.output
  {
    forall e | e in log && CompleteTokens(e) && e.cost.Some?
      ensures PricedRight(e, p) <==>
                1000000.0 * e.cost.value == e.input.value as real * p.input
                                            + e.cacheRead.value as real * p.cacheRead
                                            + e.output.value as real * p.output
    {
      FrozenCostIsArithmetic(e.input.value, e.cacheRead.value, e.output.value, p, e.cost.value);
    }
  }

  lemma FrozenCostAdds(a: (int, int, int), e: CallEvent, p: Prices)
    requires a.0 >= 0 && a.1 >= 0 && a.2 >= 0 && CompleteTokens(e)
    ensures FrozenCost(a.0 + e.input.value, a.1 + e.cacheRead.value, a.2 + e.output.value, p)
         == FrozenCost(a.0, a.1, a.2, p) + FrozenCost(e.input.value, e.cacheRead.value, e.output.value, p)
  {
  }

  lemma {:induction false} ExactCostIsFrozen(log: seq<CallEvent>, keys: set<Identity>, p: Prices)
    requires PricesMatch(log, keys, p)
    requires forall e | e in log && TerminalIn(e, keys) :: e.costStatus.Exact?
    ensures var t := TokensIn(log, keys);
            t.0 >= 0 && t.1 >= 0 && t.2 >= 0 && KnownIn(log, keys) == FrozenCost(t.0, t.1, t.2, p)
  {
    if log == [] {
    } else {
      var k := |log| - 1;
      assert forall e | e in log[..k] :: e in log;
      ExactCostIsFrozen(log[..k], keys, p);
      if TerminalIn(log[k], keys) {
        assert log[k] in log;
        FrozenCostAdds(TokensIn(log[..k], keys), log[k], p);
      }
    }
  }

  /** When all selected calls are exact, their known cost is the price of their total tokens. */
  lemma ExactCostIsFrozenPrice(log: seq<CallEvent>, keys: set<Identity>, p: Prices)
    requires PricesMatch(log, keys, p)
    requires forall e | e in log && TerminalIn(e, keys) :: e.costStatus.Exact?
    ensures var t := TokensIn(log, keys);
            && t.0 >= 0 && t.1 >= 0 && t.2 >= 0
            && 1000000.0 * KnownIn(log, keys)
               == t.0 as real * p.input + t.1 as real * p.cacheRead + t.2 as real * p.output
  {
    var t := TokensIn(log, keys);
    ExactCostIsFrozen(log, keys, p);
    FrozenCostIsArithmetic(t.0, t.1, t.2, p, KnownIn(log, keys));
  }

  /** Every entry of the exact map is the frozen price of all tokens of all calls of that attempt, and
      the attempt is in the map exactly when it made a call or failed, left no call unresolved, and
      ended each call with an exact cost. */
  lemma ExactEntry(log: seq<CallEvent>, retained: map<Identity, bool>, p: Prices, item: Identity)
    requires LifecycleOk(log) && PricesMatch(log, retained.Keys, p) && item in retained
    ensures item in ChannelOf(log, retained).exactByIdentity <==> ExactAttempt(log, item, retained[item])
    ensures item in ChannelOf(log, retained).exactByIdentity ==>
              var t := TokensIn(log, {item});
              && 1000000.0 * ChannelOf(log, retained).exactByIdentity[item]
                 == t.0 as real * p.input + t.1 as real * p.cacheRead + t.2 as real * p.output
              && CountStarted(log, Some(item)) == CountTerminal(log, Some(item))
  {
    EntryIsKnown(log, retained, item);
    if ExactAttempt(log, item, retained[item]) {
      StartedBalance(log, Some(item));
      PriceOfAttempt(log, retained, p, item);
    }
  }

  lemma EntryIsKnown(log: seq<CallEvent>, retained: map<Identity, bool>, item: Identity)
    requires item in retained
    ensures var entries := ChannelOf(log, retained).exactByIdentity;
            && (item in entries <==> ExactAttempt(log, item, retained[item]))
            && (item in entries ==> entries[item] == KnownIn(log, {item}))
  {
  }

  lemma PriceOfAttempt(log: seq<CallEvent>, retained: map<Identity, bool>, p: Prices, item: Identity)
    requires PricesMatch(log, retained.Keys, p) && item in retained && ExactAttempt(log, item, retained[item])
    ensures var t := TokensIn(log, {item});
            1000000.0 * KnownIn(log, {item})
            == t.0 as real * p.input + t.1 as real * p.cacheRead + t.2 as real * p.output
  {
    ExactCostIsFrozenPrice(log, {item}, p);
  }

  /** Valid and infra cost partition the retained cost, which never exceeds the cost of all calls. */
  lemma CostConservation(log: seq<CallEvent>, retained: map<Identity, bool>, wider: set<Identity>)
    requires (forall e | e in log :: ValidEvent(e)) && retained.Keys <= wider
    ensures var c := ChannelOf(log, retained);
            && c.validKnown + c.infraKnown == c.retainedKnown == KnownIn(log, retained.Keys)
            && 0.0 <= c.validKnown <= c.retainedKnown <= KnownIn(log, wider)
            && 0.0 <= c.infraKnown
            && (c.retainedExact <==> c.validExact && c.infraExact)
  {
    assert Valid(retained) + Infra(retained) == retained.Keys;
    KnownInUnion(log, Valid(retained), Infra(retained));
    KnownInMonotone(log, Valid(retained), retained.Keys);
    KnownInMonotone(log, Infra(retained), retained.Keys);
    KnownInMonotone(log, retained.Keys, wider);
  }
}
