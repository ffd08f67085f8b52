/** The proposal rounds at the start of every run: the updater's candidates, old and new, and the choice
    among those that may still be executed (agentloopgate/experiment/orchestrator.py, _propose;
    agentloopgate/updaters/ahe.py, propose). */
module Proposals {
  import opened Common
  import opened DiverseSubset
  import opened Lifecycle

  /** What is on disk of a candidate: an unfinished directory, a sealed rejection, or a registration. */
  datatype Entry = Half | Refused | Kept(families: set<string>)

  /** What the updater does when it is asked for a new candidate. */
  datatype Answer = Fails | Emits(check: Check)

  datatype Setting = Setting(parent: string, bundles: seq<string>, budget: nat, identity: (string, nat) -> string,
                             count: nat, minFamilies: nat, deduplicate: bool)

  datatype Store = Store(events: map<string, seq<Event>>, patches: map<string, Patch>, shelf: map<string, Entry>)

  datatype Trouble =
    | NoBundle | TooMany | UpdaterFailed | Incomplete | Unregistrable | NoSubset | Exhausted
    | PlanConflict | NotMaterialized | StepFailed(fault: Fault)

  datatype End = Done | Cut | Raised(trouble: Trouble)

  /** The store after some writes, how many more may follow, and how it ended. */
  datatype Reply = Reply(store: Store, left: nat, end: End)

  datatype Proposed = Proposed(reply: Reply, selected: seq<string>)

  // ---- The operations ----

  /** How often a bundle was asked in the first `i` rounds, which take the bundles in turn. */
  function Asked(bundles: seq<string>, i: nat, bundle: string): (r: nat)
    requires bundles != []
  {
    if i == 0 then 0
    else Asked(bundles, i - 1, bundle) + if bundles[(i - 1) % |bundles|] == bundle then 1 else 0
  }

  function Tally(counts: map<string, nat>, bundle: string): (r: nat) {
    if bundle in counts then counts[bundle] else 0
  }

  function BundleOf(cfg: Setting, i: nat): (r: string)
    requires cfg.bundles != []
  {
    cfg.bundles[i % |cfg.bundles|]
  }

  /** The candidates of round `i`: one more of its bundle each time the bundle comes up. */
  function RoundOf(cfg: Setting, i: nat): (r: seq<string>)
    requires cfg.bundles != []
  {
    var bundle := BundleOf(cfg, i);
    seq(Asked(cfg.bundles, i + 1, bundle), k requires k >= 0 => cfg.identity(bundle, k))
  }

  /** One candidate: found on disk, or asked for and then written in two steps. */
  function AskOf(s: Store, cfg: Setting, bundle: string, id: string, answer: Answer, n: nat): (r: Reply) {
    if id in s.shelf then Reply(s, n, if s.shelf[id] == Half then Raised(Incomplete) else Done)
    else
      match answer
      case Fails => Reply(s, n, Raised(UpdaterFailed))
      case Emits(check) =>
        var patch := Patch(cfg.parent, bundle, check.fingerprint);
        var verdict := RegisterOf(s.events, s.patches, cfg.deduplicate, id, patch, check);
        if verdict.Failure? && verdict.error != RejectedByCheck then Reply(s, n, Raised(Unregistrable))
        else if n == 0 then Reply(s, 0, Cut)
        else if n == 1 then Reply(s.(shelf := s.shelf[id := Half]), 0, Cut)
        else if verdict.Failure? then Reply(s.(shelf := s.shelf[id := Refused]), n - 2, Done)
        else
          Reply(Store(s.events[id := Appended([], verdict.value)], s.patches[id := patch],
                      s.shelf[id := Kept(check.families)]), n - 2, Done)
  }

  function AskAllOf(s: Store, cfg: Setting, bundle: string, ids: seq<string>, updater: string -> Answer, n: nat)
    : (r: Reply)
    decreases |ids|
  {
    if ids == [] then Reply(s, n, Done)
    else
      var first := AskOf(s, cfg, bundle, ids[0], updater(ids[0]), n);
      if first.end != Done then first else AskAllOf(first.store, cfg, bundle, ids[1..], updater, first.left)
  }

  /** The candidates on file among `ids`, each behind those seen before it. */
  function Gather(shelf: map<string, Entry>, seen: seq<string>, ids: seq<string>): (r: seq<string>)
    decreases |ids|
  {
    if ids == [] then seen
    else if ids[0] in shelf && shelf[ids[0]].Kept? && ids[0] !in seen then Gather(shelf, seen + [ids[0]], ids[1..])
    else Gather(shelf, seen, ids[1..])
  }

  predicate Barred(status: Option<Status>) {
    status == Some(Held) || status == Some(Rejected) || status == Some(RolledBack)
  }

  /** The candidates that may still be executed. */
  function Executable(s: Store, seen: seq<string>): (r: seq<Proposal>) {
    if seen == [] then []
    else
      var rest := Executable(s, seen[1..]);
      if Barred(CurrentOf(s.events, seen[0])) || seen[0] !in s.shelf || !s.shelf[seen[0]].Kept? then rest
      else [Proposal(seen[0], s.shelf[seen[0]].families)] + rest
  }

  function Ids(chosen: seq<Proposal>): (r: seq<string>)
    ensures |r| == |chosen| && forall i | 0 <= i < |r| :: r[i] == chosen[i].id
  {
    seq(|chosen|, i requires 0 <= i < |chosen| => chosen[i].id)
  }

  /** What is chosen once a round is over: candidates, none at all, or another round first. */
  datatype Choice = Again | Nobody | Of(selected: seq<string>)

  function ChoiceOf(s: Store, cfg: Setting, seen: seq<string>): (r: Choice) {
    var executable := Executable(s, seen);
    if !Guard(executable, cfg.count, cfg.minFamilies) then Again
    else
      var chosen := Chosen(executable, cfg.count, cfg.minFamilies);
      if chosen.None? then Nobody else Of(Ids(chosen.value))
  }

  /** Asking for all candidates of round `i`; the updater takes at most six at a time. */
  function AskRound(s: Store, cfg: Setting, updater: string -> Answer, i: nat, n: nat): (r: Reply)
    requires cfg.bundles != []
  {
    if |RoundOf(cfg, i)| > 6 then Reply(s, n, Raised(TooMany))
    else AskAllOf(s, cfg, BundleOf(cfg, i), RoundOf(cfg, i), updater, n)
  }

  /** The rounds from `i` on, with the candidates seen so far. */
  function ProposeOf(s: Store, cfg: Setting, updater: string -> Answer, i: nat, seen: seq<string>, n: nat)
    : (r: Proposed)
    requires cfg.bundles != []
    decreases cfg.budget - i
  {
    if i >= cfg.budget then Proposed(Reply(s, n, Raised(Exhausted)), [])
    else
      var round := AskRound(s, cfg, updater, i, n);
      if round.end != Done then Proposed(round, [])
      else
        var more := Gather(round.store.shelf, seen, RoundOf(cfg, i));
        match ChoiceOf(round.store, cfg, more)
        case Again => ProposeOf(round.store, cfg, updater, i + 1, more, round.left)
        case Nobody => Proposed(Reply(round.store, round.left, Raised(NoSubset)), [])
        case Of(selected) => Proposed(round, selected)
  }

  /** The candidate files, worked on in place. */
  class Updater {
    const cfg: Setting
    const registry: CandidateRegistry
    var shelf: map<string, Entry>

    constructor (cfg: Setting, registry: CandidateRegistry)
      ensures this.cfg == cfg && this.registry == registry && shelf == map[]
    {
      this.cfg, this.registry := cfg, registry;
      shelf := map[];
    }

    function Now(): (r: Store)
      reads this, registry
    {
      Store(registry.events, registry.patches, shelf)
    }

    ghost predicate Valid()
      reads this, registry
    {
      cfg.bundles != [] && registry.deduplicate == cfg.deduplicate
    }

    method Ask(bundle: string, id: string, answer: Answer, budget: nat) returns (left: nat, end: End)
      requires Valid()
      modifies this, registry
      ensures Reply(Now(), left, end) == AskOf(old(Now()), cfg, bundle, id, answer, budget)
    {
      if id in shelf {
        return budget, if shelf[id] == Half then Raised(Incomplete) else Done;
      }
      if answer.Fails? {
        return budget, Raised(UpdaterFailed);
      }
      var patch := Patch(cfg.parent, bundle, answer.check.fingerprint);
      var verdict := RegisterOf(registry.events, registry.patches, cfg.deduplicate, id, patch, answer.check);
      if verdict.Failure? && verdict.error != RejectedByCheck {
        return budget, Raised(Unregistrable);
      }
      if budget == 0 {
        return 0, Cut;
      }
      ghost var before := shelf;
      shelf := shelf[id := Half];
      if budget == 1 {
        return 0, Cut;
      }
      var fault := registry.Register(id, patch, answer.check);
      shelf := shelf[id := if fault.Some? then Refused else Kept(answer.check.families)];
      assert shelf == before[id := shelf[id]];
      return budget - 2, Done;
    }

    method AskAll(bundle: string, ids: seq<string>, updater: string -> Answer, budget: nat)
      returns (left: nat, end: End)
      requires Valid()
      modifies this, registry
      ensures Reply(Now(), left, end) == AskAllOf(old(Now()), cfg, bundle, ids, updater, budget)
    {
      left := budget;
      for k := 0 to |ids|
        invariant Valid()
        invariant AskAllOf(old(Now()), cfg, bundle, ids, updater, budget)
               == AskAllOf(Now(), cfg, bundle, ids[k..], updater, left)
      {
        assert ids[k..][0] == ids[k] && ids[k..][1..] == ids[k + 1..];
        left, end := Ask(bundle, ids[k], updater(ids[k]), left);
        if end != Done {
          return;
        }
      }
      end := Done;
    }

    /** The candidates of one round that were not seen before. */
    method Collect(seen: seq<string>, ids: seq<string>) returns (more: seq<string>)
      ensures more == Gather(shelf, seen, ids)
    {
      more := seen;
      for k := 0 to |ids|
        invariant Gather(shelf, seen, ids) == Gather(shelf, more, ids[k..])
      {
        assert ids[k..][0] == ids[k] && ids[k..][1..] == ids[k + 1..];
        if ids[k] in shelf && shelf[ids[k]].Kept? && ids[k] !in more {
          more := more + [ids[k]];
        }
      }
    }

    method Choose(seen: seq<string>) returns (choice: Choice)
      ensures choice == ChoiceOf(Now(), cfg, seen)
    {
      var executable := Executable(Now(), seen);
      if !Guard(executable, cfg.count, cfg.minFamilies) {
        return Again;
      }
      var chosen := SelectDiverse(executable, cfg.count, cfg.minFamilies);
      return if chosen.None? then Nobody else Of(Ids(chosen.value));
    }

    /** Asks for the candidates of round `i`, counting how often its bundle came up. */
    method Round(i: nat, counts: map<string, nat>, updater: string -> Answer, budget: nat)
      returns (left: nat, end: End, counted: map<string, nat>, ids: seq<string>)
      requires Valid() && forall b :: Asked(cfg.bundles, i, b) == Tally(counts, b)
      modifies this, registry
      ensures forall b :: Asked(cfg.bundles, i + 1, b) == Tally(counted, b)
      ensures ids == RoundOf(cfg, i) && Reply(Now(), left, end) == AskRound(old(Now()), cfg, updater, i, budget)
    {
      var bundle := cfg.bundles[i % |cfg.bundles|];
      counted := counts[bundle := Tally(counts, bundle) + 1];
      ids := seq(counted[bundle], k requires k >= 0 => cfg.identity(bundle, k));
      if |ids| > 6 {
        left, end := budget, Raised(TooMany);
      } else {
        left, end := AskAll(bundle, ids, updater, budget);
      }
    }

    method Propose(updater: string -> Answer, budget: nat) returns (left: nat, end: End, selected: seq<string>)
      requires Valid()
      modifies this, registry
      ensures Proposed(Reply(Now(), left, end), selected) == ProposeOf(old(Now()), cfg, updater, 0, [], budget)
    {
      var seen: seq<string>, counts: map<string, nat> := [], map[];
      left := budget;
      for i := 0 to cfg.budget
        invariant Valid()
        invariant forall b :: Asked(cfg.bundles, i, b) == Tally(counts, b)
        invariant ProposeOf(old(Now()), cfg, updater, 0, [], budget) == ProposeOf(Now(), cfg, updater, i, seen, left)
      {
        var ids;
        left, end, counts, ids := Round(i, counts, updater, left);
        if end != Done {
          return left, end, [];
        }
        seen := Collect(seen, ids);
        var choice := Choose(seen);
        if choice.Nobody? {
          return left, Raised(NoSubset), [];
        }
        if choice.Of? {
          return left, Done, choice.selected;
        }
      }
      return left, Raised(Exhausted), [];
    }
  }

  // ---- The rounds ----

  lemma TurnOf(m: nat, k: nat, j: nat)
    requires j < m
    ensures (k * m + j) % m == j
  {
    var n := k * m + j;
    var q, x := n / m, n % m;
    assert q * m + x == n;
    if q < k {
      Multiples(q, k, m);
    } else if k < q {
      Multiples(k, q, m);
    }
  }

  lemma {:induction false} Multiples(a: int, b: int, m: nat)
    requires a < b
    ensures a * m + m <= b * m
    decreases b - a
  {
    assert (a + 1) * m == a * m + m;
    if b == a + 1 {
    } else {
      Multiples(a + 1, b, m);
    }
  }

  /** After `k` turns of all bundles and `j` more, a bundle was asked `k` times, and once more if its place
      is among the first `j`. */
  lemma {:induction false} AskedInTurn(bundles: seq<string>, k: nat, j: nat, place: nat, n: nat)
    requires Distinct(bundles) && j <= |bundles| && place < |bundles| && n == k * |bundles| + j
    ensures Asked(bundles, n, bundles[place]) == k + if place < j then 1 else 0
    decreases k, j
  {
    var m := |bundles|;
    if j > 0 {
      AskedInTurn(bundles, k, j - 1, place, n - 1);
      TurnOf(m, k, j - 1);
      assert bundles[j - 1] == bundles[place] <==> place == j - 1;
    } else if k > 0 {
      AskedInTurn(bundles, k - 1, m, place, n);
    }
  }

  /** Every bundle has its turn: the rounds go through the bundles in order, again and again, and the
      k-th time a bundle has its turn the updater is asked for its first k candidates. */
  lemma RoundsTakeTurns(cfg: Setting, k: nat, j: nat)
    requires Distinct(cfg.bundles) && j < |cfg.bundles|
    ensures |RoundOf(cfg, k * |cfg.bundles| + j)| == k + 1
    ensures forall x | 0 <= x <= k :: RoundOf(cfg, k * |cfg.bundles| + j)[x] == cfg.identity(cfg.bundles[j], x)
  {
    var i := k * |cfg.bundles| + j;
    TurnOf(|cfg.bundles|, k, j);
    AskedInTurn(cfg.bundles, k, j + 1, j, i + 1);
  }

  // ---- What a round leaves ----

  /** Registered candidates have a log, and only they have one. */
  ghost predicate WellKept(s: Store) {
    forall id :: (id in s.shelf && s.shelf[id].Kept?) <==> id in s.events
  }

  /** A log that holds its registration only. */
  ghost predicate Newborn(log: seq<Event>) {
    log == Appended([], Checked) || log == Appended([], Held)
  }

  /** Nothing on disk changes, and every new log is one registration. */
  ghost predicate Grew(s: Store, t: Store) {
    && (WellKept(s) ==> WellKept(t))
    && (forall id | id in s.shelf :: id in t.shelf && t.shelf[id] == s.shelf[id])
    && (forall c | c in s.events :: c in t.events && t.events[c] == s.events[c])
    && (forall c | c in t.events && c !in s.events :: Newborn(t.events[c]))
  }

  ghost predicate Complete(s: Store, ids: seq<string>) {
    forall id | id in ids :: id in s.shelf && s.shelf[id] != Half
  }

  lemma AskGrows(s: Store, cfg: Setting, bundle: string, id: string, answer: Answer, n: nat)
    ensures var r := AskOf(s, cfg, bundle, id, answer, n);
            Grew(s, r.store) && (r.end == Done ==> Complete(r.store, [id]))
  {
  }

  lemma GrewTwice(s: Store, t: Store, u: Store)
    requires Grew(s, t) && Grew(t, u)
    ensures Grew(s, u)
  {
    forall c | c in u.events && c !in s.events ensures Newborn(u.events[c]) {
      assert c in t.events ==> Newborn(t.events[c]) && u.events[c] == t.events[c];
    }
  }

  lemma {:induction false} AskAllGrows(s: Store, cfg: Setting, bundle: string, ids: seq<string>,
                                       updater: string -> Answer, n: nat, r: Reply)
    requires r == AskAllOf(s, cfg, bundle, ids, updater, n)
    ensures Grew(s, r.store) && (r.end == Done ==> Complete(r.store, ids))
    decreases |ids|
  {
    if ids == [] {
    } else {
      var first := AskOf(s, cfg, bundle, ids[0], updater(ids[0]), n);
      AskGrows(s, cfg, bundle, ids[0], updater(ids[0]), n);
      if first.end == Done {
        AskAllGrows(first.store, cfg, bundle, ids[1..], updater, first.left, r);
        GrewTwice(s, first.store, r.store);
        assert ids[0] in [ids[0]];
        assert ids == [ids[0]] + ids[1..];
      }
    }
  }

  lemma RoundGrows(s: Store, cfg: Setting, updater: string -> Answer, i: nat, n: nat)
    requires cfg.bundles != []
    ensures var r := AskRound(s, cfg, updater, i, n);
            Grew(s, r.store) && (r.end == Done ==> Complete(r.store, RoundOf(cfg, i)))
  {
    if |RoundOf(cfg, i)| <= 6 {
      AskAllGrows(s, cfg, BundleOf(cfg, i), RoundOf(cfg, i), updater, n, AskRound(s, cfg, updater, i, n));
    }
  }

  /** Whatever the updater does and wherever a run is cut off, the rounds only add candidates. */
  lemma {:induction false} RoundsOnlyAdd(s: Store, cfg: Setting, updater: string -> Answer, i: nat, seen: seq<string>,
                                         n: nat)
    requires cfg.bundles != []
    ensures Grew(s, ProposeOf(s, cfg, updater, i, seen, n).reply.store)
    decreases cfg.budget - i
  {
    if i < cfg.budget {
      var round := AskRound(s, cfg, updater, i, n);
      RoundGrows(s, cfg, updater, i, n);
      var more := Gather(round.store.shelf, seen, RoundOf(cfg, i));
      if round.end == Done {
        RoundsOnlyAdd(round.store, cfg, updater, i + 1, more, round.left);
        GrewTwice(s, round.store, ProposeOf(round.store, cfg, updater, i + 1, more, round.left).reply.store);
      }
    }
  }

  // ---- What the choice is made of ----

  lemma {:induction false} GatherKeeps(shelf: map<string, Entry>, seen: seq<string>, ids: seq<string>)
    requires Distinct(seen)
    ensures Distinct(Gather(shelf, seen, ids))
    ensures forall id | id in Gather(shelf, seen, ids) :: id in seen || (id in shelf && shelf[id].Kept?)
    decreases |ids|
  {
    if ids == [] {
    } else {
      if ids[0] in shelf && shelf[ids[0]].Kept? && ids[0] !in seen {
        GatherKeeps(shelf, seen + [ids[0]], ids[1..]);
      } else {
        GatherKeeps(shelf, seen, ids[1..]);
      }
    }
  }

  lemma {:induction false} ExecutableIds(s: Store, seen: seq<string>)
    requires Distinct(seen)
    ensures var r := Ids(Executable(s, seen));
            Distinct(r) && forall id | id in r ::
              id in seen && !Barred(CurrentOf(s.events, id)) && id in s.shelf && s.shelf[id].Kept?
  {
    if seen == [] {
    } else {
      ExecutableIds(s, seen[1..]);
      var rest := Executable(s, seen[1..]);
      assert forall id | id in Ids(rest) :: id in seen[1..];
      if Executable(s, seen) != rest {
        var first := Proposal(seen[0], s.shelf[seen[0]].families);
        assert Executable(s, seen) == [first] + rest;
        assert Ids([first] + rest) == [seen[0]] + Ids(rest);
        DistinctAhead(seen[0], seen[1..]);
        assert [seen[0]] + seen[1..] == seen;
        DistinctAhead(seen[0], Ids(rest));
      }
    }
  }

  /** The executable candidates are those seen on file that do not stand at HELD, REJECTED or ROLLED_BACK,
      with the families that they were registered with. */
  lemma {:induction false} ExecutableExactly(s: Store, seen: seq<string>, p: Proposal)
    ensures p in Executable(s, seen) <==>
              && p.id in seen && p.id in s.shelf && s.shelf[p.id] == Kept(p.families)
              && CurrentOf(s.events, p.id) != Some(Held) && CurrentOf(s.events, p.id) != Some(Rejected)
              && CurrentOf(s.events, p.id) != Some(RolledBack)
  {
    if seen == [] {
    } else {
      ExecutableExactly(s, seen[1..], p);
      assert seen == [seen[0]] + seen[1..];
    }
  }

  lemma DistinctAhead(first: string, rest: seq<string>)
    ensures Distinct([first] + rest) <==> first !in rest && Distinct(rest)
  {
    var all := [first] + rest;
    assert forall i | 0 <= i < |rest| :: all[i + 1] == rest[i];
    if first in rest {
      var i :| 0 <= i < |rest| && rest[i] == first;
      assert all[0] == all[i + 1];
    }
    if Distinct(all) {
      forall i, j | 0 <= i < j < |rest| ensures rest[i] != rest[j] {
        assert all[i + 1] != all[j + 1];
      }
    }
  }

  lemma IdsAhead(first: Proposal, rest: seq<Proposal>)
    ensures Ids([first] + rest) == [first.id] + Ids(rest)
    ensures Distinct(Ids([first] + rest)) <==> first.id !in Ids(rest) && Distinct(Ids(rest))
  {
    assert Ids([first] + rest) == [first.id] + Ids(rest);
    DistinctAhead(first.id, Ids(rest));
  }

  lemma {:induction false} SubsequenceIds(s: seq<Proposal>, items: seq<Proposal>)
    requires Subsequence(s, items)
    ensures forall id | id in Ids(s) :: id in Ids(items)
    ensures Distinct(Ids(items)) ==> Distinct(Ids(s))
    decreases |items|
  {
    if s == [] {
    } else {
      var rest := items[1..];
      assert items == [items[0]] + rest && s == [s[0]] + s[1..];
      IdsAhead(items[0], rest);
      if s[0] == items[0] && Subsequence(s[1..], rest) {
        SubsequenceIds(s[1..], rest);
        IdsAhead(s[0], s[1..]);
      } else {
        SubsequenceIds(s, rest);
      }
    }
  }

  lemma {:induction false} FirstIsOneOf(all: seq<seq<Proposal>>, minFamilies: nat)
    ensures FirstQualifying(all, minFamilies).Some? ==> FirstQualifying(all, minFamilies).value in all
  {
    if all == [] {
    } else {
      FirstIsOneOf(all[1..], minFamilies);
    }
  }

  /** A chosen candidate is on file, is chosen once, and does not stand at HELD, REJECTED or ROLLED_BACK. */
  ghost predicate Fit(s: Store, selected: seq<string>, count: nat) {
    && |selected| == count && Distinct(selected)
    && forall id | id in selected :: id in s.shelf && s.shelf[id].Kept? && !Barred(CurrentOf(s.events, id))
  }

  lemma ChosenAreFit(s: Store, cfg: Setting, seen: seq<string>)
    requires Distinct(seen)
    ensures var r := ChoiceOf(s, cfg, seen); r.Of? ==> Fit(s, r.selected, cfg.count)
  {
    var executable := Executable(s, seen);
    var r := Chosen(executable, cfg.count, cfg.minFamilies);
    ExecutableIds(s, seen);
    FirstIsOneOf(Combinations(executable, cfg.count), cfg.minFamilies);
    if r.Some? {
      CombinationsAreSubsequences(executable, cfg.count, r.value);
      SubsequenceIds(r.value, executable);
    }
  }

  lemma {:induction false} SelectedAreFit(s: Store, cfg: Setting, updater: string -> Answer, i: nat, seen: seq<string>,
                                          n: nat)
    requires cfg.bundles != [] && Distinct(seen)
    ensures var r := ProposeOf(s, cfg, updater, i, seen, n);
            r.reply.end == Done ==> Fit(r.reply.store, r.selected, cfg.count)
    decreases cfg.budget - i
  {
    if i < cfg.budget {
      var round := AskRound(s, cfg, updater, i, n);
      var more := Gather(round.store.shelf, seen, RoundOf(cfg, i));
      GatherKeeps(round.store.shelf, seen, RoundOf(cfg, i));
      ChosenAreFit(round.store, cfg, more);
      SelectedAreFit(round.store, cfg, updater, i + 1, more, round.left);
    }
  }

  // ---- Replaying the rounds ----

  /** `t` holds what `s` holds, and bars the same of its candidates. */
  ghost predicate Over(s: Store, t: Store) {
    && (forall id | id in s.shelf :: id in t.shelf && t.shelf[id] == s.shelf[id])
    && (forall id | id in s.shelf && s.shelf[id].Kept? ::
          Barred(CurrentOf(t.events, id)) == Barred(CurrentOf(s.events, id)))
  }

  lemma GrewIsOver(s: Store, t: Store, u: Store)
    requires WellKept(s) && Grew(s, t) && Over(t, u)
    ensures Over(s, u)
  {
  }

  lemma {:induction false} AskAllAgain(s: Store, cfg: Setting, bundle: string, ids: seq<string>,
                                       updater: string -> Answer, n: nat)
    requires Complete(s, ids)
    ensures AskAllOf(s, cfg, bundle, ids, updater, n) == Reply(s, n, Done)
    decreases |ids|
  {
    if ids == [] {
    } else {
      assert ids[0] in ids;
      AskAllAgain(s, cfg, bundle, ids[1..], updater, n);
    }
  }

  lemma {:induction false} GatherAgain(s: Store, t: Store, seen: seq<string>, ids: seq<string>)
    requires Complete(s, ids) && Over(s, t)
    ensures Gather(s.shelf, seen, ids) == Gather(t.shelf, seen, ids)
    decreases |ids|
  {
    if ids == [] {
    } else {
      assert ids[0] in ids;
      GatherAgain(s, t, seen + [ids[0]], ids[1..]);
      GatherAgain(s, t, seen, ids[1..]);
    }
  }

  lemma {:induction false} ExecutableAgain(s: Store, t: Store, seen: seq<string>)
    requires Over(s, t) && forall id | id in seen :: id in s.shelf && s.shelf[id].Kept?
    ensures Executable(s, seen) == Executable(t, seen)
  {
    if seen == [] {
    } else {
      assert seen[0] in seen;
      ExecutableAgain(s, t, seen[1..]);
    }
  }

  ghost predicate AllKept(s: Store, seen: seq<string>) {
    Distinct(seen) && forall id | id in seen :: id in s.shelf && s.shelf[id].Kept?
  }

  /** One round that came to its end, and the same round over what it left. */
  lemma RoundAgain(s: Store, cfg: Setting, i: nat, seen: seq<string>, updater: string -> Answer, n: nat,
                   t: Store, updater': string -> Answer, n': nat)
    requires cfg.bundles != [] && WellKept(s) && AllKept(s, seen)
    requires AskRound(s, cfg, updater, i, n).end == Done && Over(AskRound(s, cfg, updater, i, n).store, t)
    ensures AskRound(t, cfg, updater', i, n') == Reply(t, n', Done)
    ensures var after := AskRound(s, cfg, updater, i, n).store;
            var more := Gather(after.shelf, seen, RoundOf(cfg, i));
            && WellKept(after) && AllKept(after, more)
            && Gather(t.shelf, seen, RoundOf(cfg, i)) == more && ChoiceOf(t, cfg, more) == ChoiceOf(after, cfg, more)
  {
    var after := AskRound(s, cfg, updater, i, n).store;
    RoundGrows(s, cfg, updater, i, n);
    AskAllAgain(t, cfg, BundleOf(cfg, i), RoundOf(cfg, i), updater', n');
    GatherAgain(after, t, seen, RoundOf(cfg, i));
    GatherKeeps(after.shelf, seen, RoundOf(cfg, i));
    ExecutableAgain(after, t, Gather(after.shelf, seen, RoundOf(cfg, i)));
  }

  lemma OverAfter(s: Store, cfg: Setting, updater: string -> Answer, i: nat, seen: seq<string>, n: nat, t: Store)
    requires cfg.bundles != [] && WellKept(s) && Over(ProposeOf(s, cfg, updater, i, seen, n).reply.store, t)
    ensures Over(s, t)
  {
    RoundsOnlyAdd(s, cfg, updater, i, seen, n);
    GrewIsOver(s, ProposeOf(s, cfg, updater, i, seen, n).reply.store, t);
  }

  /** Rounds that came to a choice come to the same choice again, without a write and whatever the updater
      would say, over every store that holds as much and bars the same candidates. */
  lemma {:induction false} ChoiceIsRepeated(s: Store, cfg: Setting, updater: string -> Answer, i: nat, seen: seq<string>,
                                            n: nat, t: Store, updater': string -> Answer, n': nat)
    requires cfg.bundles != [] && WellKept(s) && AllKept(s, seen)
    requires ProposeOf(s, cfg, updater, i, seen, n).reply.end == Done
    requires Over(ProposeOf(s, cfg, updater, i, seen, n).reply.store, t)
    ensures ProposeOf(t, cfg, updater', i, seen, n')
         == Proposed(Reply(t, n', Done), ProposeOf(s, cfg, updater, i, seen, n).selected)
    decreases cfg.budget - i
  {
    var round := AskRound(s, cfg, updater, i, n);
    var more := Gather(round.store.shelf, seen, RoundOf(cfg, i));
    RoundGrows(s, cfg, updater, i, n);
    if ChoiceOf(round.store, cfg, more) == Again {
      OverAfter(round.store, cfg, updater, i + 1, more, round.left, t);
      RoundAgain(s, cfg, i, seen, updater, n, t, updater', n');
      ChoiceIsRepeated(round.store, cfg, updater, i + 1, more, round.left, t, updater', n');
    } else {
      RoundAgain(s, cfg, i, seen, updater, n, t, updater', n');
    }
  }

  // ---- Unfinished candidates ----

  ghost predicate Clean(s: Store) {
    forall id | id in s.shelf :: s.shelf[id] != Half
  }

  /** A reply that tells of an unfinished candidate: found, or left behind by a crash. */
  ghost predicate Unfinished(s: Store, r: Reply) {
    r.end == Raised(Incomplete) || (Clean(s) && r.end == Cut && !Clean(r.store))
  }

  lemma {:induction false} AskAllUnfinished(s: Store, cfg: Setting, bundle: string, ids: seq<string>,
                                            updater: string -> Answer, n: nat, r: Reply,
                                            t: Store, updater': string -> Answer, n': nat)
    requires r == AskAllOf(s, cfg, bundle, ids, updater, n) && WellKept(s) && Over(r.store, t)
    ensures Unfinished(s, r) ==> AskAllOf(t, cfg, bundle, ids, updater', n') == Reply(t, n', Raised(Incomplete))
    ensures Clean(s) && r.end != Cut ==> Clean(r.store)
    decreases |ids|
  {
    if ids == [] {
    } else {
      var first := AskOf(s, cfg, bundle, ids[0], updater(ids[0]), n);
      AskGrows(s, cfg, bundle, ids[0], updater(ids[0]), n);
      if first.end == Done {
        AskAllUnfinished(first.store, cfg, bundle, ids[1..], updater, first.left, r, t, updater', n');
        AskAllGrows(first.store, cfg, bundle, ids[1..], updater, first.left, r);
        assert ids[0] in [ids[0]];
      }
    }
  }

  lemma RoundUnfinished(s: Store, cfg: Setting, updater: string -> Answer, i: nat, n: nat,
                        t: Store, updater': string -> Answer, n': nat)
    requires cfg.bundles != [] && WellKept(s) && Over(AskRound(s, cfg, updater, i, n).store, t)
    ensures var r := AskRound(s, cfg, updater, i, n);
            && (Unfinished(s, r) ==> AskRound(t, cfg, updater', i, n') == Reply(t, n', Raised(Incomplete)))
            && (Clean(s) && r.end != Cut ==> Clean(r.store))
  {
    if |RoundOf(cfg, i)| <= 6 {
      AskAllUnfinished(s, cfg, BundleOf(cfg, i), RoundOf(cfg, i), updater, n, AskRound(s, cfg, updater, i, n),
                       t, updater', n');
    }
  }

  /** Nothing repairs an unfinished candidate: rounds that left or met one raise at it again. */
  lemma {:induction false} UnfinishedIsRepeated(s: Store, cfg: Setting, updater: string -> Answer, i: nat,
                                                seen: seq<string>, n: nat,
                                                t: Store, updater': string -> Answer, n': nat)
    requires cfg.bundles != [] && WellKept(s) && AllKept(s, seen)
    requires Over(ProposeOf(s, cfg, updater, i, seen, n).reply.store, t)
    ensures var r := ProposeOf(s, cfg, updater, i, seen, n).reply;
            && (Unfinished(s, r) ==>
                  ProposeOf(t, cfg, updater', i, seen, n') == Proposed(Reply(t, n', Raised(Incomplete)), []))
            && (Clean(s) && r.end != Cut ==> Clean(r.store))
    decreases cfg.budget - i
  {
    if i < cfg.budget {
      var round := AskRound(s, cfg, updater, i, n);
      var more := Gather(round.store.shelf, seen, RoundOf(cfg, i));
      RoundGrows(s, cfg, updater, i, n);
      if round.end == Done && ChoiceOf(round.store, cfg, more) == Again {
        OverAfter(round.store, cfg, updater, i + 1, more, round.left, t);
        RoundAgain(s, cfg, i, seen, updater, n, t, updater', n');
        RoundUnfinished(s, cfg, updater, i, n, round.store, updater', n');
        UnfinishedIsRepeated(round.store, cfg, updater, i + 1, more, round.left, t, updater', n');
      } else {
        RoundUnfinished(s, cfg, updater, i, n, t, updater', n');
      }
    }
  }

  // ---- How many writes are enough ----

  lemma {:induction false} AskAllWrites(s: Store, cfg: Setting, bundle: string, ids: seq<string>,
                                        updater: string -> Answer, n: nat)
    requires n >= 2 * |ids|
    ensures var r := AskAllOf(s, cfg, bundle, ids, updater, n); r.end != Cut && r.left >= n - 2 * |ids|
    decreases |ids|
  {
    if ids == [] {
    } else {
      var first := AskOf(s, cfg, bundle, ids[0], updater(ids[0]), n);
      if first.end == Done {
        AskAllWrites(first.store, cfg, bundle, ids[1..], updater, first.left);
      }
    }
  }

  /** A run that may write twelve times a round is not cut off in the rounds. */
  lemma {:induction false} RoundWrites(s: Store, cfg: Setting, updater: string -> Answer, i: nat, seen: seq<string>,
                                       n: nat)
    requires cfg.bundles != [] && i <= cfg.budget && n >= 12 * (cfg.budget - i)
    ensures var r := ProposeOf(s, cfg, updater, i, seen, n).reply;
            r.end != Cut && r.left >= n - 12 * (cfg.budget - i)
    decreases cfg.budget - i
  {
    if i < cfg.budget && |RoundOf(cfg, i)| <= 6 {
      var round := AskRound(s, cfg, updater, i, n);
      AskAllWrites(s, cfg, BundleOf(cfg, i), RoundOf(cfg, i), updater, n);
      if round.end == Done {
        RoundWrites(round.store, cfg, updater, i + 1, Gather(round.store.shelf, seen, RoundOf(cfg, i)), round.left);
      }
    }
  }
}
