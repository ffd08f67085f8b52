/** Who may run a paid Release stage, and when an experiment may end in a Selection HOLD: the stored
    artifacts of one experiment and the concurrent processes that act on them
    (agentloopgate/experiment/service.py, run_stage and the paid authorization;
    agentloopgate/experiment/orchestrator.py, run and _seal_selection_hold_outcome). */
module ReleaseGate {
  import opened Common

  datatype Stage = UpdateSource | UpdateCheck | SelectionStage | ReleaseId | ReleaseOod | Replay

  predicate InTail(s: Stage) { s == ReleaseId || s == ReleaseOod || s == Replay }

  datatype Scope = PreRelease | ReleaseTail

  function ScopeOf(s: Stage): (r: Scope) { if InTail(s) then ReleaseTail else PreRelease }

  datatype Verdict = Select | Hold

  /** The stored selection, standing for its own digest. */
  datatype Decision = Decision(verdict: Verdict, governed: Option<string>, body: string)

  predicate ValidDecision(d: Decision) { d.verdict == Select <==> d.governed.Some? }

  /** An authorization is bound to the frozen identity of the experiment and, in the release tail, to
      the selection; `actor` gave it. */
  datatype Authorization = Authorization(identity: string, bound: Option<Decision>, actor: string)

  /** A batch id is a digest of a specification that includes the stage. */
  datatype Batch = Batch(id: string, stage: Stage)

  /** What is on disk.  Every file is written at most once. */
  datatype Store = Store(
    selection: Option<Decision>, hold: bool, outcome: bool, auths: map<Scope, Authorization>,
    raw: set<Batch>, sealed: set<Batch>)

  datatype Fault =
    | Conflict | NotHold | NotSelect | HoldBlocks | Unauthorized | OtherActor | AppearedConcurrently
    | RawUnavailable | RunFailed | EvidenceRejected | NothingToDo

  // ---- The checks ----

  /** _verified_release_selection: the stored selection, if it is a SELECT. */
  function ReleaseSelection(s: Store): (r: Option<Decision>) {
    if s.selection.Some? && s.selection.value.verdict == Select && s.selection.value.governed.Some?
    then s.selection else None
  }

  /** verify_paid_execution_authorization, over one stored authorization. */
  predicate Verifies(s: Store, scope: Scope, identity: string) {
    && scope in s.auths && s.auths[scope].identity == identity
    && (scope == ReleaseTail ==> ReleaseSelection(s).Some? && s.auths[scope].bound == ReleaseSelection(s))
  }

  /** The authorization gate of run_stage for a run that may call a model. */
  predicate MayPay(s: Store, stage: Stage, identity: string) {
    !(InTail(stage) && s.hold) && Verifies(s, ScopeOf(stage), identity)
  }

  // ---- The artifacts of an experiment, used by one process ----

  class ExperimentFiles {
    var selection: Option<Decision>
    var hold: bool
    var outcome: bool
    var auths: map<Scope, Authorization>
    var raw: set<Batch>
    var sealed: set<Batch>

    constructor ()
      ensures Now() == Store(None, false, false, map[], {}, {})
    {
      selection, hold, outcome, auths, raw, sealed := None, false, false, map[], {}, {};
    }

    function Now(): (r: Store)
      reads this
    {
      Store(selection, hold, outcome, auths, raw, sealed)
    }

    method VerifyAuthorization(scope: Scope, identity: string) returns (r: Result<Authorization, Fault>)
      ensures r.Success? <==> Verifies(Now(), scope, identity)
      ensures r.Success? ==> scope in auths && r.value == auths[scope]
    {
      if scope !in auths || auths[scope].identity != identity {
        return Failure(Unauthorized);
      }
      if scope == ReleaseTail {
        var selected := ReleaseSelection(Now());
        if selected.None? {
          return Failure(NotSelect);
        }
        if selected != auths[scope].bound {
          return Failure(Conflict);
        }
      }
      return Success(auths[scope]);
    }

    method CreateAuthorization(scope: Scope, identity: string, actor: string)
      returns (r: Result<Authorization, Fault>)
      modifies this`auths
      ensures r.Failure? ==> Now() == old(Now())
      ensures r.Success? ==> Verifies(Now(), scope, identity) && r.value.actor == actor
      ensures r.Success? ==> Now() == old(Now()).(auths := old(auths)[scope := r.value])
      ensures r.Success? ==> (scope in old(auths) && r.value == old(auths)[scope])
                             || Creates(old(Now()), scope, identity, actor) == Success(r.value)
    {
      var bound: Option<Decision> := None;
      if scope == ReleaseTail {
        if hold {
          return Failure(HoldBlocks);
        }
        bound := ReleaseSelection(Now());
        if bound.None? {
          return Failure(NotSelect);
        }
      }
      if scope in auths {
        r := VerifyAuthorization(scope, identity);
        if r.Success? && r.value.actor != actor {
          return Failure(OtherActor);
        }
        return;
      }
      var authorization := Authorization(identity, bound, actor);
      auths := auths[scope := authorization];
      return Success(authorization);
    }

    /** Runs one stage; `finishes` says whether the paid run, should there be one, returns a result, and
        `sound` whether the retained result passes the evidence checks.  A result that was paid for stays
        retained even where these fail. */
    method RunStage(batch: Batch, identity: string, existingOnly: bool, finishes: bool, sound: bool)
      returns (fault: Option<Fault>)
      modifies this`raw, this`sealed
      ensures fault.None? <==> sound && if existingOnly then batch in old(raw)
                               else MayPay(old(Now()), batch.stage, identity) && (batch in old(raw) || finishes)
      ensures raw == old(raw) + if !existingOnly && finishes && MayPay(old(Now()), batch.stage, identity) then {batch}
                                else {}
      ensures sealed == old(sealed) + if fault.None? then {batch} else {}
      ensures Now() == old(Now()).(raw := raw, sealed := sealed)
      ensures fault.None? && !existingOnly && batch.stage in {ReleaseId, ReleaseOod, Replay} ==>
                && !hold && selection.Some? && selection.value.verdict == Select && selection.value.governed.Some?
                && ReleaseTail in auths && auths[ReleaseTail].identity == identity
                && auths[ReleaseTail].bound == selection
      ensures fault.None? && !existingOnly && batch.stage !in {ReleaseId, ReleaseOod, Replay} ==>
                PreRelease in auths && auths[PreRelease].identity == identity
    {
      if !existingOnly {
        if InTail(batch.stage) && hold {
          return Some(HoldBlocks);
        }
        var authorized := VerifyAuthorization(ScopeOf(batch.stage), identity);
        if authorized.Failure? {
          return Some(authorized.error);
        }
      }
      if batch !in raw {
        if existingOnly {
          return Some(RawUnavailable);
        }
        if !finishes {
          return Some(RunFailed);
        }
        raw := raw + {batch};
      }
      if !sound {
        return Some(EvidenceRejected);
      }
      sealed := sealed + {batch};
      return None;
    }
  }

  /** The authorization that create_paid_execution_authorization would write when there is none. */
  function Creates(s: Store, scope: Scope, identity: string, actor: string): (r: Result<Authorization, Fault>) {
    if scope == PreRelease then Success(Authorization(identity, None, actor))
    else if s.hold then Failure(HoldBlocks)
    else if ReleaseSelection(s).None? then Failure(NotSelect)
    else Success(Authorization(identity, ReleaseSelection(s), actor))
  }

  // ---- Concurrent processes ----

  /** What processes hold in memory: selections that they wrote or found, authorizations about to be
      written, and paid runs under way. */
  datatype State = State(
    store: Store, seen: set<Decision>, creating: set<(Scope, Authorization)>, running: set<Batch>)

  datatype Action =
    | WriteSelection(decision: Decision)
    | SealHold(decision: Decision)
    | SealOutcome(decision: Decision)
    | BeginAuthorization(scope: Scope, identity: string, actor: string)
    | WriteAuthorization(scope: Scope, authorization: Authorization)
    | BeginRun(batch: Batch, identity: string)
    | FinishRun(batch: Batch)
    | SealBatch(batch: Batch)
    | Die(decisions: set<Decision>, creations: set<(Scope, Authorization)>, runs: set<Batch>)

  function StepSelection(s: State, d: Decision): (r: Result<State, Fault>) {
    if !ValidDecision(d) || (s.store.selection.Some? && s.store.selection.value != d) then Failure(Conflict)
    else Success(s.(store := s.store.(selection := Some(d)), seen := s.seen + {d}))
  }

  function StepHold(s: State, d: Decision): (r: Result<State, Fault>) {
    if d !in s.seen || d.verdict != Hold || d.governed.Some? then Failure(NotHold)
    else Success(s.(store := s.store.(hold := true)))
  }

  predicate HasStage(s: Store, stage: Stage) { exists b | b in s.sealed :: b.stage == stage }

  /** The release path of run: it goes past the HOLD branch and needs a batch of every tail stage. */
  function StepOutcome(s: State, d: Decision): (r: Result<State, Fault>) {
    if d !in s.seen || d.verdict == Hold then Failure(NotSelect)
    else if !(HasStage(s.store, ReleaseId) && HasStage(s.store, ReleaseOod) && HasStage(s.store, Replay)) then
      Failure(RawUnavailable)
    else Success(s.(store := s.store.(outcome := true)))
  }

  function StepBeginAuthorization(s: State, scope: Scope, identity: string, actor: string): (r: Result<State, Fault>) {
    var created := Creates(s.store, scope, identity, actor);
    if created.Failure? then Failure(created.error)
    else Success(s.(creating := s.creating + {(scope, created.value)}))
  }

  /** The file is created exclusively. */
  function StepWriteAuthorization(s: State, scope: Scope, a: Authorization): (r: Result<State, Fault>) {
    if (scope, a) !in s.creating then Failure(NothingToDo)
    else if scope in s.store.auths then Failure(AppearedConcurrently)
    else Success(s.(store := s.store.(auths := s.store.auths[scope := a]), creating := s.creating - {(scope, a)}))
  }

  function StepBeginRun(s: State, batch: Batch, identity: string): (r: Result<State, Fault>) {
    if !MayPay(s.store, batch.stage, identity) then Failure(Unauthorized)
    else if batch in s.store.raw then Failure(NothingToDo)
    else Success(s.(running := s.running + {batch}))
  }

  function StepOf(s: State, a: Action): (r: Result<State, Fault>) {
    match a
    case WriteSelection(d) => StepSelection(s, d)
    case SealHold(d) => StepHold(s, d)
    case SealOutcome(d) => StepOutcome(s, d)
    case BeginAuthorization(scope, identity, actor) => StepBeginAuthorization(s, scope, identity, actor)
    case WriteAuthorization(scope, authorization) => StepWriteAuthorization(s, scope, authorization)
    case BeginRun(batch, identity) => StepBeginRun(s, batch, identity)
    case FinishRun(batch) =>
      if batch !in s.running then Failure(NothingToDo)
      else Success(s.(store := s.store.(raw := s.store.raw + {batch}), running := s.running - {batch}))
    case SealBatch(batch) =>
      if batch !in s.store.raw then Failure(RawUnavailable)
      else Success(s.(store := s.store.(sealed := s.store.sealed + {batch})))
    case Die(decisions, creations, runs) =>
      Success(s.(seen := s.seen - decisions, creating := s.creating - creations, running := s.running - runs))
  }

  /** A failing step changes nothing on disk. */
  function Exec(s: State, actions: seq<Action>): (r: State) {
    if actions == [] then s
    else
      var before := Exec(s, actions[..|actions| - 1]);
      var after := StepOf(before, actions[|actions| - 1]);
      if after.Success? then after.value else before
  }

  const EMPTY := State(Store(None, false, false, map[], {}, {}), {}, {}, {})

  // ---- The invariant ----

  predicate Selects(s: Store) { ReleaseSelection(s).Some? }

  predicate BoundToSelection(s: Store, a: Authorization) {
    ReleaseSelection(s).Some? && a.bound == ReleaseSelection(s)
  }

  ghost predicate Inv(s: State) {
    && (s.store.selection.Some? ==> ValidDecision(s.store.selection.value))
    && (forall d | d in s.seen :: s.store.selection == Some(d))
    && (forall c | c in s.creating :: c.0 == ReleaseTail ==> BoundToSelection(s.store, c.1))
    && (ReleaseTail in s.store.auths ==> BoundToSelection(s.store, s.store.auths[ReleaseTail]))
    && (s.store.hold ==> s.store.selection.Some? && s.store.selection.value.verdict == Hold)
    && (s.store.outcome ==> Selects(s.store))
    && (forall b | b in s.running + s.store.raw + s.store.sealed :: InTail(b.stage) ==> Selects(s.store))
    && s.store.sealed <= s.store.raw
  }

  lemma InvStep(s: State, a: Action)
    requires Inv(s) && StepOf(s, a).Success?
    ensures Inv(StepOf(s, a).value)
  {
    match a
    case WriteSelection(d) => InvSelection(s, d);
    case SealOutcome(d) => assert s.store.selection == Some(d);
    case _ =>
  }

  lemma InvSelection(s: State, d: Decision)
    requires Inv(s) && StepSelection(s, d).Success?
    ensures Inv(StepSelection(s, d).value)
  {
    assert s.store.selection.Some? ==> s.store.selection == Some(d);
  }

  lemma {:induction false} InvAlways(s: State, actions: seq<Action>)
    requires Inv(s)
    ensures Inv(Exec(s, actions))
  {
    if actions == [] {
    } else {
      InvAlways(s, actions[..|actions| - 1]);
      var before := Exec(s, actions[..|actions| - 1]);
      if StepOf(before, actions[|actions| - 1]).Success? {
        InvStep(before, actions[|actions| - 1]);
      }
    }
  }

  // ---- Main results ----

  /** Over every interleaving of processes and crashes: a sealed Selection HOLD excludes any Release, OOD
      or Replay run, whether under way, retained or sealed; and it excludes the release outcome, so the
      conflict that run checks for first never arises. */
  lemma HoldExcludesRelease(actions: seq<Action>)
    ensures var s := Exec(EMPTY, actions);
            && (s.store.hold ==> forall b | b in s.running + s.store.raw + s.store.sealed ::
                  b.stage != ReleaseId && b.stage != ReleaseOod && b.stage != Replay)
            && (s.store.hold ==> s.store.selection.Some? && s.store.selection.value.verdict == Hold)
            && !(s.store.hold && s.store.outcome)
            && (s.store.hold ==> ReleaseTail !in s.store.auths)
  {
    InvAlways(EMPTY, actions);
  }

  /** A paid run of a tail stage begins only under a selection that says SELECT and an authorization that
      was bound to that very selection; that selection then stays. */
  lemma PaidReleaseNeedsSelect(actions: seq<Action>, batch: Batch, identity: string, later: seq<Action>)
    requires batch.stage == ReleaseId || batch.stage == ReleaseOod || batch.stage == Replay
    requires StepOf(Exec(EMPTY, actions), BeginRun(batch, identity)).Success?
    ensures var s := Exec(EMPTY, actions).store;
            && s.selection.Some? && s.selection.value.verdict == Select && s.selection.value.governed.Some? && !s.hold
            && ReleaseTail in s.auths && s.auths[ReleaseTail].identity == identity
            && s.auths[ReleaseTail].bound == s.selection
            && Exec(Exec(EMPTY, actions), later).store.selection == s.selection
            && !Exec(Exec(EMPTY, actions), later).store.hold
  {
    InvAlways(EMPTY, actions);
    StoreOnlyGrows(Exec(EMPTY, actions), later);
    InvAlways(Exec(EMPTY, actions), later);
  }

  /** A paid run of one of the other stages begins exactly under an authorization of the frozen identity for
      the stages before the release, unless its result is retained already. */
  lemma PaidPreReleaseNeedsLeave(s: State, batch: Batch, identity: string)
    requires batch.stage == UpdateSource || batch.stage == UpdateCheck || batch.stage == SelectionStage
    ensures StepOf(s, BeginRun(batch, identity)).Success? <==>
              && batch !in s.store.raw
              && PreRelease in s.store.auths && s.store.auths[PreRelease].identity == identity
  {
  }

  /** A paid run of a release stage begins exactly under such an authorization for the release tail, bound
      to a stored SELECT, without a sealed HOLD. */
  lemma PaidTailNeedsLeave(s: State, batch: Batch, identity: string)
    requires batch.stage == ReleaseId || batch.stage == ReleaseOod || batch.stage == Replay
    ensures StepOf(s, BeginRun(batch, identity)).Success? <==>
              && batch !in s.store.raw && !s.store.hold
              && ReleaseTail in s.store.auths && s.store.auths[ReleaseTail].identity == identity
              && s.store.selection.Some? && s.store.selection.value.verdict == Select
              && s.store.selection.value.governed.Some? && s.store.auths[ReleaseTail].bound == s.store.selection
  {
  }

  /** What a new authorization holds: the frozen identity, the actor, and for the release tail the stored
      SELECT, without which there is none. */
  lemma AuthorizationIsBound(s: Store, scope: Scope, identity: string, actor: string)
    ensures var r := Creates(s, scope, identity, actor);
            && (scope == PreRelease ==> r == Success(Authorization(identity, None, actor)))
            && (scope == ReleaseTail ==>
                  (r.Success? <==> !s.hold && s.selection.Some? && s.selection.value.verdict == Select
                                   && s.selection.value.governed.Some?)
                  && (r.Success? ==> r.value == Authorization(identity, s.selection, actor)))
  {
  }

  /** A release outcome comes with a stored SELECT and a sealed batch of each release stage. */
  lemma {:induction false} OutcomeNeedsRelease(actions: seq<Action>)
    ensures var s := Exec(EMPTY, actions).store;
            s.outcome ==>
              && s.selection.Some? && s.selection.value.verdict == Select
              && (exists b :: b in s.sealed && b.stage == ReleaseId)
              && (exists b :: b in s.sealed && b.stage == ReleaseOod)
              && (exists b :: b in s.sealed && b.stage == Replay)
  {
    if actions == [] {
    } else {
      OutcomeNeedsRelease(actions[..|actions| - 1]);
      InvAlways(EMPTY, actions[..|actions| - 1]);
      InvAlways(EMPTY, actions);
      StoreOnlyGrows(Exec(EMPTY, actions[..|actions| - 1]), [actions[|actions| - 1]]);
    }
  }

  /** A selection that is stored seals the end it calls for: HOLD a hold outcome, and SELECT, once there is a
      batch of each release stage, a release outcome. */
  lemma VerdictSeals(s: State, d: Decision)
    requires d in s.seen && ValidDecision(d)
    ensures StepOf(s, SealHold(d)).Success? <==> d.verdict == Hold
    ensures StepOf(s, SealHold(d)).Success? ==> StepOf(s, SealHold(d)).value == s.(store := s.store.(hold := true))
    ensures StepOf(s, SealOutcome(d)).Success? <==>
              && d.verdict == Select
              && (exists b :: b in s.store.sealed && b.stage == ReleaseId)
              && (exists b :: b in s.store.sealed && b.stage == ReleaseOod)
              && (exists b :: b in s.store.sealed && b.stage == Replay)
  {
  }

  /** The first valid selection is stored, and then only the same one is accepted. */
  lemma SelectionIsWrittenOnce(s: State, d: Decision)
    ensures StepOf(s, WriteSelection(d)).Success? <==>
              (d.verdict == Select <==> d.governed.Some?) && (s.store.selection.None? || s.store.selection == Some(d))
    ensures StepOf(s, WriteSelection(d)).Success? ==>
              var t := StepOf(s, WriteSelection(d)).value;
              t == s.(store := s.store.(selection := Some(d)), seen := t.seen)
              && forall x :: x in t.seen <==> x in s.seen || x == d
  {
  }

  /** The check for a sealed HOLD in run_stage and in the creation of an authorization decides nothing
      that the selection does not decide already. */
  lemma HoldFileCheckIsRedundant(actions: seq<Action>, stage: Stage, identity: string, actor: string)
    ensures var s := Exec(EMPTY, actions).store;
            && (MayPay(s, stage, identity) <==> Verifies(s, ScopeOf(stage), identity))
            && (Creates(s, ReleaseTail, identity, actor).Success? <==> Selects(s))
  {
    InvAlways(EMPTY, actions);
  }

  /** The paid run of `batch` was begun, with leave, at some point of the history. */
  ghost predicate Begun(actions: seq<Action>, batch: Batch) {
    exists i, identity :: 0 <= i < |actions| && actions[i] == BeginRun(batch, identity)
                          && MayPay(Exec(EMPTY, actions[..i]).store, batch.stage, identity)
  }

  lemma BegunEarlier(actions: seq<Action>, last: Action, batch: Batch)
    requires Begun(actions, batch)
    ensures Begun(actions + [last], batch)
  {
    var i, identity :| 0 <= i < |actions| && actions[i] == BeginRun(batch, identity)
                       && MayPay(Exec(EMPTY, actions[..i]).store, batch.stage, identity);
    assert (actions + [last])[..i] == actions[..i] && (actions + [last])[i] == actions[i];
  }

  lemma BegunNow(actions: seq<Action>, batch: Batch, identity: string)
    requires MayPay(Exec(EMPTY, actions).store, batch.stage, identity)
    ensures Begun(actions + [BeginRun(batch, identity)], batch)
  {
    var all := actions + [BeginRun(batch, identity)];
    assert all[..|actions|] == actions && all[|actions|] == BeginRun(batch, identity);
  }

  function Live(s: State): (r: set<Batch>) { s.running + s.store.raw + s.store.sealed }

  /** Every raw result, and so every sealed batch, comes from a paid run that was authorized when it
      began: existing-only runs only reuse what is retained. */
  lemma {:induction false} RetainedWasAuthorized(actions: seq<Action>, batch: Batch)
    requires batch in Live(Exec(EMPTY, actions))
    ensures Begun(actions, batch)
  {
    if actions == [] {
    } else {
      var rest, last := actions[..|actions| - 1], actions[|actions| - 1];
      assert actions == rest + [last];
      var before := Exec(EMPTY, rest);
      if batch in Live(before) {
        RetainedWasAuthorized(rest, batch);
        BegunEarlier(rest, last, batch);
      } else {
        BegunNow(rest, batch, last.identity);
      }
    }
  }

  ghost predicate Grows(s: Store, t: Store) {
    && (s.selection.Some? ==> t.selection == s.selection)
    && (s.hold ==> t.hold) && (s.outcome ==> t.outcome)
    && s.raw <= t.raw && s.sealed <= t.sealed
    && forall scope | scope in s.auths :: scope in t.auths && t.auths[scope] == s.auths[scope]
  }

  /** Nothing on disk is ever taken back or changed. */
  lemma {:induction false} StoreOnlyGrows(s: State, actions: seq<Action>)
    ensures Grows(s.store, Exec(s, actions).store)
  {
    if actions == [] {
    } else {
      var before, last := Exec(s, actions[..|actions| - 1]), actions[|actions| - 1];
      StoreOnlyGrows(s, actions[..|actions| - 1]);
      if StepOf(before, last).Success? {
      }
    }
  }

  /** One process creating an authorization is the two steps above, undisturbed. */
  lemma CreationIsTwoSteps(s: State, scope: Scope, identity: string, actor: string)
    requires scope !in s.store.auths
    ensures var created := Creates(s.store, scope, identity, actor);
            var steps := if created.Success? then
                [BeginAuthorization(scope, identity, actor), WriteAuthorization(scope, created.value)]
              else [BeginAuthorization(scope, identity, actor)];
            Exec(s, steps).store
            == if created.Success? then s.store.(auths := s.store.auths[scope := created.value]) else s.store
  {
    var created := Creates(s.store, scope, identity, actor);
    var begin := BeginAuthorization(scope, identity, actor);
    assert [begin][..0] == [];
    assert Exec(s, []) == s;
    if created.Success? {
      var write := WriteAuthorization(scope, created.value);
      assert [begin, write][..1] == [begin];
    }
  }

  /** One paid stage run is three steps; an existing-only run is the last of them alone. */
  lemma StageRunIsThreeSteps(s: State, batch: Batch, identity: string)
    requires MayPay(s.store, batch.stage, identity) && batch !in s.running
    ensures Exec(s, [BeginRun(batch, identity), FinishRun(batch), SealBatch(batch)]).store
         == s.store.(raw := s.store.raw + {batch}, sealed := s.store.sealed + {batch})
  {
    var begin, finish, seal := BeginRun(batch, identity), FinishRun(batch), SealBatch(batch);
    assert [begin][..0] == [] && [begin, finish][..1] == [begin] && [begin, finish, seal][..2] == [begin, finish];
    assert Exec(s, []) == s;
    if batch in s.store.raw {
      assert s.store.raw + {batch} == s.store.raw;
      assert Exec(s, [begin]) == s && Exec(s, [begin, finish]) == s;
    } else {
      assert Exec(s, [begin]) == s.(running := s.running + {batch});
      assert Exec(s, [begin, finish]).store == s.store.(raw := s.store.raw + {batch});
    }
  }
}
