/** Whole runs of an experiment over crashes and restarts: proposal rounds, write-once plan, lifecycle
    steps and outcome (agentloopgate/experiment/orchestrator.py, run). */
module ExperimentRun {
  import opened Common
  import opened Lifecycle
  import opened Proposals
  import DiverseSubset

  /** What the selection and the gates decide; a target is SHIP_RECOMMENDED, HELD or REJECTED. */
  datatype Verdict =
    | Abstains
    | Chooses(native: string, governed: string, nativeTarget: Status, governedTarget: Status)

  /** What a run depends on besides the files: settings, and the evidence that its batches give. */
  datatype Course = Course(setting: Setting, verdict: seq<string> -> Verdict, source: (string, Status) -> string)

  /** The files of an experiment; `outcome` says that one of its two outcome files is sealed. */
  datatype Experiment = Experiment(store: Store, files: map<(string, Status), string>, plan: Option<seq<string>>,
                                   outcome: bool)

  // ---- The operations ----

  function Steps(course: Course, ids: seq<string>, target: Status): (r: seq<Step>) {
    seq(|ids|, i requires 0 <= i < |ids| => Step(ids[i], target, course.source(ids[i], target)))
  }

  /** The steps behind the selection. */
  function LastSteps(course: Course, ids: seq<string>): (r: seq<Step>) {
    match course.verdict(ids)
    case Abstains => Steps(course, ids, Held)
    case Chooses(native, governed, nativeTarget, governedTarget) =>
      if native == governed then
        Steps(course, [governed], ReleaseEvaluated) + Steps(course, [governed], governedTarget)
      else
        Steps(course, [native, governed], ReleaseEvaluated)
        + (Steps(course, [native], nativeTarget) + Steps(course, [governed], governedTarget))
  }

  /** All calls of _advance in one run over the selected candidates. */
  function ScriptOf(course: Course, ids: seq<string>): (r: seq<Step>) {
    Steps(course, ids, UpdateEvaluated) + (Steps(course, ids, SelectionEvaluated) + LastSteps(course, ids))
  }

  /** The status guard of the snapshots. */
  predicate Materializes(events: map<string, seq<Event>>, ids: seq<string>) {
    forall id | id in ids :: !Barred(CurrentOf(events, id)) && CurrentOf(events, id) != Some(Draft)
  }

  lemma MaterializesByStatus(events: map<string, seq<Event>>, ids: seq<string>)
    ensures Materializes(events, ids) <==>
              forall id | id in ids ::
                CurrentOf(events, id) !in {Some(Draft), Some(Rejected), Some(Held), Some(RolledBack)}
  {
  }

  function WorldOf(x: Experiment): (r: World) {
    World(x.store.events, x.files)
  }

  function WithWorld(x: Experiment, w: World): (r: Experiment) {
    x.(store := x.store.(events := w.events), files := w.files)
  }

  /** What a run leaves once its steps came to `r`; the outcome is the last write of a whole run. */
  function Concluded(x: Experiment, r: (World, Option<Fault>), whole: bool): (after: (Experiment, End)) {
    var stepped := WithWorld(x, r.0);
    if r.1.Some? then (stepped, Raised(StepFailed(r.1.value)))
    else if !whole then (stepped, Cut)
    else (stepped.(outcome := true), Done)
  }

  /** The plan is written or compared, and then the steps are made. */
  function StepsOf(x: Experiment, course: Course, ids: seq<string>, n: nat): (r: (Experiment, End)) {
    if x.plan.Some? && x.plan.value != ids then (x, Raised(PlanConflict))
    else if x.plan.None? && n == 0 then (x, Cut)
    else
      var left, planned := if x.plan.None? then n - 1 else n, x.(plan := Some(ids));
      if !Materializes(x.store.events, ids) then (planned, Raised(NotMaterialized))
      else
        var script := ScriptOf(course, ids);
        Concluded(planned, AttemptOf(WorldOf(planned), script, left), left > 2 * |script|)
  }

  /** One run from the top, cut off after `n` writes. */
  function RunOf(x: Experiment, course: Course, updater: string -> Answer, n: nat): (r: (Experiment, End))
    requires course.setting.bundles != []
  {
    if x.outcome then (x, Done)
    else
      var proposed := ProposeOf(x.store, course.setting, updater, 0, [], n);
      var asked := x.(store := proposed.reply.store);
      if proposed.reply.end != Done then (asked, proposed.reply.end)
      else StepsOf(asked, course, proposed.selected, proposed.reply.left)
  }

  class FormalRun {
    const course: Course
    const updater: Updater
    const orchestrator: Orchestrator
    var plan: Option<seq<string>>
    var outcome: bool

    constructor (course: Course, updater: Updater, orchestrator: Orchestrator)
      requires updater.cfg == course.setting && orchestrator.registry == updater.registry
      ensures this.course == course && this.updater == updater && this.orchestrator == orchestrator
      ensures plan == None && !outcome
    {
      this.course, this.updater, this.orchestrator := course, updater, orchestrator;
      plan, outcome := None, false;
    }

    ghost predicate Valid()
      reads this, updater, updater.registry
    {
      updater.Valid() && updater.cfg == course.setting && orchestrator.registry == updater.registry
    }

    function Now(): (r: Experiment)
      reads this, updater, updater.registry, orchestrator
    {
      Experiment(updater.Now(), orchestrator.files, plan, outcome)
    }

    /** Writes the plan once, and refuses a candidate that no snapshot may be made of. */
    method Prepare(ids: seq<string>, budget: nat) returns (left: nat, end: End)
      requires Valid()
      modifies this`plan
      ensures Valid() && Now() == old(Now()).(plan := plan)
      ensures var x := old(Now());
              if x.plan.Some? && x.plan.value != ids then end == Raised(PlanConflict) && plan == x.plan
              else if x.plan.None? && budget == 0 then end == Cut && plan == None
              else
                && plan == Some(ids) && left == (if x.plan.None? then budget - 1 else budget)
                && end == if Materializes(x.store.events, ids) then Done else Raised(NotMaterialized)
    {
      left := budget;
      if plan.Some? && plan.value != ids {
        return left, Raised(PlanConflict);
      }
      if plan.None? {
        if budget == 0 {
          return left, Cut;
        }
        plan, left := Some(ids), budget - 1;
      }
      end := if Materializes(updater.registry.events, ids) then Done else Raised(NotMaterialized);
    }

    method Finish(ids: seq<string>, budget: nat) returns (end: End)
      requires Valid()
      modifies this, orchestrator`files, updater.registry`events
      ensures Valid() && (Now(), end) == StepsOf(old(Now()), course, ids, budget)
    {
      var left: nat;
      left, end := Prepare(ids, budget);
      if end != Done {
        return;
      }
      var script := ScriptOf(course, ids);
      var fault := orchestrator.Attempt(script, left);
      if fault.Some? {
        return Raised(StepFailed(fault.value));
      }
      if left <= 2 * |script| {
        return Cut;
      }
      outcome := true;
    }

    method Run(answers: string -> Answer, budget: nat) returns (end: End)
      requires Valid()
      modifies this, updater, updater.registry, orchestrator
      ensures Valid() && (Now(), end) == RunOf(old(Now()), course, answers, budget)
    {
      if outcome {
        return Done;
      }
      var left: nat, ids: seq<string>;
      left, end, ids := updater.Propose(answers, budget);
      if end != Done {
        return;
      }
      end := Finish(ids, left);
    }
  }

  // ---- The script ----

  ghost predicate Ends(s: Status) {
    s == Held || s == Rejected || s == ShipRecommended
  }

  /** At least one candidate is asked for, and the decisions are about selected candidates. */
  ghost predicate Sound(course: Course) {
    && course.setting.bundles != [] && course.setting.count > 0
    && forall ids :: course.verdict(ids).Chooses? ==>
         && course.verdict(ids).native in ids && course.verdict(ids).governed in ids
         && Ends(course.verdict(ids).nativeTarget) && Ends(course.verdict(ids).governedTarget)
  }

  lemma {:induction false} PlanJoins(a: seq<Step>, b: seq<Step>, c: string)
    ensures Plan(a + b, c) == Plan(a, c) + Plan(b, c)
    decreases |b|
  {
    if b == [] {
      assert a + b == a;
    } else {
      PlanJoins(a, b[..|b| - 1], c);
      assert (a + b)[..|a + b| - 1] == a + b[..|b| - 1];
    }
  }

  lemma {:induction false} PlanOfSteps(course: Course, ids: seq<string>, target: Status, c: string)
    requires Distinct(ids)
    ensures Plan(Steps(course, ids, target), c) == if c in ids then [Step(c, target, course.source(c, target))] else []
  {
    if ids == [] {
    } else {
      var front := ids[..|ids| - 1];
      PlanOfSteps(course, front, target, c);
      assert Steps(course, ids, target)[..|ids| - 1] == Steps(course, front, target);
      assert ids == front + [ids[|ids| - 1]];
    }
  }

  function StepTo(course: Course, c: string, target: Status): (r: Step) {
    Step(c, target, course.source(c, target))
  }

  /** What comes behind the selection for one candidate. */
  function LastOf(course: Course, ids: seq<string>, c: string): (r: seq<Step>) {
    match course.verdict(ids)
    case Abstains => [StepTo(course, c, Held)]
    case Chooses(native, governed, nativeTarget, governedTarget) =>
      if c == governed then [StepTo(course, c, ReleaseEvaluated), StepTo(course, c, governedTarget)]
      else if c == native then [StepTo(course, c, ReleaseEvaluated), StepTo(course, c, nativeTarget)]
      else []
  }

  lemma LastOfOne(course: Course, c: string, only: string, target: Status)
    ensures Plan(Steps(course, [only], ReleaseEvaluated) + Steps(course, [only], target), c)
         == if c == only then [StepTo(course, c, ReleaseEvaluated), StepTo(course, c, target)] else []
  {
    PlanOfSteps(course, [only], ReleaseEvaluated, c);
    PlanOfSteps(course, [only], target, c);
    PlanJoins(Steps(course, [only], ReleaseEvaluated), Steps(course, [only], target), c);
  }

  lemma LastOfTwo(course: Course, c: string, a: string, b: string, targetA: Status, targetB: Status)
    requires a != b
    ensures Plan(Steps(course, [a, b], ReleaseEvaluated) + (Steps(course, [a], targetA) + Steps(course, [b], targetB)), c)
         == if c == a then [StepTo(course, c, ReleaseEvaluated), StepTo(course, c, targetA)]
            else if c == b then [StepTo(course, c, ReleaseEvaluated), StepTo(course, c, targetB)]
            else []
  {
    var first, second := Steps(course, [a], targetA), Steps(course, [b], targetB);
    PlanOfSteps(course, [a, b], ReleaseEvaluated, c);
    PlanOfSteps(course, [a], targetA, c);
    PlanOfSteps(course, [b], targetB, c);
    PlanJoins(first, second, c);
    PlanJoins(Steps(course, [a, b], ReleaseEvaluated), first + second, c);
  }

  lemma LastPlan(course: Course, ids: seq<string>, c: string)
    requires Sound(course) && Distinct(ids)
    ensures Plan(LastSteps(course, ids), c) == if c in ids then LastOf(course, ids, c) else []
  {
    match course.verdict(ids)
    case Abstains =>
      PlanOfSteps(course, ids, Held, c);
    case Chooses(native, governed, nativeTarget, governedTarget) =>
      if native == governed {
        LastOfOne(course, c, governed, governedTarget);
      } else {
        LastOfTwo(course, c, native, governed, nativeTarget, governedTarget);
      }
  }

  /** A selected candidate is evaluated twice and then goes the way of the verdict; no other one moves. */
  lemma PlanOfScript(course: Course, ids: seq<string>, c: string)
    requires Sound(course) && Distinct(ids)
    ensures Plan(ScriptOf(course, ids), c)
         == if c in ids then
              [StepTo(course, c, UpdateEvaluated), StepTo(course, c, SelectionEvaluated)] + LastOf(course, ids, c)
            else []
  {
    PlanOfSteps(course, ids, UpdateEvaluated, c);
    PlanOfSteps(course, ids, SelectionEvaluated, c);
    LastPlan(course, ids, c);
    PlanJoins(Steps(course, ids, SelectionEvaluated), LastSteps(course, ids), c);
    PlanJoins(Steps(course, ids, UpdateEvaluated), Steps(course, ids, SelectionEvaluated) + LastSteps(course, ids), c);
  }

  lemma {:induction false} NamesHavePlans(script: seq<Step>, c: string)
    ensures c in Names(script) <==> Plan(script, c) != []
  {
    if script == [] {
    } else {
      var front := script[..|script| - 1];
      NamesHavePlans(front, c);
      assert script == front + [script[|script| - 1]];
      assert Names(script) == Names(front) + {script[|script| - 1].candidate};
    }
  }

  lemma LastIsValid(course: Course, ids: seq<string>, c: string, last: seq<Step>)
    requires Sound(course) && last == LastOf(course, ids, c)
    ensures |last| <= 2 && (|last| == 1 ==> last[0].target == Held)
    ensures |last| == 2 ==> last[0].target == ReleaseEvaluated && last[1].target in Next(ReleaseEvaluated)
  {
  }

  lemma PlanIsValid(course: Course, ids: seq<string>, c: string)
    requires Sound(course) && Distinct(ids)
    ensures ValidPlan(Plan(ScriptOf(course, ids), c))
  {
    PlanOfScript(course, ids, c);
    var p, last := Plan(ScriptOf(course, ids), c), LastOf(course, ids, c);
    LastIsValid(course, ids, c, last);
    if c in ids {
      StepsAreValid(p, p[0], p[1], last);
    }
  }

  lemma StepsAreValid(p: seq<Step>, first: Step, second: Step, last: seq<Step>)
    requires p == [first, second] + last && |last| <= 2
    requires first.target == UpdateEvaluated && second.target == SelectionEvaluated
    requires |last| == 1 ==> last[0].target == Held
    requires |last| == 2 ==> last[0].target == ReleaseEvaluated && last[1].target in Next(ReleaseEvaluated)
    ensures ValidPlan(p)
  {
    forall i | 0 <= i < |p| ensures Planned(p, i) {
      if i >= 2 {
        assert p[i] == last[i - 2];
      }
    }
  }

  lemma ScriptIsValid(course: Course, ids: seq<string>)
    requires Sound(course) && Distinct(ids)
    ensures ValidScript(ScriptOf(course, ids))
    ensures forall c :: c in Names(ScriptOf(course, ids)) <==> c in ids
  {
    forall c: string ensures ValidPlan(Plan(ScriptOf(course, ids), c)) {
      PlanIsValid(course, ids, c);
    }
    forall c: string ensures c in Names(ScriptOf(course, ids)) <==> c in ids {
      PlanOfScript(course, ids, c);
      NamesHavePlans(ScriptOf(course, ids), c);
    }
  }

  // ---- The invariant ----

  function Silent(id: string): (r: Answer) { Fails }

  /** The store with every log cut back to its registration. */
  function Born(s: Store): (r: Store) {
    s.(events := map c | c in s.events && s.events[c] != [] :: [s.events[c][0]])
  }

  /** The rounds choose `ids` from what is on file, whatever moved since. */
  ghost predicate Settled(s: Store, cfg: Setting, ids: seq<string>)
    requires cfg.bundles != []
  {
    ProposeOf(Born(s), cfg, Silent, 0, [], 0) == Proposed(Reply(Born(s), 0, Done), ids)
  }

  /** The rounds raise at an unfinished candidate. */
  ghost predicate Broken(s: Store, cfg: Setting)
    requires cfg.bundles != []
  {
    ProposeOf(s, cfg, Silent, 0, [], 0).reply == Reply(s, 0, Raised(Incomplete))
  }

  ghost predicate Fresh(x: Experiment, cfg: Setting)
    requires cfg.bundles != []
  {
    && !x.outcome && x.files == map[]
    && (forall c | c in x.store.events :: Newborn(x.store.events[c]))
    && (Clean(x.store) || Broken(x.store, cfg))
  }

  ghost predicate Underway(x: Experiment, course: Course, ids: seq<string>)
    requires course.setting.bundles != []
  {
    && Distinct(ids) && |ids| == course.setting.count && Settled(x.store, course.setting, ids)
    && (forall c | c in x.store.events :: x.store.events[c] != [] && (c !in ids ==> Newborn(x.store.events[c])))
    && (forall c | c in ids :: c in x.store.events)
    && Ready(WorldOf(x), ScriptOf(course, ids), if x.outcome then |ScriptOf(course, ids)| else 0)
  }

  ghost predicate Inv(x: Experiment, course: Course)
    requires course.setting.bundles != []
  {
    && WellKept(x.store) && AllPaths(WorldOf(x))
    && if x.plan.None? then Fresh(x, course.setting) else Underway(x, course, x.plan.value)
  }

  function Start(): (r: Experiment) {
    Experiment(Store(map[], map[], map[]), map[], None, false)
  }

  lemma ReadySame(w: World, after: World, script: seq<Step>, j: nat)
    requires j <= |script| && Ready(w, script, j) && after.files == w.files
    requires forall c | c in w.events :: c in after.events && after.events[c] == w.events[c]
    ensures Ready(after, script, j)
  {
    forall c | c in Names(script) ensures Reached(after, script, j, c) {
      assert Reached(w, script, j, c);
    }
  }

  lemma BornGrows(s: Store, t: Store)
    requires WellKept(s) && Grew(s, t) && forall c | c in s.events :: s.events[c] != []
    ensures WellKept(Born(s)) && Over(Born(s), Born(t))
  {
  }

  lemma GrownPaths(x: Experiment, s: Store)
    requires AllPaths(WorldOf(x)) && Grew(x.store, s)
    ensures AllPaths(WorldOf(x.(store := s)))
  {
    forall c | c in s.events ensures s.events[c] != [] && Path(s.events[c]) {
      if c in x.store.events {
        assert WorldOf(x).events[c] == s.events[c];
      } else {
        assert Newborn(s.events[c]);
      }
    }
  }

  lemma AskedFresh(x: Experiment, cfg: Setting, updater: string -> Answer, n: nat)
    requires cfg.bundles != [] && WellKept(x.store) && x.plan.None? && Fresh(x, cfg)
    ensures Fresh(x.(store := ProposeOf(x.store, cfg, updater, 0, [], n).reply.store), cfg)
  {
    var r := ProposeOf(x.store, cfg, updater, 0, [], n).reply;
    RoundsOnlyAdd(x.store, cfg, updater, 0, [], n);
    if Clean(x.store) {
      UnfinishedIsRepeated(x.store, cfg, updater, 0, [], n, r.store, Silent, 0);
    } else {
      UnfinishedIsRepeated(x.store, cfg, Silent, 0, [], 0, x.store, updater, n);
    }
  }

  lemma AskedUnderway(x: Experiment, course: Course, ids: seq<string>, updater: string -> Answer, n: nat)
    requires Sound(course) && WellKept(x.store) && Underway(x, course, ids) && !x.outcome
    ensures Underway(x.(store := ProposeOf(x.store, course.setting, updater, 0, [], n).reply.store), course, ids)
  {
    var after := ProposeOf(x.store, course.setting, updater, 0, [], n).reply.store;
    RoundsOnlyAdd(x.store, course.setting, updater, 0, [], n);
    BornGrows(x.store, after);
    ChoiceIsRepeated(Born(x.store), course.setting, Silent, 0, [], 0, Born(after), Silent, 0);
    ReadySame(WorldOf(x), WorldOf(x.(store := after)), ScriptOf(course, ids), 0);
  }

  lemma AskedKeeps(x: Experiment, course: Course, updater: string -> Answer, n: nat)
    requires Sound(course) && Inv(x, course) && !x.outcome
    ensures Inv(x.(store := ProposeOf(x.store, course.setting, updater, 0, [], n).reply.store), course)
  {
    var after := ProposeOf(x.store, course.setting, updater, 0, [], n).reply.store;
    RoundsOnlyAdd(x.store, course.setting, updater, 0, [], n);
    GrownPaths(x, after);
    if x.plan.None? {
      AskedFresh(x, course.setting, updater, n);
    } else {
      AskedUnderway(x, course, x.plan.value, updater, n);
    }
  }

  lemma ReadyAtFirst(x: Experiment, course: Course, ids: seq<string>)
    requires Sound(course) && WellKept(x.store) && Fresh(x, course.setting)
    requires Distinct(ids) && Fit(x.store, ids, course.setting.count)
    ensures Ready(WorldOf(x), ScriptOf(course, ids), 0)
  {
    var script := ScriptOf(course, ids);
    ScriptIsValid(course, ids);
    forall c | c in Names(script) ensures Reached(WorldOf(x), script, 0, c) {
      assert c in ids && c in x.store.events && Newborn(x.store.events[c]);
      assert x.store.events[c] == Appended([], Checked) == LogOf(Plan(script, c), 0);
      assert At(WorldOf(x), c, Plan(script, c), 0) && script[..0] == [];
    }
  }

  lemma SettledAtFirst(s: Store, cfg: Setting, updater: string -> Answer, n: nat)
    requires cfg.bundles != [] && WellKept(s) && ProposeOf(s, cfg, updater, 0, [], n).reply.end == Done
    requires var t := ProposeOf(s, cfg, updater, 0, [], n).reply.store;
             WellKept(t) && forall c | c in t.events :: Newborn(t.events[c])
    ensures var r := ProposeOf(s, cfg, updater, 0, [], n); Settled(r.reply.store, cfg, r.selected)
  {
    var t := ProposeOf(s, cfg, updater, 0, [], n).reply.store;
    assert Over(t, Born(t));
    ChoiceIsRepeated(s, cfg, updater, 0, [], n, Born(t), Silent, 0);
  }

  /** Writing the plan that the rounds just chose. */
  lemma PlanKeeps(x: Experiment, course: Course, updater: string -> Answer, n: nat, r: Proposed)
    requires Sound(course) && Inv(x, course) && x.plan.None?
    requires r == ProposeOf(x.store, course.setting, updater, 0, [], n) && r.reply.end == Done
    ensures Inv(x.(store := r.reply.store, plan := Some(r.selected)), course)
  {
    var asked := x.(store := r.reply.store);
    var after := asked.(plan := Some(r.selected));
    AskedKeeps(x, course, updater, n);
    SelectedAreFit(x.store, course.setting, updater, 0, [], n);
    ReadyAtFirst(asked, course, r.selected);
    SettledAtFirst(x.store, course.setting, updater, n);
    assert WorldOf(after) == WorldOf(asked);
    assert Underway(after, course, r.selected);
  }

  /** Steps touch the logs of the candidates that they name, and no other. */
  lemma {:induction false} AttemptTouches(w: World, script: seq<Step>, n: nat, c: string)
    requires c !in Names(script)
    ensures var after := AttemptOf(w, script, n).0;
            (c in after.events <==> c in w.events) && (c in w.events ==> after.events[c] == w.events[c])
    decreases |script|
  {
    if script != [] && n > 1 && SealOf(w, script[0]).Success? && MoveOf(SealOf(w, script[0]).value, script[0]).Success? {
      assert script[0] in script && Names(script[1..]) <= Names(script);
      AttemptTouches(MoveOf(SealOf(w, script[0]).value, script[0]).value, script[1..], n - 2, c);
    }
  }

  lemma BornStays(s: Store, t: Store)
    requires t.shelf == s.shelf && t.events.Keys == s.events.Keys
    requires forall c | c in s.events :: s.events[c] != [] && s.events[c] <= t.events[c]
    ensures Born(t).events == Born(s).events && Born(t).shelf == Born(s).shelf
  {
  }

  /** Making steps keeps the invariant, wherever they are cut off; whoever gets to the end may seal. */
  lemma StepsKeep(x: Experiment, course: Course, script: seq<Step>, left: nat, r: (World, Option<Fault>))
    requires Sound(course) && Inv(x, course) && x.plan.Some? && !x.outcome && script == ScriptOf(course, x.plan.value)
    requires r == AttemptOf(WorldOf(x), script, left)
    ensures Inv(WithWorld(x, r.0), course) && NoneLost(WorldOf(x), r.0, script)
    ensures r.1.None? && left >= 2 * |script| ==> Inv(WithWorld(x, r.0).(outcome := true), course)
  {
    var ids, w := x.plan.value, WorldOf(x);
    ScriptIsValid(course, ids);
    assert script[0..] == script;
    AttemptKeepsReady(w, script, 0, left, r);
    PathsAreKept(w, script, left, r);
    var stepped := WithWorld(x, r.0);
    BornStays(x.store, stepped.store);
    assert Born(stepped.store) == Born(x.store);
    forall c | c in r.0.events && c !in ids ensures Newborn(r.0.events[c]) {
      AttemptTouches(w, script, left, c);
    }
    assert WorldOf(stepped) == r.0 && WorldOf(stepped.(outcome := true)) == r.0;
  }

  lemma ConcludedKeeps(x: Experiment, course: Course, script: seq<Step>, left: nat, r: (World, Option<Fault>))
    requires Sound(course) && Inv(x, course) && x.plan.Some? && !x.outcome && script == ScriptOf(course, x.plan.value)
    requires r == AttemptOf(WorldOf(x), script, left)
    ensures var after := Concluded(x, r, left > 2 * |script|).0; Inv(after, course) && after.plan == x.plan
  {
    StepsKeep(x, course, script, left, r);
  }

  lemma StepsOfKeeps(x: Experiment, course: Course, ids: seq<string>, n: nat)
    requires Sound(course) && Inv(x, course) && !x.outcome
    requires (x.plan.None? || x.plan.value == ids) ==> Inv(x.(plan := Some(ids)), course)
    ensures var after := StepsOf(x, course, ids, n).0;
            Inv(after, course) && (x.plan.Some? ==> after.plan == x.plan)
  {
    var planned := x.(plan := Some(ids));
    if (x.plan.Some? && x.plan.value != ids) || (x.plan.None? && n == 0) || !Materializes(x.store.events, ids) {
      assert StepsOf(x, course, ids, n).0 == x || StepsOf(x, course, ids, n).0 == planned;
    } else {
      var script, left := ScriptOf(course, ids), if x.plan.None? then n - 1 else n;
      ConcludedKeeps(planned, course, script, left, AttemptOf(WorldOf(planned), script, left));
    }
  }

  /** The invariant is kept by every run, cut off at whatever write. */
  lemma RunKeepsInv(x: Experiment, course: Course, updater: string -> Answer, n: nat)
    requires Sound(course) && Inv(x, course)
    ensures var after := RunOf(x, course, updater, n).0;
            Inv(after, course) && (x.plan.Some? ==> after.plan == x.plan) && (x.outcome ==> after == x)
  {
    if !x.outcome {
      AskedKeeps(x, course, updater, n);
      var r := ProposeOf(x.store, course.setting, updater, 0, [], n);
      if r.reply.end == Done {
        if x.plan.None? {
          PlanKeeps(x, course, updater, n, r);
        }
        StepsOfKeeps(x.(store := r.reply.store), course, r.selected, r.reply.left);
      }
    }
  }

  // ---- When a run raises ----

  /** A selected candidate stands at HELD, REJECTED or SHIP_RECOMMENDED. */
  ghost predicate Ended(x: Experiment, c: string) {
    x.plan.Some? && c in x.plan.value && CurrentOf(x.store.events, c).Some? && Ends(CurrentOf(x.store.events, c).value)
  }

  ghost predicate NoneEnded(x: Experiment) {
    forall c :: !Ended(x, c)
  }

  /** Where a selected candidate stands on its plan. */
  lemma StandsOnPlan(x: Experiment, course: Course, c: string)
    requires Sound(course) && Inv(x, course) && x.plan.Some? && c in x.plan.value
    ensures var script := ScriptOf(course, x.plan.value);
            var p, k := Plan(script, c), Made(WorldOf(x), c);
            && ValidPlan(p) && k <= |p| && |p| >= 2 && p[0].target == UpdateEvaluated
            && CurrentOf(x.store.events, c) == Some(StatusAt(p, k))
            && x.store.events[c][0].next == Checked && c in Names(script)
            && (x.outcome ==> k == |p|)
  {
    var script := ScriptOf(course, x.plan.value);
    ScriptIsValid(course, x.plan.value);
    PlanOfScript(course, x.plan.value, c);
    assert script[..|script|] == script;
    assert Reached(WorldOf(x), script, if x.outcome then |script| else 0, c);
    LogEnds(Plan(script, c), Made(WorldOf(x), c));
  }

  lemma EndIsLast(p: seq<Step>, k: nat)
    requires ValidPlan(p) && k <= |p| && Ends(StatusAt(p, k))
    ensures k == |p|
  {
    assert k > 0 ==> Planned(p, k - 1);
  }

  /** A candidate that has ended has no step ahead. */
  lemma EndedIsLast(x: Experiment, course: Course, c: string)
    requires Sound(course) && Inv(x, course) && Ended(x, c)
    ensures var p := Plan(ScriptOf(course, x.plan.value), c); Made(WorldOf(x), c) == |p| >= 2
  {
    StandsOnPlan(x, course, c);
    EndIsLast(Plan(ScriptOf(course, x.plan.value), c), Made(WorldOf(x), c));
  }

  lemma StuckIsEnded(x: Experiment, course: Course, c: string, p: seq<Step>)
    requires Sound(course) && Inv(x, course) && x.plan.Some? && c in x.plan.value
    requires p == Plan(ScriptOf(course, x.plan.value), c) && Stuck(p, Made(WorldOf(x), c))
    ensures Ended(x, c)
  {
    StandsOnPlan(x, course, c);
  }

  lemma TargetsOfPlan(course: Course, ids: seq<string>, c: string, k: nat)
    requires Sound(course) && Distinct(ids) && k <= |Plan(ScriptOf(course, ids), c)|
    ensures var s := StatusAt(Plan(ScriptOf(course, ids), c), k); s != Draft && s != RolledBack
  {
    PlanOfScript(course, ids, c);
    var last := LastOf(course, ids, c);
    var p := Plan(ScriptOf(course, ids), c);
    if k > 2 {
      assert p[k - 1] == last[k - 3];
    }
  }

  lemma SelectedStand(x: Experiment, course: Course)
    requires Sound(course) && Inv(x, course) && x.plan.Some?
    ensures forall c | c in x.plan.value ::
              CurrentOf(x.store.events, c) != Some(Draft) && x.store.events[c][0].next == Checked
  {
    forall c | c in x.plan.value
      ensures CurrentOf(x.store.events, c) != Some(Draft) && x.store.events[c][0].next == Checked
    {
      StandsOnPlan(x, course, c);
      TargetsOfPlan(course, x.plan.value, c, Made(WorldOf(x), c));
    }
  }

  lemma BornIsOver(s: Store, ids: seq<string>)
    requires WellKept(s)
    requires forall c | c in s.events :: s.events[c] != [] && (c !in ids ==> Newborn(s.events[c]))
    requires forall c | c in ids && c in s.events :: s.events[c][0].next == Checked && !Barred(CurrentOf(s.events, c))
    ensures WellKept(Born(s)) && Over(Born(s), s)
  {
  }

  /** As long as no selected candidate is barred, the rounds choose the plan again without a write. */
  lemma PlanIsChosenAgain(x: Experiment, course: Course, updater: string -> Answer, n: nat)
    requires Sound(course) && Inv(x, course) && x.plan.Some?
    requires forall c | c in x.plan.value :: !Barred(CurrentOf(x.store.events, c))
    ensures ProposeOf(x.store, course.setting, updater, 0, [], n) == Proposed(Reply(x.store, n, Done), x.plan.value)
    ensures Materializes(x.store.events, x.plan.value)
  {
    SelectedStand(x, course);
    BornIsOver(x.store, x.plan.value);
    ChoiceIsRepeated(Born(x.store), course.setting, Silent, 0, [], 0, x.store, updater, n);
  }

  /** Once a selected candidate is barred, the rounds never come to the plan again. */
  lemma PlanIsLost(x: Experiment, course: Course, updater: string -> Answer, n: nat, c: string)
    requires Sound(course) && Inv(x, course) && x.plan.Some? && c in x.plan.value
    requires Barred(CurrentOf(x.store.events, c))
    ensures var r := ProposeOf(x.store, course.setting, updater, 0, [], n);
            r.reply.end == Done ==> r.selected != x.plan.value
  {
    assert c in x.store.events;
    RoundsOnlyAdd(x.store, course.setting, updater, 0, [], n);
    SelectedAreFit(x.store, course.setting, updater, 0, [], n);
  }

  /** A run over a sealed plan of which nothing is barred goes straight to its steps. */
  lemma RunIsSteps(x: Experiment, course: Course, updater: string -> Answer, n: nat)
    requires Sound(course) && Inv(x, course) && x.plan.Some? && !x.outcome
    requires forall c | c in x.plan.value :: !Barred(CurrentOf(x.store.events, c))
    ensures var script := ScriptOf(course, x.plan.value);
            RunOf(x, course, updater, n) == Concluded(x, AttemptOf(WorldOf(x), script, n), n > 2 * |script|)
  {
    PlanIsChosenAgain(x, course, updater, n);
    assert x.(store := x.store) == x && x.(plan := Some(x.plan.value)) == x;
  }

  lemma NoneBarred(x: Experiment, course: Course)
    requires Sound(course) && Inv(x, course) && x.plan.Some? && NoneEnded(x)
    ensures forall c | c in x.plan.value :: !Barred(CurrentOf(x.store.events, c))
  {
    forall c | c in x.plan.value ensures !Barred(CurrentOf(x.store.events, c)) {
      StandsOnPlan(x, course, c);
      assert !Ended(x, c);
      TargetsOfPlan(course, x.plan.value, c, Made(WorldOf(x), c));
    }
  }

  lemma NoneStuck(x: Experiment, course: Course, script: seq<Step>)
    requires Sound(course) && Inv(x, course) && x.plan.Some? && NoneEnded(x) && script == ScriptOf(course, x.plan.value)
    ensures ValidScript(script) && Clear(WorldOf(x), script, 0)
  {
    ScriptIsValid(course, x.plan.value);
    forall c ensures !StuckAt(WorldOf(x), script, c) {
      if StuckAt(WorldOf(x), script, c) {
        StuckIsEnded(x, course, c, Plan(script, c));
      }
    }
  }

  lemma ClearSteps(x: Experiment, course: Course, script: seq<Step>, n: nat)
    requires Sound(course) && Inv(x, course) && x.plan.Some? && !x.outcome && NoneEnded(x)
    requires script == ScriptOf(course, x.plan.value)
    ensures AttemptOf(WorldOf(x), script, n).1.None?
  {
    NoneStuck(x, course, script);
    assert script[0..] == script;
    ClearAttempt(WorldOf(x), script, 0, n, AttemptOf(WorldOf(x), script, n));
  }

  lemma ClearRun(x: Experiment, course: Course, updater: string -> Answer, n: nat)
    requires Sound(course) && Inv(x, course) && x.plan.Some? && NoneEnded(x)
    ensures !RunOf(x, course, updater, n).1.Raised?
    ensures !x.outcome && n > 2 * |ScriptOf(course, x.plan.value)| ==> RunOf(x, course, updater, n).0.outcome
  {
    if !x.outcome {
      var script := ScriptOf(course, x.plan.value);
      NoneBarred(x, course);
      RunIsSteps(x, course, updater, n);
      ClearSteps(x, course, script, n);
    }
  }

  lemma EndedRun(x: Experiment, course: Course, updater: string -> Answer, n: nat, c: string)
    requires Sound(course) && Inv(x, course) && !x.outcome && Ended(x, c)
    ensures RunOf(x, course, updater, n).1 != Done && !RunOf(x, course, updater, n).0.outcome
    ensures Ended(RunOf(x, course, updater, n).0, c)
  {
    RunKeepsInv(x, course, updater, n);
    if d :| d in x.plan.value && Barred(CurrentOf(x.store.events, d)) {
      PlanIsLost(x, course, updater, n, d);
      EndedWithout(x, course, updater, n, c);
    } else {
      EndedSteps(x, course, updater, n, c);
    }
  }

  /** Where the rounds do not lead to the plan, no selected candidate moves. */
  lemma EndedWithout(x: Experiment, course: Course, updater: string -> Answer, n: nat, c: string)
    requires Sound(course) && Inv(x, course) && !x.outcome && Ended(x, c)
    requires var r := ProposeOf(x.store, course.setting, updater, 0, [], n);
             r.reply.end == Done ==> r.selected != x.plan.value
    ensures RunOf(x, course, updater, n).1 != Done && !RunOf(x, course, updater, n).0.outcome
    ensures Ended(RunOf(x, course, updater, n).0, c)
  {
    RoundsOnlyAdd(x.store, course.setting, updater, 0, [], n);
  }

  lemma EndedSteps(x: Experiment, course: Course, updater: string -> Answer, n: nat, c: string)
    requires Sound(course) && Inv(x, course) && !x.outcome && Ended(x, c)
    requires forall d | d in x.plan.value :: !Barred(CurrentOf(x.store.events, d))
    ensures RunOf(x, course, updater, n).1 != Done && !RunOf(x, course, updater, n).0.outcome
    ensures Ended(RunOf(x, course, updater, n).0, c)
  {
    var script := ScriptOf(course, x.plan.value);
    var r := AttemptOf(WorldOf(x), script, n);
    RunIsSteps(x, course, updater, n);
    ScriptIsValid(course, x.plan.value);
    EndedIsLast(x, course, c);
    StandsOnPlan(x, course, c);
    assert script[0..] == script && script[..0] == [];
    assert StuckAt(WorldOf(x), script, c);
    if n >= 2 * |script| {
      StuckAttempt(WorldOf(x), script, 0, n, c, r);
    }
    StepsKeep(x, course, script, n, r);
    StandsOnPlan(WithWorld(x, r.0), course, c);
  }

  /** The exact boundary over a sealed plan: a run that is not cut off raises if and only if the outcome is
      not sealed and some selected candidate already stands at HELD, REJECTED or SHIP_RECOMMENDED. */
  lemma RunRaisesExactlyWhenEnded(x: Experiment, course: Course, updater: string -> Answer, n: nat)
    requires Sound(course) && Inv(x, course) && x.plan.Some? && RunOf(x, course, updater, n).1 != Cut
    ensures RunOf(x, course, updater, n).1.Raised? <==> !x.outcome && exists c :: Ended(x, c)
  {
    if NoneEnded(x) {
      ClearRun(x, course, updater, n);
    } else if !x.outcome {
      var c :| Ended(x, c);
      EndedRun(x, course, updater, n, c);
    }
  }

  /** A run with this many writes is not cut off. */
  lemma EnoughWrites(x: Experiment, course: Course, updater: string -> Answer, n: nat, script: seq<Step>)
    requires Sound(course) && Inv(x, course) && x.plan.Some? && script == ScriptOf(course, x.plan.value)
    requires n > 12 * course.setting.budget + 2 * |script|
    ensures RunOf(x, course, updater, n).1 != Cut
  {
    RoundWrites(x.store, course.setting, updater, 0, [], n);
  }

  /** An unfinished candidate makes every run raise without a write. */
  lemma UnfinishedRaises(x: Experiment, course: Course, updater: string -> Answer, n: nat)
    requires Sound(course) && Inv(x, course) && x.plan.None? && !Clean(x.store)
    ensures RunOf(x, course, updater, n) == (x, Raised(Incomplete))
  {
    UnfinishedIsRepeated(x.store, course.setting, Silent, 0, [], 0, x.store, updater, n);
    assert x.(store := x.store) == x;
  }

  /** Nothing raises behind the plan, wherever the run is cut off. */
  ghost predicate MovesOn(x: Experiment, course: Course) {
    && x.plan.Some? && Materializes(x.store.events, x.plan.value)
    && forall n: nat :: AttemptOf(WorldOf(x), ScriptOf(course, x.plan.value), n).1.None?
  }

  /** Before a plan is written, a run raises if and only if its rounds do. */
  lemma FirstRunRaisesInRounds(x: Experiment, course: Course, updater: string -> Answer, n: nat, r: Proposed)
    requires Sound(course) && Inv(x, course) && x.plan.None?
    requires r == ProposeOf(x.store, course.setting, updater, 0, [], n)
    ensures RunOf(x, course, updater, n).1.Raised? <==> r.reply.end.Raised?
  {
    assert !x.outcome;
    if r.reply.end == Done && r.reply.left > 0 {
      assert MovesOn(WithPlan(x, r), course) by {
        NewlyMoves(x, course, updater, n, r);
      }
      FirstUnfolds(x, course, updater, n, r);
    }
  }

  lemma NewlyMoves(x: Experiment, course: Course, updater: string -> Answer, n: nat, r: Proposed)
    requires Sound(course) && x.plan.None?
    requires r == ProposeOf(x.store, course.setting, updater, 0, [], n) && r.reply.end == Done
    ensures Inv(x, course) ==> MovesOn(WithPlan(x, r), course)
  {
    assert Inv(x, course) ==> Inv(WithPlan(x, r), course) && NoneEnded(WithPlan(x, r)) by {
      NewlyPlanned(x, course, updater, n, r);
    }
    PlannedMoves(WithPlan(x, r), course);
  }

  /** What a run goes on with once its rounds came to `r`. */
  function WithPlan(x: Experiment, r: Proposed): (planned: Experiment) {
    x.(store := r.reply.store, plan := Some(r.selected))
  }

  lemma NewlyPlanned(x: Experiment, course: Course, updater: string -> Answer, n: nat, r: Proposed)
    requires Sound(course) && x.plan.None?
    requires r == ProposeOf(x.store, course.setting, updater, 0, [], n) && r.reply.end == Done
    ensures Inv(x, course) ==> Inv(WithPlan(x, r), course) && NoneEnded(WithPlan(x, r))
  {
    if Inv(x, course) {
      PlanKeeps(x, course, updater, n, r);
      AskedKeeps(x, course, updater, n);
      SelectedAreFit(x.store, course.setting, updater, 0, [], n);
      forall c ensures !Ended(WithPlan(x, r), c) {
        if c in r.selected && c in r.reply.store.events {
          assert Newborn(r.reply.store.events[c]);
        }
      }
    }
  }

  lemma FirstUnfolds(x: Experiment, course: Course, updater: string -> Answer, n: nat, r: Proposed)
    requires course.setting.bundles != [] && x.plan.None? && !x.outcome
    requires r == ProposeOf(x.store, course.setting, updater, 0, [], n) && r.reply.end == Done && r.reply.left > 0
    requires MovesOn(WithPlan(x, r), course)
    ensures !RunOf(x, course, updater, n).1.Raised?
  {
    assert x.(store := r.reply.store).(plan := Some(r.selected)) == WithPlan(x, r);
  }

  lemma PlannedMoves(x: Experiment, course: Course)
    requires Sound(course) && x.plan.Some?
    ensures Inv(x, course) && NoneEnded(x) && !x.outcome ==> MovesOn(x, course)
  {
    if Inv(x, course) && NoneEnded(x) && !x.outcome {
      NoneBarred(x, course);
      PlanIsChosenAgain(x, course, Silent, 0);
      forall n: nat ensures AttemptOf(WorldOf(x), ScriptOf(course, x.plan.value), n).1.None? {
        ClearSteps(x, course, ScriptOf(course, x.plan.value), n);
      }
    }
  }

  // ---- Histories ----

  /** One run: what the updater would say, and after how many writes the run is cut off. */
  datatype Go = Go(updater: string -> Answer, writes: nat)

  function Runs(x: Experiment, course: Course, gos: seq<Go>): (r: Experiment)
    requires course.setting.bundles != []
  {
    if gos == [] then x
    else
      var last := gos[|gos| - 1];
      RunOf(Runs(x, course, gos[..|gos| - 1]), course, last.updater, last.writes).0
  }

  /** The invariant holds in every state that runs, crashes and restarts reach from an empty experiment. */
  lemma {:induction false} RunsKeepInv(course: Course, gos: seq<Go>)
    requires Sound(course)
    ensures Inv(Runs(Start(), course, gos), course)
  {
    if gos == [] {
    } else {
      var last := gos[|gos| - 1];
      RunsKeepInv(course, gos[..|gos| - 1]);
      RunKeepsInv(Runs(Start(), course, gos[..|gos| - 1]), course, last.updater, last.writes);
    }
  }

  /** In every such state the log of a selected candidate is a path without repeats, at most five events
      long; once the outcome is sealed it is the whole of the candidate's plan. */
  lemma SelectedLogs(x: Experiment, course: Course, c: string)
    requires Sound(course) && Inv(x, course) && x.plan.Some? && c in x.plan.value
    ensures var log, p := x.store.events[c], Plan(ScriptOf(course, x.plan.value), c);
            && Path(log) && 1 <= |log| <= 5 && (forall i, j | 0 <= i < j < |log| :: log[i].next != log[j].next)
            && (x.outcome ==> log == LogOf(p, |p|))
  {
    var log, script := x.store.events[c], ScriptOf(course, x.plan.value);
    StandsOnPlan(x, course, c);
    PlanOfScript(course, x.plan.value, c);
    assert WorldOf(x).events[c] == log;
    assert Reached(WorldOf(x), script, if x.outcome then |script| else 0, c);
    PathIsBounded(log);
  }

  /** Once a selected candidate has ended without an outcome, none is ever sealed. */
  lemma {:induction false} EndedForever(x: Experiment, course: Course, gos: seq<Go>, c: string)
    requires Sound(course) && Inv(x, course) && !x.outcome && Ended(x, c)
    ensures var after := Runs(x, course, gos); Inv(after, course) && !after.outcome && Ended(after, c)
  {
    if gos == [] {
    } else {
      var rest, last := gos[..|gos| - 1], gos[|gos| - 1];
      EndedForever(x, course, rest, c);
      EndedRun(Runs(x, course, rest), course, last.updater, last.writes, c);
      RunKeepsInv(Runs(x, course, rest), course, last.updater, last.writes);
    }
  }

  lemma OneRun(x: Experiment, course: Course, go: Go)
    requires course.setting.bundles != []
    ensures Runs(x, course, [go]) == RunOf(x, course, go.updater, go.writes).0
  {
    assert [go][..0] == [];
  }

  /** With a plan and no outcome, some history seals an outcome if and only if no selected candidate has
      ended yet; one run that is not cut off is then enough. */
  lemma RecoverableExactlyWhenNoneEnded(x: Experiment, course: Course)
    requires Sound(course) && Inv(x, course) && x.plan.Some? && !x.outcome
    ensures NoneEnded(x) <==> exists gos :: Runs(x, course, gos).outcome
  {
    if NoneEnded(x) {
      var go := Go(Silent, 2 * |ScriptOf(course, x.plan.value)| + 1);
      ClearRun(x, course, go.updater, go.writes);
      OneRun(x, course, go);
    } else {
      var c :| Ended(x, c);
      forall gos ensures !Runs(x, course, gos).outcome {
        EndedForever(x, course, gos, c);
      }
    }
  }

  /** Nothing that the updater may say gets an experiment past an unfinished candidate. */
  lemma {:induction false} UnfinishedForever(x: Experiment, course: Course, gos: seq<Go>)
    requires Sound(course) && Inv(x, course) && x.plan.None? && !Clean(x.store)
    ensures Runs(x, course, gos) == x
  {
    if gos == [] {
    } else {
      var rest, last := gos[..|gos| - 1], gos[|gos| - 1];
      UnfinishedForever(x, course, rest);
      UnfinishedRaises(x, course, last.updater, last.writes);
    }
  }

  /** Some candidate is at its end once all steps are made. */
  lemma WhoEnds(x: Experiment, course: Course) returns (c: string)
    requires Sound(course) && x.plan.Some? && Inv(x.(outcome := true), course)
    ensures Ended(x, c) && (course.verdict(x.plan.value) == Abstains ==> CurrentOf(x.store.events, c) == Some(Held))
  {
    var ids := x.plan.value;
    c := match course.verdict(ids) case Abstains => ids[0] case Chooses(_, governed, _, _) => governed;
    StandsOnPlan(x.(outcome := true), course, c);
    PlanOfScript(course, ids, c);
    var p := Plan(ScriptOf(course, ids), c);
    assert p[|p| - 1].target == LastOf(course, ids, c)[|p| - 3].target;
  }

  lemma CutBehindSteps(x: Experiment, course: Course, updater: string -> Answer, n: nat, crashed: (Experiment, End))
    returns (c: string)
    requires Sound(course) && Inv(x, course) && x.plan.Some? && !x.outcome && NoneEnded(x)
    requires n == 2 * |ScriptOf(course, x.plan.value)| && crashed == RunOf(x, course, updater, n)
    ensures crashed.1 == Cut && !crashed.0.outcome && Inv(crashed.0, course) && Ended(crashed.0, c)
    ensures course.verdict(x.plan.value) == Abstains ==> CurrentOf(crashed.0.store.events, c) == Some(Held)
  {
    var script := ScriptOf(course, x.plan.value);
    var r := AttemptOf(WorldOf(x), script, n);
    ClearRun(x, course, updater, n);
    NoneBarred(x, course);
    RunIsSteps(x, course, updater, n);
    StepsKeep(x, course, script, n, r);
    assert crashed.0 == WithWorld(x, r.0);
    c := WhoEnds(crashed.0, course);
  }

  /** No verdict is safe from a crash: a run that dies between its last transition and the outcome leaves
      an ended candidate, and no later run seals the outcome. */
  lemma EveryVerdictCanBlock(x: Experiment, course: Course, updater: string -> Answer, gos: seq<Go>)
    requires Sound(course) && Inv(x, course) && x.plan.Some? && !x.outcome && NoneEnded(x)
    ensures var crashed := RunOf(x, course, updater, 2 * |ScriptOf(course, x.plan.value)|);
            crashed.1 == Cut && !crashed.0.outcome && !Runs(crashed.0, course, gos).outcome
  {
    var n := 2 * |ScriptOf(course, x.plan.value)|;
    var c := CutBehindSteps(x, course, updater, n, RunOf(x, course, updater, n));
    EndedForever(RunOf(x, course, updater, n).0, course, gos, c);
  }

  // ---- A Selection HOLD that is lost ----

  /** Three candidates, two asset families, and a selector that abstains. */
  function Holding(): (r: Course) {
    Course(Setting("parent", ["bundle"], 3, (_, k) => if k == 0 then "a" else if k == 1 then "b" else "c", 3, 2, false),
           _ => Abstains, (c, _) => c)
  }

  function Passing(id: string): (r: Answer) {
    Emits(Check(Pass, {"f", "g"}, true, None))
  }

  /** The candidates `ids`, registered one after another. */
  function Enrolled(ids: seq<string>): (r: Store) {
    if ids == [] then Store(map[], map[], map[])
    else
      var front, last := Enrolled(ids[..|ids| - 1]), ids[|ids| - 1];
      Store(front.events[last := Appended([], Checked)],
            front.patches[last := Patch("parent", "bundle", None)],
            front.shelf[last := Kept({"f", "g"})])
  }

  lemma {:induction false} EnrolledIds(ids: seq<string>)
    ensures var s := Enrolled(ids);
            && (forall id :: id in s.shelf <==> id in ids) && (forall id :: id in s.events <==> id in ids)
            && (forall id | id in ids :: s.shelf[id] == Kept({"f", "g"}) && s.events[id] == Appended([], Checked))
  {
    if ids == [] {
    } else {
      EnrolledIds(ids[..|ids| - 1]);
      assert ids == ids[..|ids| - 1] + [ids[|ids| - 1]];
    }
  }

  lemma HoldingRounds()
    ensures RoundOf(Holding().setting, 0) == ["a"]
    ensures RoundOf(Holding().setting, 1) == ["a", "b"]
    ensures RoundOf(Holding().setting, 2) == ["a", "b", "c"]
  {
    assert Asked(["bundle"], 1, "bundle") == 1;
    assert Asked(["bundle"], 2, "bundle") == 2;
    assert Asked(["bundle"], 3, "bundle") == 3;
  }

  lemma AskNew(ids: seq<string>, id: string, n: nat)
    requires id !in ids && n >= 2
    ensures AskOf(Enrolled(ids), Holding().setting, "bundle", id, Passing(id), n)
         == Reply(Enrolled(ids + [id]), n - 2, Done)
  {
    EnrolledIds(ids);
    assert (ids + [id])[..|ids|] == ids;
  }

  lemma {:induction false} AskKnownAndNew(ids: seq<string>, known: seq<string>, id: string, n: nat)
    requires (forall k | k in known :: k in ids) && id !in ids && n >= 2
    ensures AskAllOf(Enrolled(ids), Holding().setting, "bundle", known + [id], Passing, n)
         == Reply(Enrolled(ids + [id]), n - 2, Done)
    ensures Gather(Enrolled(ids + [id]).shelf, ids, known + [id]) == ids + [id]
    decreases |known|
  {
    EnrolledIds(ids);
    EnrolledIds(ids + [id]);
    if known == [] {
      AskNew(ids, id, n);
      assert [id][1..] == [];
    } else {
      assert known[0] in known && (known + [id])[1..] == known[1..] + [id];
      AskKnownAndNew(ids, known[1..], id, n);
    }
  }

  lemma {:induction false} EnrolledExecutable(all: seq<string>, ids: seq<string>)
    requires forall id | id in ids :: id in all
    ensures var r := Executable(Enrolled(all), ids);
            |r| == |ids| && forall p | p in r :: p.families == {"f", "g"}
  {
    if ids == [] {
    } else {
      EnrolledIds(all);
      assert ids[0] in ids;
      EnrolledExecutable(all, ids[1..]);
    }
  }

  lemma {:induction false} SomeQualify(all: seq<seq<DiverseSubset.Proposal>>, minFamilies: nat,
                                       s: seq<DiverseSubset.Proposal>)
    requires s in all && DiverseSubset.Qualifies(s, minFamilies)
    ensures DiverseSubset.FirstQualifying(all, minFamilies).Some?
  {
    if s != all[0] {
      SomeQualify(all[1..], minFamilies, s);
    }
  }

  lemma ThreeQualify(executable: seq<DiverseSubset.Proposal>)
    requires |executable| == 3 && forall p | p in executable :: p.families == {"f", "g"}
    ensures DiverseSubset.Guard(executable, 3, 2) && DiverseSubset.Chosen(executable, 3, 2).Some?
  {
    assert executable[0] in executable && "f" in executable[0].families && "g" in executable[0].families;
    SubsetSize({"f", "g"}, DiverseSubset.Families(executable));
    DiverseSubset.PossibleExactlyUnderGuard(executable, 3, 2);
    var s :| s in DiverseSubset.Combinations(executable, 3) && DiverseSubset.Qualifies(s, 2);
    SomeQualify(DiverseSubset.Combinations(executable, 3), 2, s);
  }

  /** Below three candidates the rounds go on; with three they choose. */
  lemma HoldingChoice(ids: seq<string>)
    requires 0 < |ids| <= 3
    ensures ChoiceOf(Enrolled(ids), Holding().setting, ids).Of? <==> |ids| == 3
    ensures ChoiceOf(Enrolled(ids), Holding().setting, ids) == Again <==> |ids| < 3
  {
    EnrolledExecutable(ids, ids);
    if |ids| == 3 {
      ThreeQualify(Executable(Enrolled(ids), ids));
    }
  }

  /** The candidates of the first `i` rounds. */
  function FirstIds(i: nat): (r: seq<string>)
    requires i <= 3
  {
    ["a", "b", "c"][..i]
  }

  lemma HoldingAsks(i: nat, n: nat)
    requires i < 3 && n >= 2
    ensures AskRound(Enrolled(FirstIds(i)), Holding().setting, Passing, i, n)
         == Reply(Enrolled(FirstIds(i + 1)), n - 2, Done)
    ensures Gather(Enrolled(FirstIds(i + 1)).shelf, FirstIds(i), RoundOf(Holding().setting, i)) == FirstIds(i + 1)
  {
    HoldingRounds();
    var id := ["a", "b", "c"][i];
    assert FirstIds(i) + [id] == FirstIds(i + 1) == RoundOf(Holding().setting, i);
    AskKnownAndNew(FirstIds(i), FirstIds(i), id, n);
  }

  /** Round `i` over a store `s` comes to `t` in two writes. */
  ghost predicate Goes(cfg: Setting, i: nat, s: Store, ids: seq<string>, n: nat, t: Store, more: seq<string>)
    requires cfg.bundles != []
  {
    && n >= 2 && i < cfg.budget && AskRound(s, cfg, Passing, i, n) == Reply(t, n - 2, Done)
    && more == Gather(t.shelf, ids, RoundOf(cfg, i))
  }

  lemma RoundGoesOn(cfg: Setting, i: nat, s: Store, ids: seq<string>, n: nat, t: Store, more: seq<string>, r: Proposed)
    requires cfg.bundles != [] && Goes(cfg, i, s, ids, n, t, more) && ChoiceOf(t, cfg, more) == Again
    requires r == ProposeOf(t, cfg, Passing, i + 1, more, n - 2)
    ensures r == ProposeOf(s, cfg, Passing, i, ids, n)
  {
  }

  lemma RoundChooses(cfg: Setting, i: nat, s: Store, ids: seq<string>, n: nat, t: Store, more: seq<string>)
    requires cfg.bundles != [] && Goes(cfg, i, s, ids, n, t, more) && ChoiceOf(t, cfg, more).Of?
    ensures ProposeOf(s, cfg, Passing, i, ids, n).reply == Reply(t, n - 2, Done)
  {
  }

  lemma HoldingRound(cfg: Setting, i: nat, s: Store, ids: seq<string>, n: nat, t: Store, more: seq<string>)
    requires cfg == Holding().setting && i < 3 && n >= 2
    requires ids == FirstIds(i) && s == Enrolled(ids) && more == FirstIds(i + 1) && t == Enrolled(more)
    ensures cfg.bundles != [] && Goes(cfg, i, s, ids, n, t, more)
    ensures if i < 2 then ChoiceOf(t, cfg, more) == Again else ChoiceOf(t, cfg, more).Of?
  {
    HoldingAsks(i, n);
    HoldingChoice(more);
  }

  lemma HoldingThird(cfg: Setting, s: Store, ids: seq<string>, n: nat, t: Store, more: seq<string>)
    requires cfg == Holding().setting && n >= 2
    requires ids == FirstIds(2) && s == Enrolled(ids) && more == FirstIds(3) && t == Enrolled(more)
    ensures cfg.bundles != [] && ProposeOf(s, cfg, Passing, 2, ids, n).reply == Reply(t, n - 2, Done)
  {
    HoldingRound(cfg, 2, s, ids, n, t, more);
    RoundChooses(cfg, 2, s, ids, n, t, more);
  }

  lemma HoldingBefore(cfg: Setting, i: nat, s: Store, ids: seq<string>, n: nat, t: Store, more: seq<string>, r: Proposed)
    requires cfg == Holding().setting && i < 2 && n >= 2
    requires ids == FirstIds(i) && s == Enrolled(ids) && more == FirstIds(i + 1) && t == Enrolled(more)
    requires r == ProposeOf(t, cfg, Passing, i + 1, more, n - 2)
    ensures r == ProposeOf(s, cfg, Passing, i, ids, n)
  {
    HoldingRound(cfg, i, s, ids, n, t, more);
    RoundGoesOn(cfg, i, s, ids, n, t, more, r);
  }

  /** Three rounds register three candidates in two writes each, and choose them. */
  lemma HoldingProposes(cfg: Setting, s: seq<Store>, ids: seq<seq<string>>, n: nat, r: Proposed)
    requires cfg == Holding().setting && n >= 6 && |s| == |ids| == 4
    requires forall i | 0 <= i <= 3 :: ids[i] == FirstIds(i) && s[i] == Enrolled(ids[i])
    requires r == ProposeOf(s[2], cfg, Passing, 2, ids[2], n - 4)
    ensures r.reply == Reply(s[3], n - 6, Done) && r == ProposeOf(s[0], cfg, Passing, 0, ids[0], n)
  {
    HoldingThird(cfg, s[2], ids[2], n - 4, s[3], ids[3]);
    HoldingBefore(cfg, 1, s[1], ids[1], n - 2, s[2], ids[2], r);
    HoldingBefore(cfg, 0, s[0], ids[0], n, s[1], ids[1], r);
  }

  lemma HoldingStarts(n: nat)
    requires n >= 6
    ensures var r := ProposeOf(Start().store, Holding().setting, Passing, 0, [], n).reply;
            r.end == Done && r.left == n - 6
  {
    var cfg, ids := Holding().setting, seq(4, i requires 0 <= i < 4 => FirstIds(i));
    var s := seq(4, i requires 0 <= i < 4 => Enrolled(ids[i]));
    HoldingProposes(cfg, s, ids, n, ProposeOf(s[2], cfg, Passing, 2, ids[2], n - 4));
    assert ids[0] == [] && s[0] == Start().store;
  }

  lemma HoldingPlanned(x: Experiment)
    requires x == RunOf(Start(), Holding(), Passing, 7).0
    ensures Sound(Holding()) && Inv(x, Holding()) && x.plan.Some? && !x.outcome && NoneEnded(x)
  {
    var r := ProposeOf(Start().store, Holding().setting, Passing, 0, [], 7);
    HoldingStarts(7);
    RunsKeepInv(Holding(), []);
    NewlyPlanned(Start(), Holding(), Passing, 7, r);
    NewlyMoves(Start(), Holding(), Passing, 7, r);
    assert Start().(store := r.reply.store).(plan := Some(r.selected)) == WithPlan(Start(), r);
  }

  /** A Selection HOLD cannot be resumed once a candidate was moved to HELD: an experiment that crashes
      behind its plan and again before its outcome file never gets an outcome. */
  lemma HoldCanBeLost(gos: seq<Go>)
    ensures var planned := RunOf(Start(), Holding(), Passing, 7).0;
            && planned.plan.Some?
            && var crashed := RunOf(planned, Holding(), Passing, 2 * |ScriptOf(Holding(), planned.plan.value)|).0;
               && (exists c :: Ended(crashed, c) && CurrentOf(crashed.store.events, c) == Some(Held))
               && !crashed.outcome && !Runs(crashed, Holding(), gos).outcome
  {
    var planned := RunOf(Start(), Holding(), Passing, 7).0;
    HoldingPlanned(planned);
    var n := 2 * |ScriptOf(Holding(), planned.plan.value)|;
    var c := CutBehindSteps(planned, Holding(), Passing, n, RunOf(planned, Holding(), Passing, n));
    EndedForever(RunOf(planned, Holding(), Passing, n).0, Holding(), gos, c);
  }
}
