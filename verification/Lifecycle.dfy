/** Candidate lifecycle logs (agentloopgate/candidates/registry.py) and the orchestrator steps that
    advance them over crashes and restarts (agentloopgate/experiment/orchestrator.py, _advance).  Whole runs
    are in ExperimentRun. */
module Lifecycle {
  import opened Common

  datatype Status =
    | Draft | Registered | Checked | UpdateEvaluated | SelectionEvaluated | ReleaseEvaluated
    | ShipRecommended | Shipped | Held | Rejected | RolledBack

  /** The transition table of the registry. */
  function Next(s: Status): (r: set<Status>) {
    match s
    case Draft => {Registered, Rejected}
    case Registered => {Checked, Held, Rejected}
    case Checked => {UpdateEvaluated, Held, Rejected}
    case UpdateEvaluated => {SelectionEvaluated, Held, Rejected}
    case SelectionEvaluated => {ReleaseEvaluated, Held, Rejected}
    case ReleaseEvaluated => {ShipRecommended, Held, Rejected}
    case ShipRecommended => {Shipped, Held}
    case Shipped => {RolledBack}
    case Held => {}
    case Rejected => {}
    case RolledBack => {}
  }

  datatype Event = Event(ordinal: nat, previous: Option<Status>, next: Status)

  datatype Fault =
    | NotRegistered | InvalidTransition | Conflict | NoHeldEvidence | StageGap
    | AlreadyExists | RejectedByCheck | Unresolved

  datatype Disposition = Pass | Hold | Reject

  /** What the mutation checker says of a patch; `rated` says that it resolved a risk tier. */
  datatype Check = Check(disposition: Disposition, families: set<string>, rated: bool, fingerprint: Option<string>)

  /** What makes two candidates semantic duplicates. */
  datatype Patch = Patch(parent: string, bundle: string, fingerprint: Option<string>)

  /** The event directories of all candidates and the write-once lifecycle files of the experiment. */
  datatype World = World(events: map<string, seq<Event>>, files: map<(string, Status), string>)

  /** One call of _advance: the candidate, the status to reach, and the evidence that it cites. */
  datatype Step = Step(candidate: string, target: Status, source: string)

  // ---- The operations ----

  function CurrentOf(events: map<string, seq<Event>>, candidate: string): (r: Option<Status>) {
    if candidate !in events || events[candidate] == [] then None
    else Some(events[candidate][|events[candidate]| - 1].next)
  }

  function Appended(log: seq<Event>, next: Status): (r: seq<Event>) {
    log + [Event(|log| + 1, if log == [] then None else Some(log[|log| - 1].next), next)]
  }

  predicate IsProgress(s: Status) {
    s == Checked || s == UpdateEvaluated || s == SelectionEvaluated || s == ReleaseEvaluated
  }

  function Stage(s: Status): (r: nat)
    requires IsProgress(s)
  {
    match s case Checked => 0 case UpdateEvaluated => 1 case SelectionEvaluated => 2 case _ => 3
  }

  /** The first half of _advance: the evidence file of the target status, written at most once. */
  function SealOf(w: World, step: Step): (r: Result<World, Fault>) {
    var key := (step.candidate, step.target);
    if key !in w.files then Success(w.(files := w.files[key := step.source]))
    else if w.files[key] == step.source then Success(w)
    else Failure(Conflict)
  }

  function TransitionOf(events: map<string, seq<Event>>, candidate: string, next: Status)
    : (r: Result<map<string, seq<Event>>, Fault>)
  {
    var current := CurrentOf(events, candidate);
    if current.None? then Failure(NotRegistered)
    else if next !in Next(current.value) then Failure(InvalidTransition)
    else Success(events[candidate := Appended(events[candidate], next)])
  }

  datatype Move = Stay | Append | Fail(fault: Fault)

  /** What the second half of _advance does at a status; `held` says that HELD evidence is sealed. */
  function MoveFrom(current: Status, target: Status, held: bool): (r: Move) {
    if current == target then Stay
    else if current == Held && IsProgress(target) then if held then Stay else Fail(NoHeldEvidence)
    else if IsProgress(current) && IsProgress(target) && Stage(current) > Stage(target) then Stay
    else if IsProgress(current) && IsProgress(target) && Stage(target) != Stage(current) + 1 then Fail(StageGap)
    else if target in Next(current) then Append
    else Fail(InvalidTransition)
  }

  function MoveOf(w: World, step: Step): (r: Result<World, Fault>) {
    var current := CurrentOf(w.events, step.candidate);
    if current.None? then Failure(NotRegistered)
    else
      match MoveFrom(current.value, step.target, (step.candidate, Held) in w.files)
      case Stay => Success(w)
      case Append =>
        Success(w.(events := w.events[step.candidate := Appended(w.events[step.candidate], step.target)]))
      case Fail(fault) => Failure(fault)
  }

  predicate Duplicates(patches: map<string, Patch>, patch: Patch) {
    patch.fingerprint.Some? && patch in patches.Values
  }

  /** The status that a new candidate starts with, or why it is not registered. */
  function RegisterOf(events: map<string, seq<Event>>, patches: map<string, Patch>, deduplicate: bool,
                      candidate: string, patch: Patch, check: Check): (r: Result<Status, Fault>)
    ensures r.Success? <==> candidate !in events && check.disposition != Reject && check.rated && check.families != {}
                            && !(deduplicate && exists c | c in patches :: patches[c] == patch && patch.fingerprint.Some?)
    ensures r.Success? ==> r.value == if check.disposition == Pass then Checked else Held
  {
    if candidate in events then Failure(AlreadyExists)
    else if check.disposition == Reject then Failure(RejectedByCheck)
    else if !check.rated || check.families == {} then Failure(Unresolved)
    else if deduplicate && Duplicates(patches, patch) then Failure(RejectedByCheck)
    else Success(if check.disposition == Pass then Checked else Held)
  }

  class CandidateRegistry {
    const deduplicate: bool
    var events: map<string, seq<Event>>
    var patches: map<string, Patch>

    constructor (deduplicate: bool)
      ensures this.deduplicate == deduplicate && events == map[] && patches == map[]
    {
      this.deduplicate := deduplicate;
      events, patches := map[], map[];
    }

    /** Registers a candidate whose check passed or put it on hold, unless it repeats another one. */
    method Register(candidate: string, patch: Patch, check: Check) returns (fault: Option<Fault>)
      modifies this
      ensures var r := RegisterOf(old(events), old(patches), deduplicate, candidate, patch, check);
              && (fault.Some? <==> r.Failure?) && (fault.Some? ==> fault.value == r.error)
              && events == (if r.Success? then old(events)[candidate := Appended([], r.value)] else old(events))
              && patches == (if r.Success? then old(patches)[candidate := patch] else old(patches))
    {
      if candidate in events {
        return Some(AlreadyExists);
      }
      if check.disposition == Reject {
        return Some(RejectedByCheck);
      }
      if !check.rated || check.families == {} {
        return Some(Unresolved);
      }
      if deduplicate && patch.fingerprint.Some? && patch in patches.Values {
        return Some(RejectedByCheck);
      }
      var status := if check.disposition == Pass then Checked else Held;
      assert Appended([], status) == [Event(1, None, status)];
      events := events[candidate := [Event(1, None, status)]];
      patches := patches[candidate := patch];
      return None;
    }

    method Load(candidate: string) returns (current: Option<Status>)
      ensures current == CurrentOf(events, candidate)
    {
      if candidate !in events || events[candidate] == [] {
        return None;
      }
      return Some(events[candidate][|events[candidate]| - 1].next);
    }

    method Transition(candidate: string, next: Status) returns (fault: Option<Fault>)
      modifies this`events
      ensures fault.Some? ==> TransitionOf(old(events), candidate, next) == Failure(fault.value) && events == old(events)
      ensures fault.None? ==> TransitionOf(old(events), candidate, next) == Success(events)
    {
      var current := Load(candidate);
      if current.None? {
        return Some(NotRegistered);
      }
      if next !in Next(current.value) {
        return Some(InvalidTransition);
      }
      var log := events[candidate];
      events := events[candidate := log + [Event(|log| + 1, current, next)]];
      return None;
    }
  }

  class Orchestrator {
    const registry: CandidateRegistry
    var files: map<(string, Status), string>

    constructor (registry: CandidateRegistry)
      ensures this.registry == registry && files == map[]
    {
      this.registry := registry;
      files := map[];
    }

    function Now(): (r: World)
      reads this, registry
    {
      World(registry.events, files)
    }

    method Seal(step: Step) returns (fault: Option<Fault>)
      modifies this`files
      ensures fault.Some? ==> SealOf(old(Now()), step) == Failure(fault.value) && Now() == old(Now())
      ensures fault.None? ==> SealOf(old(Now()), step) == Success(Now())
    {
      var key := (step.candidate, step.target);
      if key in files {
        return if files[key] == step.source then None else Some(Conflict);
      }
      files := files[key := step.source];
      return None;
    }

    method Move(step: Step) returns (fault: Option<Fault>)
      modifies registry`events
      ensures fault.Some? ==> MoveOf(old(Now()), step) == Failure(fault.value) && Now() == old(Now())
      ensures fault.None? ==> MoveOf(old(Now()), step) == Success(Now())
    {
      var current := registry.Load(step.candidate);
      if current.None? {
        return Some(NotRegistered);
      }
      if current.value == step.target {
        return None;
      }
      if current.value == Held && IsProgress(step.target) {
        return if (step.candidate, Held) in files then None else Some(NoHeldEvidence);
      }
      if IsProgress(current.value) && IsProgress(step.target) {
        if Stage(current.value) > Stage(step.target) {
          return None;
        }
        if Stage(step.target) != Stage(current.value) + 1 {
          return Some(StageGap);
        }
      }
      fault := registry.Transition(step.candidate, step.target);
    }

    /** Seals the evidence of the target, then moves the candidate. */
    method Advance(step: Step) returns (fault: Option<Fault>)
      modifies this`files, registry`events
      ensures (Now(), fault) == AttemptOf(old(Now()), [step], 2)
    {
      ghost var before := Now();
      fault := Seal(step);
      if fault.None? {
        fault := Move(step);
      }
      AttemptOne(before, step);
    }

    /** The steps of a script in turn, cut off after `budget` writes. */
    method Attempt(script: seq<Step>, budget: nat) returns (fault: Option<Fault>)
      modifies this`files, registry`events
      ensures (Now(), fault) == AttemptOf(old(Now()), script, budget)
    {
      var k, left := 0, budget;
      while k < |script| && left > 0
        invariant k <= |script|
        invariant AttemptOf(old(Now()), script, budget) == AttemptOf(Now(), script[k..], left)
        decreases left
      {
        assert script[k..][0] == script[k] && script[k..][1..] == script[k + 1..];
        fault := Seal(script[k]);
        if fault.Some? || left == 1 {
          return;
        }
        fault := Move(script[k]);
        if fault.Some? {
          return;
        }
        k, left := k + 1, left - 2;
      }
      return None;
    }
  }

  /** The effect of the first `budget` writes of a script, and the fault that ended it, if any. */
  function AttemptOf(w: World, script: seq<Step>, budget: nat): (r: (World, Option<Fault>))
    decreases |script|
  {
    if script == [] || budget == 0 then (w, None)
    else
      var sealed := SealOf(w, script[0]);
      if sealed.Failure? then (w, Some(sealed.error))
      else if budget == 1 then (sealed.value, None)
      else
        var moved := MoveOf(sealed.value, script[0]);
        if moved.Failure? then (sealed.value, Some(moved.error))
        else AttemptOf(moved.value, script[1..], budget - 2)
  }

  lemma AttemptOne(w: World, step: Step)
    ensures AttemptOf(w, [step], 2)
         == var sealed := SealOf(w, step);
            if sealed.Failure? then (w, Some(sealed.error))
            else
              var moved := MoveOf(sealed.value, step);
              if moved.Failure? then (sealed.value, Some(moved.error)) else (moved.value, None)
  {
  }

  // ---- The transition table ----

  /** The stages of a candidate on its way to release, in order. */
  const CHAIN: seq<Status> :=
    [Draft, Registered, Checked, UpdateEvaluated, SelectionEvaluated, ReleaseEvaluated, ShipRecommended, Shipped,
     RolledBack]

  /** A candidate goes one stage on, or is put on hold until it is shipped, or is rejected until a release is
      recommended; a draft cannot be put on hold, and HELD, REJECTED and ROLLED_BACK are final. */
  lemma TableIsChain(s: Status, t: Status)
    ensures t in Next(s) <==>
              || (exists k :: 0 <= k < 8 && CHAIN[k] == s && CHAIN[k + 1] == t)
              || (t == Held && exists k :: 1 <= k <= 6 && CHAIN[k] == s)
              || (t == Rejected && exists k :: 0 <= k <= 5 && CHAIN[k] == s)
  {
    assert CHAIN[0] == Draft && CHAIN[1] == Registered && CHAIN[2] == Checked && CHAIN[3] == UpdateEvaluated;
    assert CHAIN[4] == SelectionEvaluated && CHAIN[5] == ReleaseEvaluated && CHAIN[6] == ShipRecommended;
    assert CHAIN[7] == Shipped && CHAIN[8] == RolledBack;
  }

  /** Among CHECKED and the three evaluated stages a candidate stays at or above the target, goes one stage
      on, and may not leave one out; HELD counts as reached for all of these once its evidence is sealed; any
      other status moves by the transition table. */
  lemma MovesByStage(s: Status, t: Status, held: bool)
    ensures forall i, j | 2 <= i <= 5 && 2 <= j <= 5 && s == CHAIN[i] && t == CHAIN[j] ::
              MoveFrom(s, t, held) == if j <= i then Stay else if j == i + 1 then Append else Fail(StageGap)
    ensures forall j | 2 <= j <= 5 && s == Held && t == CHAIN[j] ::
              MoveFrom(s, t, held) == if held then Stay else Fail(NoHeldEvidence)
    ensures (s !in CHAIN[2..6] && s != Held) || t !in CHAIN[2..6] ==>
              MoveFrom(s, t, held) == if s == t then Stay else if t in Next(s) then Append else Fail(InvalidTransition)
  {
    assert CHAIN[2] == Checked && CHAIN[3] == UpdateEvaluated && CHAIN[4] == SelectionEvaluated;
    assert CHAIN[5] == ReleaseEvaluated;
    assert CHAIN[2..6] == [Checked, UpdateEvaluated, SelectionEvaluated, ReleaseEvaluated];
  }

  // ---- Every log is a path in the transition table ----

  /** Event `i` is numbered in turn, names the status before it, and may follow that status. */
  ghost predicate Linked(log: seq<Event>, i: nat)
    requires i < |log|
  {
    && log[i].ordinal == i + 1
    && log[i].previous == (if i == 0 then None else Some(log[i - 1].next))
    && (i > 0 ==> log[i].next in Next(log[i - 1].next))
  }

  ghost predicate Path(log: seq<Event>) {
    forall i | 0 <= i < |log| :: Linked(log, i)
  }

  function Rank(s: Status): (r: nat) {
    match s
    case Draft => 0
    case Registered => 1
    case Checked => 2
    case UpdateEvaluated => 3
    case SelectionEvaluated => 4
    case ReleaseEvaluated => 5
    case ShipRecommended => 6
    case Shipped => 7
    case _ => 8
  }

  lemma {:induction false} PathRises(log: seq<Event>, i: nat, j: nat)
    requires Path(log) && i <= j < |log|
    ensures Rank(log[j].next) >= Rank(log[i].next) + j - i
  {
    if i < j {
      PathRises(log, i, j - 1);
      assert Linked(log, j);
    }
  }

  /** No status occurs twice in a log, and a log that starts at CHECKED has at most seven events. */
  lemma PathIsBounded(log: seq<Event>)
    requires Path(log) && log != []
    ensures forall i, j | 0 <= i < j < |log| :: log[i].next != log[j].next
    ensures |log| <= 9 - Rank(log[0].next)
    ensures log[0].next == Checked ==> |log| <= 7
  {
    forall i, j | 0 <= i < j < |log| ensures log[i].next != log[j].next {
      PathRises(log, i, j);
    }
    PathRises(log, 0, |log| - 1);
  }

  ghost predicate AllPaths(w: World) {
    forall c | c in w.events :: w.events[c] != [] && Path(w.events[c])
  }

  /** Logs are only extended and sealed files never change. */
  ghost predicate Extends(w: World, after: World) {
    && after.events.Keys == w.events.Keys
    && (forall c | c in w.events :: w.events[c] <= after.events[c])
    && (forall key | key in w.files :: key in after.files && after.files[key] == w.files[key])
  }

  /** How a replay goes on after the step that it starts with. */
  ghost predicate Continues(r: (World, Option<Fault>), sealed: World, moved: Result<World, Fault>,
                            rest: seq<Step>, n: nat) {
    if n == 1 then r == (sealed, None)
    else if moved.Failure? then r == (sealed, Some(moved.error))
    else n > 1 && r == AttemptOf(moved.value, rest, n - 2)
  }

  lemma StepKeepsPaths(w: World, script: seq<Step>, n: nat, r: (World, Option<Fault>))
    returns (sealed: World, moved: Result<World, Fault>)
    requires AllPaths(w) && script != [] && n > 0 && r == AttemptOf(w, script, n) && SealOf(w, script[0]).Success?
    ensures AllPaths(sealed) && Extends(w, sealed) && Continues(r, sealed, moved, script[1..], n)
    ensures moved.Success? ==> AllPaths(moved.value) && Extends(w, moved.value)
  {
    sealed := SealOf(w, script[0]).value;
    moved := MoveOf(sealed, script[0]);
    assert Extends(w, sealed);
    if moved.Success? {
      MoveKeepsPaths(sealed, script[0]);
    }
  }

  /** Whatever steps are attempted, in whatever order and however often they are cut off, every log
      stays a path, and nothing written is ever lost. */
  lemma {:induction false} PathsAreKept(w: World, script: seq<Step>, n: nat, r: (World, Option<Fault>))
    requires AllPaths(w) && r == AttemptOf(w, script, n)
    ensures AllPaths(r.0) && Extends(w, r.0)
    decreases |script|
  {
    if script == [] || n == 0 || SealOf(w, script[0]).Failure? {
      assert r.0 == w;
    } else {
      var sealed, moved := StepKeepsPaths(w, script, n, r);
      if n > 1 && moved.Success? {
        PathsAreKept(moved.value, script[1..], n - 2, r);
      }
    }
  }

  lemma MoveKeepsPaths(w: World, step: Step)
    requires AllPaths(w) && MoveOf(w, step).Success?
    ensures AllPaths(MoveOf(w, step).value) && Extends(w, MoveOf(w, step).value)
  {
    var after := MoveOf(w, step).value;
    if after.events != w.events {
      AppendKeepsPath(w.events[step.candidate], step.target);
    }
  }

  lemma AppendKeepsPath(log: seq<Event>, next: Status)
    requires Path(log) && log != [] && next in Next(log[|log| - 1].next)
    ensures Path(Appended(log, next)) && log <= Appended(log, next)
  {
    var longer := Appended(log, next);
    forall i | 0 <= i < |log| ensures Linked(longer, i) {
      assert Linked(log, i);
    }
  }

  // ---- Scripts ----

  /** The steps of one candidate. */
  function Plan(script: seq<Step>, c: string): (r: seq<Step>) {
    if script == [] then []
    else
      var rest, last := Plan(script[..|script| - 1], c), script[|script| - 1];
      if last.candidate == c then rest + [last] else rest
  }

  /** The status of a candidate, checked at registration, after `k` steps of its plan. */
  function StatusAt(p: seq<Step>, k: nat): (r: Status)
    requires k <= |p|
  {
    if k == 0 then Checked else p[k - 1].target
  }

  /** Step `i` follows the one before it, and only the last step leaves the progress stages. */
  ghost predicate Planned(p: seq<Step>, i: nat)
    requires i < |p|
  {
    p[i].target in Next(StatusAt(p, i)) && (i + 1 < |p| ==> IsProgress(p[i].target))
  }

  ghost predicate ValidPlan(p: seq<Step>) {
    forall i | 0 <= i < |p| :: Planned(p, i)
  }

  ghost predicate ValidScript(script: seq<Step>) {
    forall c: string :: ValidPlan(Plan(script, c))
  }

  function LogOf(p: seq<Step>, k: nat): (r: seq<Event>)
    requires k <= |p|
  {
    if k == 0 then Appended([], Checked) else Appended(LogOf(p, k - 1), p[k - 1].target)
  }

  /** Candidate `c` has made `k` steps of its plan `p`; files of a later step may already be sealed. */
  ghost predicate At(w: World, c: string, p: seq<Step>, k: nat) {
    && k <= |p| && c in w.events && w.events[c] == LogOf(p, k)
    && (forall i | 0 <= i < k :: (c, p[i].target) in w.files)
    && (forall t | (c, t) in w.files :: exists i :: 0 <= i < |p| && p[i].target == t && w.files[(c, t)] == p[i].source)
  }

  lemma {:induction false} LogEnds(p: seq<Step>, k: nat)
    requires k <= |p|
    ensures |LogOf(p, k)| == k + 1 && LogOf(p, k)[k].next == StatusAt(p, k) && LogOf(p, k)[0].next == Checked
  {
    if k == 0 {
    } else {
      LogEnds(p, k - 1);
    }
  }

  lemma {:induction false} LogIsPath(p: seq<Step>, k: nat)
    requires ValidPlan(p) && k <= |p|
    ensures Path(LogOf(p, k))
  {
    if k == 0 {
    } else {
      LogIsPath(p, k - 1);
      LogEnds(p, k - 1);
      assert Planned(p, k - 1);
      ExtendPath(LogOf(p, k - 1), p[k - 1].target, StatusAt(p, k - 1));
    }
  }

  lemma ExtendPath(log: seq<Event>, next: Status, last: Status)
    requires Path(log) && log != [] && log[|log| - 1].next == last && next in Next(last)
    ensures Path(Appended(log, next))
  {
    AppendKeepsPath(log, next);
  }

  lemma {:induction false} StageOfPlan(p: seq<Step>, k: nat)
    requires ValidPlan(p) && k <= |p| && (k < |p| || k == 0 || IsProgress(p[k - 1].target))
    ensures IsProgress(StatusAt(p, k)) && Stage(StatusAt(p, k)) == k
  {
    if k == 0 {
    } else {
      assert Planned(p, k - 1) && (k > 1 ==> Planned(p, k - 2));
      StageOfPlan(p, k - 1);
      assert Planned(p, k - 1);
    }
  }

  lemma TargetsDiffer(p: seq<Step>, i: nat, j: nat)
    requires ValidPlan(p) && i < j < |p|
    ensures p[i].target != p[j].target
  {
    LogIsPath(p, |p|);
    LogHolds(p, i + 1, |p|);
    LogHolds(p, j + 1, |p|);
    LogEnds(p, |p|);
    PathIsBounded(LogOf(p, |p|));
  }

  lemma {:induction false} LogHolds(p: seq<Step>, i: nat, k: nat)
    requires i <= k <= |p|
    ensures |LogOf(p, k)| == k + 1 && LogOf(p, k)[i].next == StatusAt(p, i)
  {
    LogEnds(p, k);
    if i < k {
      LogHolds(p, i, k - 1);
    }
  }

  /** The end of a plan from which replaying it from the top raises. */
  ghost predicate Stuck(p: seq<Step>, k: nat) {
    k == |p| >= 2 && (p[k - 1].target == ShipRecommended || p[k - 1].target == Rejected)
  }

  lemma OwnSource(w: World, c: string, p: seq<Step>, k: nat, i: nat)
    requires ValidPlan(p) && At(w, c, p, k) && i < |p| && (c, p[i].target) in w.files
    ensures w.files[(c, p[i].target)] == p[i].source
  {
    var j :| 0 <= j < |p| && p[j].target == p[i].target && w.files[(c, p[i].target)] == p[j].source;
    if i < j {
      TargetsDiffer(p, i, j);
    } else if j < i {
      TargetsDiffer(p, j, i);
    }
  }

  /** Nothing of a candidate other than `c` differs. */
  ghost predicate OnlyOf(c: string, w: World, after: World) {
    && (forall d | d != c :: (d in w.events <==> d in after.events) && (d in w.events ==> w.events[d] == after.events[d]))
    && (forall d, t | d != c :: ((d, t) in after.files <==> (d, t) in w.files)
          && ((d, t) in w.files ==> after.files[(d, t)] == w.files[(d, t)]))
  }

  lemma SealStep(w: World, c: string, p: seq<Step>, k: nat, i: nat)
    requires ValidPlan(p) && At(w, c, p, k) && i < |p| && p[i].candidate == c
    ensures SealOf(w, p[i]).Success?
    ensures var after := SealOf(w, p[i]).value;
            At(after, c, p, k) && (c, p[i].target) in after.files && OnlyOf(c, w, after)
  {
    if (c, p[i].target) in w.files {
      OwnSource(w, c, p, k, i);
    }
  }

  /** A step that was already made does nothing, unless the plan is stuck. */
  lemma MadeAlready(p: seq<Step>, k: nat, i: nat, held: bool)
    requires ValidPlan(p) && i < k <= |p| && (p[k - 1].target == Held ==> held)
    ensures MoveFrom(StatusAt(p, k), p[i].target, held).Fail? <==> i < k - 1 && Stuck(p, k)
    ensures !MoveFrom(StatusAt(p, k), p[i].target, held).Append?
  {
    if i < k - 1 {
      assert Planned(p, i) && Planned(p, k - 1);
      StageOfPlan(p, k - 1);
      StageOfPlan(p, i + 1);
      if IsProgress(p[k - 1].target) {
        StageOfPlan(p, k);
      }
    }
  }

  /** The next step is made. */
  lemma MadeNext(p: seq<Step>, k: nat, held: bool)
    requires ValidPlan(p) && k < |p|
    ensures MoveFrom(StatusAt(p, k), p[k].target, held).Append?
  {
    StageOfPlan(p, k);
    assert Planned(p, k);
  }

  lemma MoveStep(w: World, c: string, p: seq<Step>, k: nat, i: nat)
    requires ValidPlan(p) && At(w, c, p, k) && i <= k && i < |p| && p[i].candidate == c
    requires (c, p[i].target) in w.files
    ensures MoveOf(w, p[i]).Failure? <==> i < k - 1 && Stuck(p, k)
    ensures i < k && MoveOf(w, p[i]).Success? ==> MoveOf(w, p[i]).value == w
    ensures i == k ==> At(MoveOf(w, p[i]).value, c, p, k + 1) && OnlyOf(c, w, MoveOf(w, p[i]).value)
  {
    LogEnds(p, k);
    var held := (c, Held) in w.files;
    if i < k {
      MadeAlready(p, k, i, held);
    } else {
      MadeNext(p, k, held);
    }
  }

  // ---- Whole scripts ----

  function Names(script: seq<Step>): (r: set<string>) {
    set step | step in script :: step.candidate
  }

  /** How many steps of its plan a candidate has made. */
  function Made(w: World, c: string): (r: nat) {
    if c in w.events && w.events[c] != [] then |w.events[c]| - 1 else 0
  }

  ghost predicate Reached(w: World, script: seq<Step>, j: nat, c: string)
    requires j <= |script|
  {
    At(w, c, Plan(script, c), Made(w, c)) && |Plan(script[..j], c)| <= Made(w, c)
  }

  /** Every candidate is somewhere on its plan, and no earlier than the first `j` steps took it. */
  ghost predicate Ready(w: World, script: seq<Step>, j: nat)
    requires j <= |script|
  {
    forall c | c in Names(script) :: Reached(w, script, j, c)
  }

  ghost predicate StuckAt(w: World, script: seq<Step>, c: string) {
    c in Names(script) && Stuck(Plan(script, c), Made(w, c))
  }

  /** The steps still to come raise nothing: a stuck candidate has at most its last step ahead. */
  ghost predicate Clear(w: World, script: seq<Step>, j: nat)
    requires j <= |script|
  {
    forall c | StuckAt(w, script, c) :: |Plan(script[..j], c)| + 1 >= |Plan(script, c)|
  }

  lemma PlanGrows(script: seq<Step>, j: nat, c: string)
    requires j < |script|
    ensures Plan(script[..j + 1], c)
         == if script[j].candidate == c then Plan(script[..j], c) + [script[j]] else Plan(script[..j], c)
  {
    assert script[..j + 1][..j] == script[..j];
  }

  lemma {:induction false} PlanPrefix(script: seq<Step>, j: nat, c: string)
    requires j <= |script|
    ensures Plan(script[..j], c) <= Plan(script, c)
    decreases |script| - j
  {
    if j == |script| {
      assert script[..j] == script;
    } else {
      PlanPrefix(script, j + 1, c);
      PlanGrows(script, j, c);
    }
  }

  lemma PlanAt(script: seq<Step>, j: nat)
    requires j < |script|
    ensures var c := script[j].candidate;
            c in Names(script) && |Plan(script[..j], c)| < |Plan(script, c)|
            && Plan(script, c)[|Plan(script[..j], c)|] == script[j]
  {
    PlanGrows(script, j, script[j].candidate);
    PlanPrefix(script, j + 1, script[j].candidate);
    assert script[j] in script;
  }

  lemma AtMade(w: World, c: string, p: seq<Step>, k: nat)
    requires At(w, c, p, k)
    ensures Made(w, c) == k
  {
    LogEnds(p, k);
  }

  /** One sealed step, seen by all candidates. */
  lemma SealReady(w: World, script: seq<Step>, j: nat)
    requires ValidScript(script) && j < |script| && Ready(w, script, j)
    ensures SealOf(w, script[j]).Success?
    ensures var after := SealOf(w, script[j]).value;
            && Ready(after, script, j) && (script[j].candidate, script[j].target) in after.files
            && forall d | d in Names(script) :: Made(after, d) == Made(w, d)
  {
    var c := script[j].candidate;
    var p := Plan(script, c);
    PlanAt(script, j);
    assert Reached(w, script, j, c) && ValidPlan(p);
    SealStep(w, c, p, Made(w, c), |Plan(script[..j], c)|);
    var after := SealOf(w, script[j]).value;
    AtMade(after, c, p, Made(w, c));
    forall d | d in Names(script) ensures Reached(after, script, j, d) && Made(after, d) == Made(w, d) {
      assert Reached(w, script, j, d);
      if d != c {
      }
    }
  }

  lemma MoveOwn(w: World, script: seq<Step>, j: nat)
    requires ValidScript(script) && j < |script| && Ready(w, script, j)
    requires (script[j].candidate, script[j].target) in w.files
    ensures var c := script[j].candidate;
            && (MoveOf(w, script[j]).Failure? <==> |Plan(script[..j], c)| + 1 < Made(w, c) && StuckAt(w, script, c))
            && (MoveOf(w, script[j]).Success? ==>
                  && OnlyOf(c, w, MoveOf(w, script[j]).value)
                  && Reached(MoveOf(w, script[j]).value, script, j + 1, c)
                  && Made(MoveOf(w, script[j]).value, c)
                     == if |Plan(script[..j], c)| < Made(w, c) then Made(w, c) else Made(w, c) + 1)
  {
    var c := script[j].candidate;
    var p, k := Plan(script, c), Made(w, c);
    PlanAt(script, j);
    PlanGrows(script, j, c);
    assert Reached(w, script, j, c) && ValidPlan(p);
    MoveStep(w, c, p, k, |Plan(script[..j], c)|);
    if |Plan(script[..j], c)| == k {
      AtMade(MoveOf(w, script[j]).value, c, p, k + 1);
    }
  }

  lemma MoveReady(w: World, script: seq<Step>, j: nat)
    requires ValidScript(script) && j < |script| && Ready(w, script, j)
    requires (script[j].candidate, script[j].target) in w.files
    requires MoveOf(w, script[j]).Success?
    ensures var after := MoveOf(w, script[j]).value;
            && Ready(after, script, j + 1)
            && (forall d | d in Names(script) :: Made(w, d) <= Made(after, d))
            && (forall d | d in Names(script) && d != script[j].candidate :: Made(after, d) == Made(w, d))
  {
    var c, after := script[j].candidate, MoveOf(w, script[j]).value;
    MoveOwn(w, script, j);
    forall d | d in Names(script)
      ensures Reached(after, script, j + 1, d) && Made(w, d) <= Made(after, d)
      ensures d != c ==> Made(after, d) == Made(w, d)
    {
      if d != c {
        assert Reached(w, script, j, d);
        PlanGrows(script, j, d);
      }
    }
  }

  /** Nobody loses a step. */
  ghost predicate NoneLost(w: World, after: World, script: seq<Step>) {
    forall c | c in Names(script) :: Made(w, c) <= Made(after, c)
  }

  lemma Unfold(w: World, script: seq<Step>, j: nat, n: nat)
    requires j < |script| && n > 0 && SealOf(w, script[j]).Success?
    ensures var sealed := SealOf(w, script[j]).value;
            AttemptOf(w, script[j..], n)
            == if n == 1 then (sealed, None)
               else if MoveOf(sealed, script[j]).Failure? then (sealed, Some(MoveOf(sealed, script[j]).error))
               else AttemptOf(MoveOf(sealed, script[j]).value, script[j + 1..], n - 2)
  {
  }

  /** What a replay from step `j` leaves behind. */
  ghost predicate Kept(w: World, r: (World, Option<Fault>), script: seq<Step>, j: nat, n: nat)
    requires j <= |script|
  {
    && Ready(r.0, script, 0) && NoneLost(w, r.0, script)
    && (r.1.None? && n >= 2 * (|script| - j) ==> Ready(r.0, script, |script|))
  }

  lemma KeptBefore(w: World, moved: World, r: (World, Option<Fault>), script: seq<Step>, j: nat, n: nat)
    requires j < |script| && n > 1 && NoneLost(w, moved, script) && Kept(moved, r, script, j + 1, n - 2)
    ensures Kept(w, r, script, j, n)
  {
  }

  lemma CutOff(w: World, after: World, fault: Option<Fault>, script: seq<Step>, j: nat, n: nat)
    requires j <= |script| && Ready(after, script, j) && NoneLost(w, after, script)
    requires fault.Some? || n < 2 * (|script| - j) || j == |script|
    ensures Kept(w, (after, fault), script, j, n)
  {
  }

  lemma StepReady(w: World, script: seq<Step>, j: nat, n: nat, r: (World, Option<Fault>))
    returns (sealed: World, moved: Result<World, Fault>)
    requires ValidScript(script) && j < |script| && Ready(w, script, j) && n > 0
    requires r == AttemptOf(w, script[j..], n)
    ensures Continues(r, sealed, moved, script[j + 1..], n)
    ensures Ready(sealed, script, j) && NoneLost(w, sealed, script)
    ensures moved.Success? ==> Ready(moved.value, script, j + 1) && NoneLost(w, moved.value, script)
  {
    SealReady(w, script, j);
    Unfold(w, script, j, n);
    sealed := SealOf(w, script[j]).value;
    moved := MoveOf(sealed, script[j]);
    if moved.Success? {
      MoveReady(sealed, script, j);
    }
  }

  /** A replay that is cut off or raises leaves every candidate somewhere on its plan and takes back
      nothing; one that gets to the end has made every step. */
  lemma {:induction false} AttemptKeepsReady(w: World, script: seq<Step>, j: nat, n: nat, r: (World, Option<Fault>))
    requires ValidScript(script) && j <= |script| && Ready(w, script, j)
    requires r == AttemptOf(w, script[j..], n)
    ensures Kept(w, r, script, j, n)
    decreases |script| - j
  {
    if j == |script| || n == 0 {
      CutOff(w, w, None, script, j, n);
    } else {
      var sealed, moved := StepReady(w, script, j, n, r);
      if n == 1 || moved.Failure? {
        CutOff(w, sealed, r.1, script, j, n);
      } else {
        AttemptKeepsReady(moved.value, script, j + 1, n - 2, r);
        KeptBefore(w, moved.value, r, script, j, n);
      }
    }
  }

  lemma StepStaysClear(w: World, sealed: World, script: seq<Step>, j: nat)
    requires ValidScript(script) && j < |script| && Ready(sealed, script, j) && Clear(w, script, j)
    requires forall d | d in Names(script) :: Made(sealed, d) == Made(w, d)
    requires (script[j].candidate, script[j].target) in sealed.files
    ensures MoveOf(sealed, script[j]).Success?
    ensures Clear(MoveOf(sealed, script[j]).value, script, j + 1)
  {
    var c := script[j].candidate;
    PlanAt(script, j);
    assert StuckAt(sealed, script, c) ==> StuckAt(w, script, c);
    MoveOwn(sealed, script, j);
    MoveReady(sealed, script, j);
    var after := MoveOf(sealed, script[j]).value;
    forall d | StuckAt(after, script, d) ensures |Plan(script[..j + 1], d)| + 1 >= |Plan(script, d)| {
      PlanGrows(script, j, d);
      assert StuckAt(w, script, d) || d == c;
    }
  }

  lemma ClearStep(w: World, script: seq<Step>, j: nat, n: nat, r: (World, Option<Fault>))
    returns (sealed: World, moved: World)
    requires ValidScript(script) && j < |script| && Ready(w, script, j) && Clear(w, script, j) && n > 0
    requires r == AttemptOf(w, script[j..], n)
    ensures Continues(r, sealed, Success(moved), script[j + 1..], n)
    ensures Ready(moved, script, j + 1) && Clear(moved, script, j + 1)
  {
    SealReady(w, script, j);
    Unfold(w, script, j, n);
    sealed := SealOf(w, script[j]).value;
    StepStaysClear(w, sealed, script, j);
    MoveReady(sealed, script, j);
    moved := MoveOf(sealed, script[j]).value;
  }

  lemma {:induction false} ClearAttempt(w: World, script: seq<Step>, j: nat, n: nat, r: (World, Option<Fault>))
    requires ValidScript(script) && j <= |script| && Ready(w, script, j) && Clear(w, script, j)
    requires r == AttemptOf(w, script[j..], n)
    ensures r.1.None?
    decreases |script| - j
  {
    if j < |script| && n > 0 {
      var sealed, moved := ClearStep(w, script, j, n, r);
      if n > 1 {
        ClearAttempt(moved, script, j + 1, n - 2, r);
      }
    }
  }

  lemma StuckStep(w: World, script: seq<Step>, j: nat, n: nat, c: string, r: (World, Option<Fault>))
    returns (sealed: World, moved: Result<World, Fault>)
    requires ValidScript(script) && j < |script| && Ready(w, script, j) && n > 0
    requires StuckAt(w, script, c) && Plan(script[..j], c) == [] && r == AttemptOf(w, script[j..], n)
    ensures Continues(r, sealed, moved, script[j + 1..], n)
    ensures moved.Success? ==> Ready(moved.value, script, j + 1) && StuckAt(moved.value, script, c)
                               && Plan(script[..j + 1], c) == []
  {
    SealReady(w, script, j);
    Unfold(w, script, j, n);
    sealed := SealOf(w, script[j]).value;
    moved := MoveOf(sealed, script[j]);
    MoveOwn(sealed, script, j);
    if moved.Success? {
      MoveReady(sealed, script, j);
      PlanGrows(script, j, c);
    }
  }

  lemma StuckIsAhead(w: World, script: seq<Step>, j: nat, c: string)
    requires j <= |script| && StuckAt(w, script, c) && Plan(script[..j], c) == []
    ensures j < |script|
  {
    assert script[..|script|] == script;
  }

  /** A stuck candidate that the replay has not come to yet makes it raise. */
  lemma {:induction false} StuckAttempt(w: World, script: seq<Step>, j: nat, n: nat, c: string,
                                        r: (World, Option<Fault>))
    requires ValidScript(script) && j <= |script| && Ready(w, script, j) && n >= 2 * (|script| - j)
    requires StuckAt(w, script, c) && Plan(script[..j], c) == [] && r == AttemptOf(w, script[j..], n)
    ensures r.1.Some?
    decreases |script| - j
  {
    StuckIsAhead(w, script, j, c);
    var sealed, moved := StuckStep(w, script, j, n, c, r);
    if moved.Success? {
      StuckAttempt(moved.value, script, j + 1, n - 2, c, r);
    }
  }

  // ---- Replaying a script over crashes and restarts ----

  /** `closed` says that the caller went on past the last step, after which none is replayed. */
  datatype Progress = Progress(world: World, closed: bool)

  /** One replay of the steps from the first, cut off after `budget` writes; closing is the last of them. */
  function ReplayOf(x: Progress, script: seq<Step>, budget: nat): (r: (Progress, Option<Fault>)) {
    if x.closed then (x, None)
    else
      var (after, fault) := AttemptOf(x.world, script, budget);
      (Progress(after, fault.None? && budget > 2 * |script|), fault)
  }

  /** A history of replays; the flag says that one of them raised. */
  function Replays(x: Progress, script: seq<Step>, budgets: seq<nat>): (r: (Progress, bool)) {
    if budgets == [] then (x, false)
    else
      var (before, raised) := Replays(x, script, budgets[..|budgets| - 1]);
      var (after, fault) := ReplayOf(before, script, budgets[|budgets| - 1]);
      (after, raised || fault.Some?)
  }

  /** The candidates are registered and checked, and no evidence of theirs is sealed. */
  ghost predicate Starts(x: Progress, script: seq<Step>) {
    && !x.closed
    && forall c | c in Names(script) ::
         c in x.world.events && x.world.events[c] == Appended([], Checked) && forall t :: (c, t) !in x.world.files
  }

  ghost predicate Reachable(x: Progress, script: seq<Step>) {
    Ready(x.world, script, if x.closed then |script| else 0)
  }

  lemma ReplayStaysReachable(x: Progress, script: seq<Step>, budget: nat)
    requires ValidScript(script) && Reachable(x, script)
    ensures Reachable(ReplayOf(x, script, budget).0, script)
    ensures NoneLost(x.world, ReplayOf(x, script, budget).0.world, script)
  {
    if !x.closed {
      assert script[0..] == script;
      AttemptKeepsReady(x.world, script, 0, budget, AttemptOf(x.world, script, budget));
    }
  }

  lemma {:induction false} ReplaysAreReachable(x: Progress, script: seq<Step>, budgets: seq<nat>)
    requires ValidScript(script) && Reachable(x, script)
    ensures Reachable(Replays(x, script, budgets).0, script)
  {
    if budgets == [] {
    } else {
      ReplaysAreReachable(x, script, budgets[..|budgets| - 1]);
      ReplayStaysReachable(Replays(x, script, budgets[..|budgets| - 1]).0, script, budgets[|budgets| - 1]);
    }
  }

  /** The exact boundary of _advance: a replay that is not cut off raises exactly when it is not closed
      and some candidate already stands at SHIP_RECOMMENDED or REJECTED. */
  lemma ReplayRaisesExactlyWhenStuck(x: Progress, script: seq<Step>, budget: nat)
    requires ValidScript(script) && Reachable(x, script) && budget >= 2 * |script|
    ensures ReplayOf(x, script, budget).1.Some? <==> !x.closed && exists c :: StuckAt(x.world, script, c)
  {
    if !x.closed {
      assert script[0..] == script && script[..0] == [];
      if c :| StuckAt(x.world, script, c) {
        StuckAttempt(x.world, script, 0, budget, c, AttemptOf(x.world, script, budget));
      } else {
        ClearAttempt(x.world, script, 0, budget, AttemptOf(x.world, script, budget));
      }
    }
  }

  /** No plan of two or more steps ends in SHIP_RECOMMENDED or REJECTED: all end in HELD or before. */
  ghost predicate Resumable(script: seq<Step>) {
    forall c | c in Names(script) :: !Stuck(Plan(script, c), |Plan(script, c)|)
  }

  /** Every candidate has made all its steps: its log is the whole of its plan. */
  ghost predicate Finished(w: World, script: seq<Step>) {
    forall c | c in Names(script) :: At(w, c, Plan(script, c), |Plan(script, c)|)
  }

  lemma ReadyIsFinished(w: World, script: seq<Step>)
    requires Ready(w, script, |script|)
    ensures Finished(w, script)
  {
    assert script[..|script|] == script;
    forall c | c in Names(script) ensures At(w, c, Plan(script, c), |Plan(script, c)|) {
      assert Reached(w, script, |script|, c);
    }
  }

  /** The calls of _advance converge: with a resumable script no history of replays ever raises, every log
      is a path that holds each status once, and one replay that is not cut off makes every step. */
  lemma {:induction false} ReplaysConverge(x: Progress, script: seq<Step>, budgets: seq<nat>)
    requires ValidScript(script) && Resumable(script) && Starts(x, script)
    ensures var (after, raised) := Replays(x, script, budgets);
            && !raised && Reachable(after, script)
            && ((exists b :: b in budgets && b > 2 * |script|) ==> after.closed && Finished(after.world, script))
  {
    if budgets == [] {
    } else {
      var rest, b := budgets[..|budgets| - 1], budgets[|budgets| - 1];
      assert budgets == rest + [b];
      ReplaysConverge(x, script, rest);
      var before := Replays(x, script, rest).0;
      ReplayStaysReachable(before, script, b);
      assert script[0..] == script;
      if !before.closed {
        ClearAttempt(before.world, script, 0, b, AttemptOf(before.world, script, b));
      }
      var after := ReplayOf(before, script, b).0;
      if after.closed {
        ReadyIsFinished(after.world, script);
      }
    }
  }

  /** Each log that replays can reach is a path of at most seven events without repeats. */
  lemma ReachableLogs(x: Progress, script: seq<Step>, c: string)
    requires ValidScript(script) && Reachable(x, script) && c in Names(script)
    ensures c in x.world.events && Path(x.world.events[c]) && 1 <= |x.world.events[c]| <= 7
    ensures forall i, j | 0 <= i < j < |x.world.events[c]| :: x.world.events[c][i].next != x.world.events[c][j].next
  {
    var p := Plan(script, c);
    assert Reached(x.world, script, if x.closed then |script| else 0, c) && ValidPlan(p);
    LogIsPath(p, Made(x.world, c));
    LogEnds(p, Made(x.world, c));
    PathIsBounded(x.world.events[c]);
  }

  /** A script survives every history of crashes exactly when it is resumable.  Otherwise a crash
      between the last transition and closing is enough: every later whole replay raises. */
  lemma ReplaySurvivesExactlyWhenResumable(x: Progress, script: seq<Step>)
    requires ValidScript(script) && Starts(x, script)
    ensures Resumable(script) <==> forall budgets: seq<nat> :: !Replays(x, script, budgets).1
  {
    if Resumable(script) {
      forall budgets: seq<nat> ensures !Replays(x, script, budgets).1 {
        ReplaysConverge(x, script, budgets);
      }
    } else {
      var c :| c in Names(script) && Stuck(Plan(script, c), |Plan(script, c)|);
      var crash, again := 2 * |script|, 2 * |script| + 1;
      var before := ReplayOf(x, script, crash).0;
      assert script[0..] == script;
      AttemptKeepsReady(x.world, script, 0, crash, AttemptOf(x.world, script, crash));
      TwoReplays(x, script, crash, again);
      if ReplayOf(x, script, crash).1.None? {
        ReadyIsFinished(before.world, script);
        AtMade(before.world, c, Plan(script, c), |Plan(script, c)|);
        assert StuckAt(before.world, script, c);
        ReplayRaisesExactlyWhenStuck(before, script, again);
      }
    }
  }

  lemma TwoReplays(x: Progress, script: seq<Step>, a: nat, b: nat)
    ensures Replays(x, script, [a, b]).1 <==>
              ReplayOf(x, script, a).1.Some? || ReplayOf(ReplayOf(x, script, a).0, script, b).1.Some?
  {
    assert [a, b][..1] == [a] && [a][..0] == [];
    assert Replays(x, script, []) == (x, false);
    assert Replays(x, script, [a]) == (ReplayOf(x, script, a).0, ReplayOf(x, script, a).1.Some?);
  }

  lemma StuckStays(x: Progress, script: seq<Step>, budget: nat, c: string)
    requires ValidScript(script) && Reachable(x, script) && !x.closed && StuckAt(x.world, script, c)
    ensures var after := ReplayOf(x, script, budget).0; !after.closed && StuckAt(after.world, script, c)
  {
    ReplayStaysReachable(x, script, budget);
    var after := ReplayOf(x, script, budget).0;
    assert Reached(after.world, script, if after.closed then |script| else 0, c);
    if budget >= 2 * |script| {
      ReplayRaisesExactlyWhenStuck(x, script, budget);
    }
  }

  /** Once stuck, the script is never closed, however often it is replayed. */
  lemma {:induction false} StuckForever(x: Progress, script: seq<Step>, budgets: seq<nat>, c: string)
    requires ValidScript(script) && Reachable(x, script) && !x.closed && StuckAt(x.world, script, c)
    ensures var after := Replays(x, script, budgets).0; !after.closed && StuckAt(after.world, script, c)
  {
    if budgets == [] {
    } else {
      var rest := budgets[..|budgets| - 1];
      StuckForever(x, script, rest, c);
      ReplaysAreReachable(x, script, rest);
      StuckStays(Replays(x, script, rest).0, script, budgets[|budgets| - 1], c);
    }
  }
}
