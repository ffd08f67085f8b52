/** Updater-native and governed selection over one candidate ladder
    (agentloopgate/gates/selection.py, with the input validators of agentloopgate/gates/models.py). */
module Selector {
  import opened Common
  import opened Ordering

  /** The evidence that baseline-bound selection needs; `refs` counts the evidence references. */
  datatype Evidence = Evidence(
    outcomes: map<string, bool>, wholeCost: real, attempts: int, retries: int, timeouts: int,
    p95: real, maxLatency: real, refs: nat)

  datatype Candidate = Candidate(
    id: string, nativeScore: Option<real>, nativeRank: Option<int>, signalRef: string,
    complete: bool, stableCount: int, critical: int, meanCost: real, p50: real, evidence: Option<Evidence>)

  datatype Baseline = Baseline(
    snapshotId: string, complete: bool, stableCount: int, critical: int, meanCost: real, p50: real,
    evidence: Evidence)

  datatype Policy = Policy(costRatio: real, latencyRatio: real, retryIncrease: int, timeoutIncrease: int)

  /** The part of the validators that baseline and enhanced candidates share. */
  predicate ValidEvidence(e: Evidence, stableCount: int, p50: real) {
    && |TrueKeys(e.outcomes)| == stableCount
    && e.wholeCost >= 0.0 && e.retries >= 0 && e.timeouts >= 0
    && e.attempts >= 1 && e.attempts >= |e.outcomes|
    && e.retries <= e.attempts - |e.outcomes|
    && 0.0 <= p50 <= e.p95 <= e.maxLatency
  }

  predicate ValidCandidate(c: Candidate) {
    && (c.nativeScore.Some? <==> c.nativeRank.None?)
    && (c.nativeRank.Some? ==> c.nativeRank.value >= 1 && c.signalRef != "")
    && c.stableCount >= 0 && c.critical >= 0 && c.meanCost >= 0.0 && c.p50 >= 0.0
    && (c.evidence.Some? ==> ValidEvidence(c.evidence.value, c.stableCount, c.p50) && c.evidence.value.refs > 0)
  }

  predicate ValidBaseline(b: Baseline) {
    && b.stableCount >= 0 && b.critical >= 0 && b.meanCost >= 0.0
    && ValidEvidence(b.evidence, b.stableCount, b.p50) && b.evidence.refs >= 3 && b.evidence.outcomes != map[]
  }

  datatype Finding =
    | EligibleStrictImprovement
    | EvaluationIncomplete | CriticalViolation | StableRegression(tasks: set<string>) | NoStableGain
    | CostInferior | LatencyInferior | RetryIncrease | TimeoutIncrease

  datatype Verdict = Select | Hold

  /** Without a baseline there is no verdict and there are no findings. */
  datatype DualSelection = DualSelection(
    native: string, governed: Option<string>, verdict: Option<Verdict>, findings: map<string, seq<Finding>>)

  datatype SelectionFault =
    | EmptyLadder | DuplicateIds | MixedSignals | DuplicateRanks | Unpaired
    | BaselineUnsafe | LacksEvidence(id: string) | PopulationsDiffer(id: string) | NoneEligible

  // ---- Lexicographic choice ----

  predicate RealsLe(a: seq<real>, b: seq<real>) {
    if a == [] then true
    else if b == [] then false
    else a[0] < b[0] || (a[0] == b[0] && RealsLe(a[1..], b[1..]))
  }

  datatype Key = Key(values: seq<real>, id: string)

  predicate KeyLe(a: Key, b: Key) {
    if a.values != b.values then RealsLe(a.values, b.values) else StringLe(a.id, b.id)
  }

  lemma {:induction false} RealsTotal(a: seq<real>, b: seq<real>)
    ensures RealsLe(a, b) || RealsLe(b, a)
    ensures RealsLe(a, b) && RealsLe(b, a) ==> a == b
  {
    if a != [] && b != [] && a[0] == b[0] {
      RealsTotal(a[1..], b[1..]);
      assert a == [a[0]] + a[1..] && b == [b[0]] + b[1..];
    }
  }

  lemma {:induction false} RealsTransitive(a: seq<real>, b: seq<real>, c: seq<real>)
    requires RealsLe(a, b) && RealsLe(b, c)
    ensures RealsLe(a, c)
  {
    if a != [] && a[0] == b[0] == c[0] {
      RealsTransitive(a[1..], b[1..], c[1..]);
    }
  }

  lemma KeyOrder()
    ensures forall a, b :: KeyLe(a, b) || KeyLe(b, a)
    ensures forall a, b :: KeyLe(a, b) && KeyLe(b, a) ==> a == b
    ensures forall a, b, c :: KeyLe(a, b) && KeyLe(b, c) ==> KeyLe(a, c)
  {
    forall a, b ensures KeyLe(a, b) || KeyLe(b, a)
      ensures KeyLe(a, b) && KeyLe(b, a) ==> a == b
    {
      RealsTotal(a.values, b.values);
      StringTotal(a.id, b.id);
    }
    forall a, b, c | KeyLe(a, b) && KeyLe(b, c) ensures KeyLe(a, c) {
      KeyTransitive(a, b, c);
    }
  }

  lemma KeyTransitive(a: Key, b: Key, c: Key)
    requires KeyLe(a, b) && KeyLe(b, c)
    ensures KeyLe(a, c)
  {
    RealsTotal(a.values, b.values);
    if RealsLe(a.values, b.values) && RealsLe(b.values, c.values) {
      RealsTransitive(a.values, b.values, c.values);
    }
    if StringLe(a.id, b.id) && StringLe(b.id, c.id) {
      StringTransitive(a.id, b.id, c.id);
    }
  }

  /** The first item with the least key. */
  function Best(items: seq<Candidate>, key: Candidate -> Key): (r: Candidate)
    requires items != []
  {
    if |items| == 1 then items[0]
    else
      var b, last := Best(items[..|items| - 1], key), items[|items| - 1];
      if KeyLe(key(b), key(last)) then b else last
  }

  lemma {:induction false} BestIsLeast(items: seq<Candidate>, key: Candidate -> Key)
    requires items != []
    ensures Best(items, key) in items
    ensures forall i | i in items :: KeyLe(key(Best(items, key)), key(i))
  {
    KeyOrder();
    if |items| > 1 {
      var rest, last := items[..|items| - 1], items[|items| - 1];
      assert items == rest + [last];
      BestIsLeast(rest, key);
    }
  }

  /** When keys tell the items apart, the choice is the unique least item, whatever the order. */
  lemma BestForgetsOrder(a: seq<Candidate>, b: seq<Candidate>, key: Candidate -> Key)
    requires a != [] && (forall i :: i in a <==> i in b)
    requires forall i, j | i in a && j in a && key(i) == key(j) :: i == j
    ensures b != [] && Best(a, key) == Best(b, key)
  {
    assert a[0] in b;
    KeyOrder();
    BestIsLeast(a, key);
    BestIsLeast(b, key);
  }

  // ---- The governed decision ----

  function WithinRatio(value: real, baseline: real, maximum: real): (r: bool) {
    if baseline == 0.0 then value == 0.0 else value / baseline <= maximum
  }

  /** Within the ratio is at most that multiple of the baseline, and zero where the baseline is zero. */
  lemma WithinRatioIsBound(value: real, baseline: real, maximum: real)
    requires baseline >= 0.0
    ensures WithinRatio(value, baseline, maximum) <==>
              if baseline == 0.0 then value == 0.0 else value <= maximum * baseline
  {
    if baseline > 0.0 {
      assert value == (value / baseline) * baseline;
      ScalePreserves(value / baseline, maximum, baseline);
    }
  }

  lemma ScalePreserves(x: real, y: real, scale: real)
    requires scale > 0.0
    ensures x <= y <==> x * scale <= y * scale
  {
  }

  function Regressed(c: Evidence, b: Baseline): (r: set<string>)
    requires c.outcomes.Keys == b.evidence.outcomes.Keys
  {
    set task | task in b.evidence.outcomes && b.evidence.outcomes[task] && !c.outcomes[task]
  }

  predicate Comparable(c: Candidate, b: Baseline) {
    c.evidence.Some? && c.evidence.value.outcomes.Keys == b.evidence.outcomes.Keys
  }

  /** What it means for a candidate to pass the policy. */
  predicate Passes(c: Candidate, b: Baseline, p: Policy)
    requires Comparable(c, b)
  {
    var e := c.evidence.value;
    && c.complete && c.critical == 0
    && (forall task | task in b.evidence.outcomes && b.evidence.outcomes[task] :: e.outcomes[task])
    && c.stableCount > b.stableCount
    && WithinRatio(e.wholeCost, b.evidence.wholeCost, p.costRatio)
    && WithinRatio(e.p95, b.evidence.p95, p.latencyRatio)
    && e.retries <= b.evidence.retries + p.retryIncrease
    && e.timeouts <= b.evidence.timeouts + p.timeoutIncrease
  }

  function When(b: bool, f: Finding): (r: seq<Finding>) { if b then [f] else [] }

  function SafetyReasons(c: Candidate, b: Baseline): (r: seq<Finding>)
    requires Comparable(c, b)
  {
    var regressed := Regressed(c.evidence.value, b);
    When(!c.complete, EvaluationIncomplete) + When(c.critical != 0, CriticalViolation)
    + When(regressed != {}, StableRegression(regressed)) + When(c.stableCount <= b.stableCount, NoStableGain)
  }

  function OperationalReasons(e: Evidence, b: Evidence, p: Policy): (r: seq<Finding>) {
    When(!WithinRatio(e.wholeCost, b.wholeCost, p.costRatio), CostInferior)
    + When(!WithinRatio(e.p95, b.p95, p.latencyRatio), LatencyInferior)
    + When(e.retries > b.retries + p.retryIncrease, RetryIncrease)
    + When(e.timeouts > b.timeouts + p.timeoutIncrease, TimeoutIncrease)
  }

  function ReasonsOf(c: Candidate, b: Baseline, p: Policy): (r: seq<Finding>)
    requires Comparable(c, b)
  {
    SafetyReasons(c, b) + OperationalReasons(c.evidence.value, b.evidence, p)
  }

  method AssessSafety(c: Candidate, b: Baseline) returns (reasons: seq<Finding>)
    requires Comparable(c, b)
    ensures reasons == SafetyReasons(c, b)
  {
    reasons := [];
    if !c.complete {
      reasons := reasons + [EvaluationIncomplete];
    }
    if c.critical != 0 {
      reasons := reasons + [CriticalViolation];
    }
    var regressed := Regressed(c.evidence.value, b);
    if regressed != {} {
      reasons := reasons + [StableRegression(regressed)];
    }
    if c.stableCount <= b.stableCount {
      reasons := reasons + [NoStableGain];
    }
  }

  method AssessOperations(e: Evidence, b: Evidence, p: Policy) returns (reasons: seq<Finding>)
    ensures reasons == OperationalReasons(e, b, p)
  {
    reasons := [];
    if !WithinRatio(e.wholeCost, b.wholeCost, p.costRatio) {
      reasons := reasons + [CostInferior];
    }
    if !WithinRatio(e.p95, b.p95, p.latencyRatio) {
      reasons := reasons + [LatencyInferior];
    }
    if e.retries > b.retries + p.retryIncrease {
      reasons := reasons + [RetryIncrease];
    }
    if e.timeouts > b.timeouts + p.timeoutIncrease {
      reasons := reasons + [TimeoutIncrease];
    }
  }

  /** Collects the reasons against one candidate, in the order of the source. */
  method Assess(c: Candidate, b: Baseline, p: Policy) returns (reasons: seq<Finding>)
    requires Comparable(c, b)
    ensures reasons == ReasonsOf(c, b, p)
    ensures reasons == [] <==> Passes(c, b, p)
  {
    var safety := AssessSafety(c, b);
    var operations := AssessOperations(c.evidence.value, b.evidence, p);
    ReasonsDecide(c, b, p);
    return safety + operations;
  }

  lemma ReasonsDecide(c: Candidate, b: Baseline, p: Policy)
    requires Comparable(c, b)
    ensures ReasonsOf(c, b, p) == [] <==> Passes(c, b, p)
  {
    var e := c.evidence.value;
    if task :| task in Regressed(e, b) {
      assert !Passes(c, b, p);
    }
    if Regressed(e, b) == {} {
      forall task | task in b.evidence.outcomes && b.evidence.outcomes[task] ensures e.outcomes[task] {
        assert task !in Regressed(e, b);
      }
    }
  }

  /** Fewest timeouts, retries, tail latency and cost among the most stable successes. */
  function GovernedKey(c: Candidate): (r: Key) {
    var rest := if c.evidence.Some? then
        var e := c.evidence.value;
        [e.timeouts as real, e.retries as real, e.p95, e.maxLatency, e.wholeCost]
      else [];
    Key([-c.stableCount as real] + rest + [c.meanCost, c.p50], c.id)
  }

  /** The governed choice prefers `w` to `c`: the first field in which they differ decides. */
  ghost predicate GovernedBefore(w: Candidate, c: Candidate)
    requires w.evidence.Some? && c.evidence.Some?
  {
    var x, y := w.evidence.value, c.evidence.value;
    if w.stableCount != c.stableCount then w.stableCount > c.stableCount
    else if x.timeouts != y.timeouts then x.timeouts < y.timeouts
    else if x.retries != y.retries then x.retries < y.retries
    else if x.p95 != y.p95 then x.p95 < y.p95
    else if x.maxLatency != y.maxLatency then x.maxLatency < y.maxLatency
    else if x.wholeCost != y.wholeCost then x.wholeCost < y.wholeCost
    else if w.meanCost != c.meanCost then w.meanCost < c.meanCost
    else if w.p50 != c.p50 then w.p50 < c.p50
    else StringLe(w.id, c.id)
  }

  lemma RealsFirst(x: real, y: real, s: seq<real>, t: seq<real>)
    ensures RealsLe([x] + s, [y] + t) <==> x < y || (x == y && RealsLe(s, t))
    ensures [x] + s == [y] + t <==> x == y && s == t
  {
    assert ([x] + s)[1..] == s && ([y] + t)[1..] == t;
    assert ([x] + s)[0] == x && ([y] + t)[0] == y;
  }

  /** Keys that begin alike are told apart by the rest. */
  lemma KeyFirst(x: real, y: real, s: seq<real>, t: seq<real>, i: string, j: string)
    ensures KeyLe(Key([x] + s, i), Key([y] + t, j)) <==> if x != y then x < y else KeyLe(Key(s, i), Key(t, j))
  {
    RealsFirst(x, y, s, t);
  }

  lemma GovernedTail(w: Candidate, c: Candidate, x: Evidence, y: Evidence)
    requires w.evidence == Some(x) && c.evidence == Some(y)
    ensures KeyLe(Key([x.maxLatency, x.wholeCost, w.meanCost, w.p50], w.id),
                  Key([y.maxLatency, y.wholeCost, c.meanCost, c.p50], c.id))
            <==> if x.maxLatency != y.maxLatency then x.maxLatency < y.maxLatency
                 else if x.wholeCost != y.wholeCost then x.wholeCost < y.wholeCost
                 else if w.meanCost != c.meanCost then w.meanCost < c.meanCost
                 else if w.p50 != c.p50 then w.p50 < c.p50
                 else StringLe(w.id, c.id)
  {
    KeyFirst(w.p50, c.p50, [], [], w.id, c.id);
    KeyFirst(w.meanCost, c.meanCost, [w.p50], [c.p50], w.id, c.id);
    KeyFirst(x.wholeCost, y.wholeCost, [w.meanCost, w.p50], [c.meanCost, c.p50], w.id, c.id);
    KeyFirst(x.maxLatency, y.maxLatency, [x.wholeCost, w.meanCost, w.p50], [y.wholeCost, c.meanCost, c.p50], w.id, c.id);
    assert [w.p50] + [] == [w.p50] && [c.p50] + [] == [c.p50];
    assert [w.meanCost] + [w.p50] == [w.meanCost, w.p50] && [c.meanCost] + [c.p50] == [c.meanCost, c.p50];
    assert [x.wholeCost] + [w.meanCost, w.p50] == [x.wholeCost, w.meanCost, w.p50];
    assert [y.wholeCost] + [c.meanCost, c.p50] == [y.wholeCost, c.meanCost, c.p50];
    assert [x.maxLatency] + [x.wholeCost, w.meanCost, w.p50] == [x.maxLatency, x.wholeCost, w.meanCost, w.p50];
    assert [y.maxLatency] + [y.wholeCost, c.meanCost, c.p50] == [y.maxLatency, y.wholeCost, c.meanCost, c.p50];
  }

  /** The order of the governed keys is the order of the fields that the source lists. */
  lemma GovernedKeyIsFields(w: Candidate, c: Candidate)
    requires w.evidence.Some? && c.evidence.Some?
    ensures KeyLe(GovernedKey(w), GovernedKey(c)) <==> GovernedBefore(w, c)
  {
    var x, y := w.evidence.value, c.evidence.value;
    var s, t := [x.maxLatency, x.wholeCost, w.meanCost, w.p50], [y.maxLatency, y.wholeCost, c.meanCost, c.p50];
    GovernedTail(w, c, x, y);
    KeyFirst(x.p95, y.p95, s, t, w.id, c.id);
    KeyFirst(x.retries as real, y.retries as real, [x.p95] + s, [y.p95] + t, w.id, c.id);
    KeyFirst(x.timeouts as real, y.timeouts as real, [x.retries as real] + ([x.p95] + s),
             [y.retries as real] + ([y.p95] + t), w.id, c.id);
    KeyFirst(-w.stableCount as real, -c.stableCount as real, [x.timeouts as real] + ([x.retries as real] + ([x.p95] + s)),
             [y.timeouts as real] + ([y.retries as real] + ([y.p95] + t)), w.id, c.id);
    assert GovernedKey(w).values
        == [-w.stableCount as real] + ([x.timeouts as real] + ([x.retries as real] + ([x.p95] + s)));
    assert GovernedKey(c).values
        == [-c.stableCount as real] + ([y.timeouts as real] + ([y.retries as real] + ([y.p95] + t)));
  }

  ghost predicate UniqueCandidates(ladder: seq<Candidate>) {
    forall i, j | 0 <= i < j < |ladder| :: ladder[i].id != ladder[j].id
  }

  ghost predicate AllComparable(ladder: seq<Candidate>, b: Baseline) {
    forall c | c in ladder :: Comparable(c, b)
  }

  function Eligible(ladder: seq<Candidate>, b: Baseline, p: Policy): (r: seq<Candidate>)
    requires forall c | c in ladder :: Comparable(c, b)
  {
    if ladder == [] then []
    else
      var rest, c := ladder[..|ladder| - 1], ladder[|ladder| - 1];
      assert c in ladder && forall x | x in rest :: x in ladder;
      if Passes(c, b, p) then Eligible(rest, b, p) + [c] else Eligible(rest, b, p)
  }

  lemma {:induction false} EligibleMembers(ladder: seq<Candidate>, b: Baseline, p: Policy)
    requires AllComparable(ladder, b)
    ensures forall c :: c in Eligible(ladder, b, p) <==> c in ladder && Passes(c, b, p)
  {
    if ladder == [] {
    } else {
      var rest, c := ladder[..|ladder| - 1], ladder[|ladder| - 1];
      assert ladder == rest + [c];
      EligibleMembers(rest, b, p);
    }
  }

  function FindingOf(c: Candidate, b: Baseline, p: Policy): (r: seq<Finding>)
    requires Comparable(c, b)
  {
    if Passes(c, b, p) then [EligibleStrictImprovement] else ReasonsOf(c, b, p)
  }

  ghost predicate Holds(ladder: seq<Candidate>, b: Baseline, p: Policy)
    requires AllComparable(ladder, b)
  {
    forall c | c in ladder :: !Passes(c, b, p)
  }

  ghost predicate Wins(w: Candidate, ladder: seq<Candidate>, b: Baseline, p: Policy)
    requires AllComparable(ladder, b)
  {
    w in ladder && Passes(w, b, p)
    && forall c | c in ladder && Passes(c, b, p) :: GovernedBefore(w, c)
  }

  ghost predicate HasWinner(id: string, ladder: seq<Candidate>, b: Baseline, p: Policy)
    requires AllComparable(ladder, b)
  {
    exists w :: Wins(w, ladder, b, p) && w.id == id
  }

  ghost predicate Recorded(findings: map<string, seq<Finding>>, ladder: seq<Candidate>, b: Baseline, p: Policy)
    requires AllComparable(ladder, b)
  {
    && (forall id :: id in findings <==> InLadder(id, ladder))
    && (forall c | c in ladder :: findings[c.id] == FindingOf(c, b, p))
  }

  ghost predicate InLadder(id: string, ladder: seq<Candidate>) {
    exists c :: c in ladder && c.id == id
  }

  /** The governed outcome of a ladder, as the policy defines it: HOLD when no candidate passes,
      otherwise SELECT of the passing candidate with the least key; and the findings on each. */
  ghost predicate Governs(r: DualSelection, ladder: seq<Candidate>, b: Baseline, p: Policy)
    requires AllComparable(ladder, b)
  {
    && r.verdict == Some(if Holds(ladder, b, p) then Hold else Select)
    && (r.governed.None? <==> Holds(ladder, b, p))
    && (r.governed.Some? ==> HasWinner(r.governed.value, ladder, b, p))
    && Recorded(r.findings, ladder, b, p)
  }

  lemma RecordOne(findings: map<string, seq<Finding>>, before: seq<Candidate>, c: Candidate, b: Baseline, p: Policy)
    requires AllComparable(before + [c], b) && AllComparable(before, b) && Comparable(c, b)
    requires UniqueCandidates(before + [c]) && Recorded(findings, before, b, p)
    ensures Recorded(findings[c.id := FindingOf(c, b, p)], before + [c], b, p)
  {
    var after := before + [c];
    assert after[..|before|] == before;
    assert forall x :: x in after <==> x in before || x == c;
    forall x | x in before ensures x.id != c.id {
      var i :| 0 <= i < |before| && before[i] == x;
      assert after[i] == x && after[|before|] == c;
    }
    assert forall id :: InLadder(id, after) <==> InLadder(id, before) || id == c.id;
  }

  ghost predicate Examined(findings: map<string, seq<Finding>>, eligible: seq<Candidate>,
                           ladder: seq<Candidate>, b: Baseline, p: Policy) {
    AllComparable(ladder, b) && Recorded(findings, ladder, b, p) && eligible == Eligible(ladder, b, p)
  }

  lemma ExamineOne(findings: map<string, seq<Finding>>, eligible: seq<Candidate>, before: seq<Candidate>, c: Candidate,
                   b: Baseline, p: Policy)
    requires UniqueCandidates(before + [c]) && Examined(findings, eligible, before, b, p) && Comparable(c, b)
    ensures Examined(findings[c.id := FindingOf(c, b, p)], if Passes(c, b, p) then eligible + [c] else eligible,
                     before + [c], b, p)
  {
    RecordOne(findings, before, c, b, p);
    assert (before + [c])[..|before|] == before;
  }

  /** What the source adds for one candidate of the ladder. */
  method ExamineCandidate(findings: map<string, seq<Finding>>, eligible: seq<Candidate>,
                          ghost before: seq<Candidate>, c: Candidate, b: Baseline, p: Policy)
    returns (r: Result<(map<string, seq<Finding>>, seq<Candidate>), SelectionFault>)
    requires UniqueCandidates(before + [c]) && Examined(findings, eligible, before, b, p)
    ensures r.Success? <==> Comparable(c, b)
    ensures r.Success? ==> Examined(r.value.0, r.value.1, before + [c], b, p)
  {
    if c.evidence.None? {
      return Failure(LacksEvidence(c.id));
    }
    if c.evidence.value.outcomes.Keys != b.evidence.outcomes.Keys {
      return Failure(PopulationsDiffer(c.id));
    }
    ExamineOne(findings, eligible, before, c, b, p);
    var reasons := Assess(c, b, p);
    if reasons == [] {
      return Success((findings[c.id := [EligibleStrictImprovement]], eligible + [c]));
    }
    return Success((findings[c.id := reasons], eligible));
  }

  lemma ExaminedPrefix(ladder: seq<Candidate>, k: nat)
    requires UniqueCandidates(ladder) && k < |ladder|
    ensures ladder[..k + 1] == ladder[..k] + [ladder[k]] && UniqueCandidates(ladder[..k] + [ladder[k]])
  {
    assert ladder[..k + 1] == ladder[..k] + [ladder[k]];
  }

  /** The loop over the ladder: a finding for every candidate, and the candidates that pass. */
  method Examine(ladder: seq<Candidate>, b: Baseline, p: Policy)
    returns (r: Result<(map<string, seq<Finding>>, seq<Candidate>), SelectionFault>)
    requires UniqueCandidates(ladder)
    ensures r.Success? <==> AllComparable(ladder, b)
    ensures r.Success? ==> Examined(r.value.0, r.value.1, ladder, b, p)
  {
    r := Success((map[], []));
    for k := 0 to |ladder|
      invariant r.Success? && Examined(r.value.0, r.value.1, ladder[..k], b, p)
    {
      ExaminedPrefix(ladder, k);
      r := ExamineCandidate(r.value.0, r.value.1, ladder[..k], ladder[k], b, p);
      if r.Failure? {
        assert ladder[k] in ladder;
        return;
      }
    }
    assert ladder[..|ladder|] == ladder;
  }

  method SelectWithBaseline(ladder: seq<Candidate>, native: string, b: Baseline, p: Policy)
    returns (r: Result<DualSelection, SelectionFault>)
    requires UniqueCandidates(ladder)
    ensures r.Success? <==> b.complete && b.critical == 0 && AllComparable(ladder, b)
    ensures r.Success? ==> r.value.native == native && Governs(r.value, ladder, b, p)
  {
    if !b.complete || b.critical != 0 {
      return Failure(BaselineUnsafe);
    }
    var examined := Examine(ladder, b, p);
    if examined.Failure? {
      return Failure(examined.error);
    }
    var (findings, eligible) := examined.value;
    EligibleMembers(ladder, b, p);
    if eligible == [] {
      return Success(DualSelection(native, None, Some(Hold), findings));
    }
    var winner := Best(eligible, GovernedKey);
    BestWins(ladder, b, p);
    return Success(DualSelection(native, Some(winner.id), Some(Select), findings));
  }

  lemma BestWins(ladder: seq<Candidate>, b: Baseline, p: Policy)
    requires AllComparable(ladder, b) && Eligible(ladder, b, p) != []
    ensures !Holds(ladder, b, p) && Wins(Best(Eligible(ladder, b, p), GovernedKey), ladder, b, p)
  {
    var eligible := Eligible(ladder, b, p);
    EligibleMembers(ladder, b, p);
    BestIsLeast(eligible, GovernedKey);
    forall c | c in ladder && Passes(c, b, p) ensures GovernedBefore(Best(eligible, GovernedKey), c) {
      GovernedKeyIsFields(Best(eligible, GovernedKey), c);
    }
  }

  // ---- The whole selector ----

  predicate AllScored(ladder: seq<Candidate>) { forall c | c in ladder :: c.nativeScore.Some? }

  predicate AllRanked(ladder: seq<Candidate>) { forall c | c in ladder :: c.nativeRank.Some? }

  ghost predicate UniqueRanks(ladder: seq<Candidate>) {
    forall i, j | 0 <= i < j < |ladder| :: ladder[i].nativeRank != ladder[j].nativeRank
  }

  /** The updater's own signal prefers `w` to `c`: a higher score, or without scores a lower rank, then a
      smaller id. */
  ghost predicate NativeBefore(w: Candidate, c: Candidate, scores: bool) {
    if scores then
      w.nativeScore.Some? && c.nativeScore.Some?
      && if w.nativeScore != c.nativeScore then w.nativeScore.value > c.nativeScore.value else StringLe(w.id, c.id)
    else
      w.nativeRank.Some? && c.nativeRank.Some?
      && if w.nativeRank != c.nativeRank then w.nativeRank.value < c.nativeRank.value else StringLe(w.id, c.id)
  }

  function NativeKey(c: Candidate, scores: bool): (r: Key) {
    Key([if scores then if c.nativeScore.Some? then -c.nativeScore.value else 0.0
         else if c.nativeRank.Some? then c.nativeRank.value as real else 0.0], c.id)
  }

  lemma NativeKeyIsFields(w: Candidate, c: Candidate, scores: bool)
    requires if scores then w.nativeScore.Some? && c.nativeScore.Some? else w.nativeRank.Some? && c.nativeRank.Some?
    ensures KeyLe(NativeKey(w, scores), NativeKey(c, scores)) <==> NativeBefore(w, c, scores)
  {
    var x, y := NativeKey(w, scores).values[0], NativeKey(c, scores).values[0];
    KeyFirst(x, y, [], [], w.id, c.id);
    assert NativeKey(w, scores).values == [x] + [] && NativeKey(c, scores).values == [y] + [];
  }

  /** The key of the selector without a baseline. */
  function LegacyKey(c: Candidate): (r: Key) {
    Key([-c.stableCount as real, c.meanCost, c.p50], c.id)
  }

  ghost predicate LegacyBefore(w: Candidate, c: Candidate) {
    if w.stableCount != c.stableCount then w.stableCount > c.stableCount
    else if w.meanCost != c.meanCost then w.meanCost < c.meanCost
    else if w.p50 != c.p50 then w.p50 < c.p50
    else StringLe(w.id, c.id)
  }

  lemma LegacyKeyIsFields(w: Candidate, c: Candidate)
    ensures KeyLe(LegacyKey(w), LegacyKey(c)) <==> LegacyBefore(w, c)
  {
    KeyFirst(w.p50, c.p50, [], [], w.id, c.id);
    KeyFirst(w.meanCost, c.meanCost, [w.p50], [c.p50], w.id, c.id);
    KeyFirst(-w.stableCount as real, -c.stableCount as real, [w.meanCost, w.p50], [c.meanCost, c.p50], w.id, c.id);
    assert [w.p50] + [] == [w.p50] && [c.p50] + [] == [c.p50];
    assert [w.meanCost] + [w.p50] == [w.meanCost, w.p50] && [c.meanCost] + [c.p50] == [c.meanCost, c.p50];
    assert LegacyKey(w).values == [-w.stableCount as real] + [w.meanCost, w.p50];
    assert LegacyKey(c).values == [-c.stableCount as real] + [c.meanCost, c.p50];
  }

  predicate LegacyEligible(c: Candidate) { c.complete && c.critical == 0 }

  /** A frozen ladder: candidates with distinct ids and native signals of one kind. */
  ghost predicate FrozenLadder(ladder: seq<Candidate>) {
    && ladder != [] && UniqueCandidates(ladder)
    && (AllScored(ladder) || (AllRanked(ladder) && UniqueRanks(ladder)))
  }

  ghost predicate Selectable(ladder: seq<Candidate>, baseline: Option<Baseline>, policy: Option<Policy>) {
    && FrozenLadder(ladder)
    && match (baseline, policy) {
         case (Some(b), Some(_)) => b.complete && b.critical == 0 && AllComparable(ladder, b)
         case (None, None) => exists c :: c in ladder && c.complete && c.critical == 0
         case _ => false
       }
  }

  ghost predicate NativeWinner(id: string, ladder: seq<Candidate>) {
    exists w :: w in ladder && w.id == id && forall c | c in ladder :: NativeBefore(w, c, AllScored(ladder))
  }

  ghost predicate LegacyWinner(id: string, ladder: seq<Candidate>) {
    exists w :: w in ladder && w.id == id && w.complete && w.critical == 0
                && forall c | c in ladder && c.complete && c.critical == 0 :: LegacyBefore(w, c)
  }

  /** What the selection of a ladder is. */
  ghost predicate Chosen(r: DualSelection, ladder: seq<Candidate>, baseline: Option<Baseline>, policy: Option<Policy>)
    requires Selectable(ladder, baseline, policy)
  {
    && NativeWinner(r.native, ladder)
    && if baseline.Some? then Governs(r, ladder, baseline.value, policy.value)
       else r.verdict.None? && r.findings == map[] && r.governed.Some? && LegacyWinner(r.governed.value, ladder)
  }

  function LegacyPool(ladder: seq<Candidate>): (r: seq<Candidate>) {
    if ladder == [] then []
    else
      var rest, c := ladder[..|ladder| - 1], ladder[|ladder| - 1];
      if LegacyEligible(c) then LegacyPool(rest) + [c] else LegacyPool(rest)
  }

  lemma {:induction false} LegacyMembers(ladder: seq<Candidate>)
    ensures forall c :: c in LegacyPool(ladder) <==> c in ladder && LegacyEligible(c)
  {
    if ladder == [] {
    } else {
      assert ladder == ladder[..|ladder| - 1] + [ladder[|ladder| - 1]];
      LegacyMembers(ladder[..|ladder| - 1]);
    }
  }

  method CheckIds(ladder: seq<Candidate>) returns (unique: bool)
    ensures unique <==> UniqueCandidates(ladder)
  {
    var seen: set<string> := {};
    for k := 0 to |ladder|
      invariant UniqueCandidates(ladder[..k])
      invariant forall id :: id in seen <==> InLadder(id, ladder[..k])
    {
      ghost var before := ladder[..k];
      assert ladder[..k + 1] == before + [ladder[k]];
      if ladder[k].id in seen {
        ghost var c :| c in before && c.id == ladder[k].id;
        ghost var i :| 0 <= i < k && ladder[i] == c;
        return false;
      }
      forall i | 0 <= i < k ensures ladder[i].id != ladder[k].id {
        assert before[i] in before && !InLadder(ladder[k].id, before);
      }
      assert forall id :: InLadder(id, ladder[..k + 1]) <==> InLadder(id, before) || id == ladder[k].id;
      seen := seen + {ladder[k].id};
    }
    assert ladder[..|ladder|] == ladder;
    return true;
  }

  method CheckRanks(ladder: seq<Candidate>) returns (unique: bool)
    ensures unique <==> UniqueRanks(ladder)
  {
    var seen: set<Option<int>> := {};
    for k := 0 to |ladder|
      invariant UniqueRanks(ladder[..k])
      invariant seen == set c | c in ladder[..k] :: c.nativeRank
    {
      ghost var before := ladder[..k];
      assert ladder[..k + 1] == before + [ladder[k]];
      if ladder[k].nativeRank in seen {
        ghost var c :| c in before && c.nativeRank == ladder[k].nativeRank;
        ghost var i :| 0 <= i < k && ladder[i] == c;
        return false;
      }
      forall i | 0 <= i < k ensures ladder[i].nativeRank != ladder[k].nativeRank {
        assert before[i] in before;
      }
      seen := seen + {ladder[k].nativeRank};
    }
    assert ladder[..|ladder|] == ladder;
    return true;
  }

  lemma NativeWins(ladder: seq<Candidate>, scores: bool, winner: Candidate)
    requires ladder != [] && scores == AllScored(ladder) && (scores || AllRanked(ladder))
    requires winner == Best(ladder, c => NativeKey(c, scores))
    ensures NativeWinner(winner.id, ladder)
  {
    BestIsLeast(ladder, c => NativeKey(c, scores));
    forall c | c in ladder ensures NativeBefore(winner, c, scores) {
      NativeKeyIsFields(winner, c, scores);
    }
  }

  lemma LegacyWins(ladder: seq<Candidate>, winner: Candidate)
    requires LegacyPool(ladder) != [] && winner == Best(LegacyPool(ladder), LegacyKey)
    ensures LegacyWinner(winner.id, ladder)
  {
    LegacyMembers(ladder);
    BestIsLeast(LegacyPool(ladder), LegacyKey);
    forall c | c in ladder && LegacyEligible(c) ensures LegacyBefore(winner, c) {
      LegacyKeyIsFields(winner, c);
    }
  }

  /** The checks that come before the governed choice. */
  method Freeze(ladder: seq<Candidate>) returns (r: Result<string, SelectionFault>)
    ensures r.Success? <==> FrozenLadder(ladder)
    ensures r.Success? ==> NativeWinner(r.value, ladder)
  {
    if ladder == [] {
      return Failure(EmptyLadder);
    }
    var unique := CheckIds(ladder);
    if !unique {
      return Failure(DuplicateIds);
    }
    if !AllScored(ladder) && !AllRanked(ladder) {
      return Failure(MixedSignals);
    }
    if !AllScored(ladder) {
      var ranks := CheckRanks(ladder);
      if !ranks {
        return Failure(DuplicateRanks);
      }
    }
    var scores := AllScored(ladder);
    var winner := Best(ladder, c => NativeKey(c, scores));
    NativeWins(ladder, scores, winner);
    return Success(winner.id);
  }

  method SelectCandidate(ladder: seq<Candidate>, baseline: Option<Baseline>, policy: Option<Policy>)
    returns (r: Result<DualSelection, SelectionFault>)
    ensures r.Success? <==> Selectable(ladder, baseline, policy)
    ensures r.Success? ==> Chosen(r.value, ladder, baseline, policy)
  {
    var native := Freeze(ladder);
    if native.Failure? {
      return Failure(native.error);
    }
    if baseline.None? != policy.None? {
      return Failure(Unpaired);
    }
    if baseline.Some? {
      r := SelectWithBaseline(ladder, native.value, baseline.value, policy.value);
      return;
    }
    LegacyMembers(ladder);
    if LegacyPool(ladder) == [] {
      return Failure(NoneEligible);
    }
    var winner := Best(LegacyPool(ladder), LegacyKey);
    LegacyWins(ladder, winner);
    assert LegacyPool(ladder)[0] in ladder;
    return Success(DualSelection(native.value, Some(winner.id), None, map[]));
  }

  // ---- Main results ----

  /** The rule of the schema of a stored selection: a SELECT, like a selection without a baseline, names a
      governed candidate and a HOLD names none. */
  lemma ChosenValidates(r: DualSelection, ladder: seq<Candidate>, baseline: Option<Baseline>, policy: Option<Policy>)
    requires Selectable(ladder, baseline, policy) && Chosen(r, ladder, baseline, policy)
    ensures r.verdict == None <==> baseline.None?
    ensures r.verdict == None ==> r.governed.Some? && r.findings == map[]
    ensures r.verdict == Some(Select) ==> r.governed.Some?
    ensures r.verdict == Some(Hold) ==> r.governed.None?
  {
  }

  /** A candidate that passes is stable on strictly more tasks than the baseline, and on all of its. */
  lemma PassesIsStrictImprovement(c: Candidate, b: Baseline, p: Policy)
    requires ValidCandidate(c) && ValidBaseline(b) && Comparable(c, b) && Passes(c, b, p)
    ensures TrueKeys(b.evidence.outcomes) < TrueKeys(c.evidence.value.outcomes)
  {
    var base, mine := TrueKeys(b.evidence.outcomes), TrueKeys(c.evidence.value.outcomes);
    assert base <= mine;
    assert base != mine;
  }

  /** SELECT names a candidate of the ladder whose stable tasks strictly contain the baseline's. */
  lemma SelectIsStrictImprovement(r: DualSelection, ladder: seq<Candidate>, b: Baseline, p: Policy)
    returns (winner: Candidate)
    requires AllComparable(ladder, b) && Governs(r, ladder, b, p) && r.verdict == Some(Select)
    requires ValidBaseline(b) && forall c | c in ladder :: ValidCandidate(c)
    ensures Wins(winner, ladder, b, p) && r.governed == Some(winner.id)
    ensures TrueKeys(b.evidence.outcomes) < TrueKeys(winner.evidence.value.outcomes)
  {
    winner :| Wins(winner, ladder, b, p) && winner.id == r.governed.value;
    PassesIsStrictImprovement(winner, b, p);
  }

  /** No list of reasons is the mark of an eligible candidate. */
  lemma ReasonsAreNotEligible(c: Candidate, b: Baseline, p: Policy)
    requires Comparable(c, b)
    ensures EligibleStrictImprovement !in ReasonsOf(c, b, p)
  {
  }

  /** HOLD exactly when the recorded findings hold something against every candidate. */
  lemma HoldIsEveryCandidateFaulted(r: DualSelection, ladder: seq<Candidate>, b: Baseline, p: Policy)
    requires AllComparable(ladder, b) && Governs(r, ladder, b, p)
    ensures r.verdict == Some(Hold) <==> forall id | id in r.findings :: EligibleStrictImprovement !in r.findings[id]
  {
    forall c | c in ladder ensures EligibleStrictImprovement in r.findings[c.id] <==> Passes(c, b, p) {
      ReasonsAreNotEligible(c, b, p);
    }
    forall id | id in r.findings ensures exists c :: c in ladder && c.id == id {
      assert InLadder(id, ladder);
    }
    if Holds(ladder, b, p) {
      forall id | id in r.findings ensures EligibleStrictImprovement !in r.findings[id] {
        var c :| c in ladder && c.id == id;
      }
    } else {
      var c :| c in ladder && Passes(c, b, p);
      assert InLadder(c.id, ladder) && EligibleStrictImprovement in r.findings[c.id];
    }
  }

  ghost predicate SameLadder(a: seq<Candidate>, b: seq<Candidate>) { forall c :: c in a <==> c in b }

  lemma WinnerUnique(v: Candidate, w: Candidate, ladder: seq<Candidate>, b: Baseline, p: Policy)
    requires AllComparable(ladder, b) && Wins(v, ladder, b, p) && Wins(w, ladder, b, p)
    ensures v.id == w.id
  {
    StringTotal(v.id, w.id);
  }

  lemma NativeUnique(x: string, y: string, ladder: seq<Candidate>)
    requires NativeWinner(x, ladder) && NativeWinner(y, ladder)
    ensures x == y
  {
    StringTotal(x, y);
  }

  lemma LegacyUnique(x: string, y: string, ladder: seq<Candidate>)
    requires LegacyWinner(x, ladder) && LegacyWinner(y, ladder)
    ensures x == y
  {
    StringTotal(x, y);
  }

  lemma RecordedUnique(f: map<string, seq<Finding>>, g: map<string, seq<Finding>>, ladder: seq<Candidate>,
                       b: Baseline, p: Policy)
    requires AllComparable(ladder, b) && Recorded(f, ladder, b, p) && Recorded(g, ladder, b, p)
    ensures f == g
  {
  }

  /** A ladder has one governed outcome. */
  lemma GovernsUnique(r: DualSelection, s: DualSelection, ladder: seq<Candidate>, b: Baseline, p: Policy)
    requires AllComparable(ladder, b) && Governs(r, ladder, b, p) && Governs(s, ladder, b, p)
    ensures r.governed == s.governed && r.verdict == s.verdict && r.findings == s.findings
  {
    RecordedUnique(r.findings, s.findings, ladder, b, p);
    if r.governed.Some? {
      var v :| Wins(v, ladder, b, p) && v.id == r.governed.value;
      var w :| Wins(w, ladder, b, p) && w.id == s.governed.value;
      WinnerUnique(v, w, ladder, b, p);
    }
  }

  lemma GovernsPermutes(r: DualSelection, x: seq<Candidate>, y: seq<Candidate>, b: Baseline, p: Policy)
    requires SameLadder(x, y) && AllComparable(x, b) && Governs(r, x, b, p)
    ensures AllComparable(y, b) && Governs(r, y, b, p)
  {
  }

  lemma FrozenPermutes(x: seq<Candidate>, y: seq<Candidate>)
    requires multiset(x) == multiset(y) && FrozenLadder(x)
    ensures FrozenLadder(y)
  {
    SameElements(x, y);
    forall i, j | 0 <= i < j < |y| ensures y[i].id != y[j].id && (UniqueRanks(x) ==> y[i].nativeRank != y[j].nativeRank) {
      var k, l := Places(x, y, i, j);
    }
  }

  /** The selection of a permuted ladder succeeds alike and is the same. */
  lemma SelectionForgetsOrder(x: seq<Candidate>, y: seq<Candidate>, baseline: Option<Baseline>, policy: Option<Policy>,
                              r: DualSelection, s: DualSelection)
    requires multiset(x) == multiset(y) && Selectable(x, baseline, policy) && Chosen(r, x, baseline, policy)
    ensures Selectable(y, baseline, policy)
    ensures Chosen(s, y, baseline, policy) ==> s == r
  {
    SameElements(x, y);
    FrozenPermutes(x, y);
    assert SameLadder(x, y);
    if Chosen(s, y, baseline, policy) {
      assert NativeWinner(r.native, y);
      NativeUnique(r.native, s.native, y);
      if baseline.Some? {
        GovernsPermutes(r, x, y, baseline.value, policy.value);
        GovernsUnique(r, s, y, baseline.value, policy.value);
      } else {
        assert LegacyWinner(r.governed.value, y);
        LegacyUnique(r.governed.value, s.governed.value, y);
      }
    }
  }

  /** A looser policy passes every candidate that the tighter one passes; a SELECT stays a SELECT, and
      its winner is still preferred to the old one, or is the same. */
  lemma LooseningHelps(ladder: seq<Candidate>, b: Baseline, p: Policy, q: Policy, r: DualSelection, s: DualSelection)
    requires p.costRatio <= q.costRatio && p.latencyRatio <= q.latencyRatio
    requires p.retryIncrease <= q.retryIncrease && p.timeoutIncrease <= q.timeoutIncrease
    requires AllComparable(ladder, b) && Governs(r, ladder, b, p) && Governs(s, ladder, b, q)
    ensures forall c | c in ladder && Passes(c, b, p) :: Passes(c, b, q)
    ensures r.verdict == Some(Select) ==>
              && s.verdict == Some(Select)
              && forall v, w | Wins(v, ladder, b, p) && Wins(w, ladder, b, q) :: GovernedBefore(w, v)
  {
  }
}
