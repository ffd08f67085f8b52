/** The six-pool split of the benchmark catalog (agentloopgate/adapters/tau3.py, build_split_plan) and the
    checks of the split service that reads it (agentloopgate/splits/service.py, _load_and_validate). */
module SplitPlan {
  import opened Common
  import opened Ordering
  import opened Records
  import opened Strata

  const OOD_FAMILIES: set<string> := {"human_transfer", "referral", "high_risk_account_action"}
  const OOD_COUNT := 20
  const ID_COUNT := 77
  const REPLAY_COUNT := 10

  /** The in-distribution pools in the order in which the cursor fills them. */
  const ID_POOLS: seq<Pool> := [Pilot, UpdateSource, UpdateCheck, Selection, ReleaseId]

  function PoolSize(pool: Pool): (r: nat) {
    match pool
    case Pilot => 7
    case UpdateSource => 25
    case UpdateCheck => 10
    case Selection => 15
    case ReleaseId => 20
    case ReleaseOod => 20
  }

  datatype Plan = Plan(pools: map<Pool, seq<Task>>, replay: seq<string>)

  datatype SplitFault = OodCountWrong | OodFamilyMissing | RemainingCountWrong | DuplicateInPool

  predicate IsOod(t: Task) { t.family in OOD_FAMILIES }

  function Filter(tasks: seq<Task>, ood: bool): (r: seq<Task>) {
    if tasks == [] then []
    else
      var rest, t := Filter(tasks[..|tasks| - 1], ood), tasks[|tasks| - 1];
      if IsOod(t) == ood then rest + [t] else rest
  }

  function Ids(tasks: seq<Task>): (r: seq<string>) {
    seq(|tasks|, i requires 0 <= i < |tasks| => tasks[i].taskId)
  }

  predicate UniqueIds(tasks: seq<Task>) {
    forall i, j | 0 <= i < j < |tasks| :: tasks[i].taskId != tasks[j].taskId
  }

  /** The replay preference: high risk first, then more documents, more tools, smaller digest. */
  predicate ReplayFirst(hash: Hash, a: Task, b: Task) {
    if a.highRisk != b.highRisk then a.highRisk
    else if a.documents != b.documents then a.documents > b.documents
    else if a.tools != b.tools then a.tools > b.tools
    else hash(a.taskId) <= hash(b.taskId)
  }

  function ReplayLe(hash: Hash): (r: (Task, Task) -> bool) {
    (a: Task, b: Task) => ReplayFirst(hash, a, b)
  }

  /** Where pool `i` of ID_POOLS starts in the stratified order. */
  function Start(i: nat): (r: nat)
    requires i <= |ID_POOLS|
  {
    if i == 0 then 0 else Start(i - 1) + PoolSize(ID_POOLS[i - 1])
  }

  lemma Starts()
    ensures Start(0) == 0 && Start(1) == 7 && Start(2) == 32 && Start(3) == 42 && Start(4) == 57 && Start(5) == 77
  {
  }

  function IdPools(ordered: seq<Task>): (r: map<Pool, seq<Task>>)
    requires |ordered| == ID_COUNT
  {
    map[
      Pilot := ordered[0..7], UpdateSource := ordered[7..32], UpdateCheck := ordered[32..42],
      Selection := ordered[42..57], ReleaseId := ordered[57..77]]
  }

  predicate AllUnique(pools: map<Pool, seq<Task>>) {
    forall pool | pool in pools :: UniqueIds(pools[pool])
  }

  function Families(tasks: seq<Task>): (r: set<string>) {
    set t | t in tasks :: t.family
  }

  /** The plan as a function of the catalog. */
  function PlanOf(tasks: seq<Task>, hash: Hash): (r: Result<Plan, SplitFault>) {
    var ood, rest := Filter(tasks, true), Filter(tasks, false);
    if |ood| != OOD_COUNT then Failure(OodCountWrong)
    else if Families(ood) != OOD_FAMILIES then Failure(OodFamilyMissing)
    else if |rest| != ID_COUNT then Failure(RemainingCountWrong)
    else
      OrderLength(rest, hash);
      var pools := IdPools(StratifiedOrderOf(rest, hash))[ReleaseOod := Sort(HashLe(hash), ood)];
      if !AllUnique(pools) then Failure(DuplicateInPool)
      else
        SortLength(ReplayLe(hash), pools[UpdateSource]);
        Success(Plan(pools, Ids(Sort(ReplayLe(hash), pools[UpdateSource])[..REPLAY_COUNT])))
  }

  lemma OrderLength(tasks: seq<Task>, hash: Hash)
    ensures |StratifiedOrderOf(tasks, hash)| == |tasks|
  {
    OrderIsPermutation(tasks, hash);
    SameElements(StratifiedOrderOf(tasks, hash), tasks);
  }

  lemma {:induction false} InsertLength<T>(le: (T, T) -> bool, x: T, s: seq<T>)
    ensures |Insert(le, x, s)| == |s| + 1
  {
    if s != [] && !le(s[|s| - 1], x) {
      InsertLength(le, x, s[..|s| - 1]);
    }
  }

  lemma {:induction false} SortLength<T>(le: (T, T) -> bool, s: seq<T>)
    ensures |Sort(le, s)| == |s|
  {
    if s == [] {
    } else {
      SortLength(le, s[..|s| - 1]);
      InsertLength(le, s[|s| - 1], Sort(le, s[..|s| - 1]));
    }
  }

  /** Slices the order with a moving cursor, validating each manifest as it is made. */
  method SlicePools(ordered: seq<Task>) returns (r: Option<map<Pool, seq<Task>>>)
    requires |ordered| == ID_COUNT
    ensures r.Some? <==> AllUnique(IdPools(ordered))
    ensures r.Some? ==> r.value == IdPools(ordered)
  {
    Starts();
    ghost var expected := IdPools(ordered);
    var pools: map<Pool, seq<Task>> := map[];
    var cursor := 0;
    for i := 0 to |ID_POOLS|
      invariant cursor == Start(i)
      invariant forall pool :: pool in pools <==> pool in ID_POOLS[..i]
      invariant forall pool | pool in pools :: pools[pool] == expected[pool] && UniqueIds(pools[pool])
    {
      var pool := ID_POOLS[i];
      var count := PoolSize(pool);
      assert Start(i + 1) == cursor + count <= ID_COUNT;
      assert expected[pool] == ordered[cursor..cursor + count];
      if !UniqueIds(ordered[cursor..cursor + count]) {
        return None;
      }
      pools := pools[pool := ordered[cursor..cursor + count]];
      cursor := cursor + count;
      assert ID_POOLS[..i + 1] == ID_POOLS[..i] + [pool];
    }
    assert pools == expected;
    return Some(pools);
  }

  method BuildSplitPlan(tasks: seq<Task>, hash: Hash) returns (r: Result<Plan, SplitFault>)
    ensures r == PlanOf(tasks, hash)
  {
    var ood := Filter(tasks, true);
    if |ood| != OOD_COUNT {
      return Failure(OodCountWrong);
    }
    if (set t | t in ood :: t.family) != OOD_FAMILIES {
      return Failure(OodFamilyMissing);
    }
    var remaining := Filter(tasks, false);
    if |remaining| != ID_COUNT {
      return Failure(RemainingCountWrong);
    }
    var ordered := StratifiedOrder(remaining, hash);
    OrderLength(remaining, hash);
    var sliced := SlicePools(ordered);
    var oodSorted := Sort(HashLe(hash), ood);
    ghost var expected := IdPools(ordered)[ReleaseOod := oodSorted];
    assert AllUnique(expected) <==> AllUnique(IdPools(ordered)) && UniqueIds(oodSorted) by {
      assert forall pool | pool in IdPools(ordered) :: expected[pool] == IdPools(ordered)[pool];
      assert expected[ReleaseOod] == oodSorted;
    }
    if sliced.None? || !UniqueIds(oodSorted) {
      return Failure(DuplicateInPool);
    }
    var pools := sliced.value[ReleaseOod := oodSorted];
    SortLength(ReplayLe(hash), pools[UpdateSource]);
    var replay := Sort(ReplayLe(hash), pools[UpdateSource])[..REPLAY_COUNT];
    return Success(Plan(pools, Ids(replay)));
  }

  // ---- Main results ----

  lemma {:induction false} FilterSplits(tasks: seq<Task>)
    ensures multiset(tasks) == multiset(Filter(tasks, true)) + multiset(Filter(tasks, false))
  {
    if tasks == [] {
    } else {
      var rest, t := tasks[..|tasks| - 1], tasks[|tasks| - 1];
      assert tasks == rest + [t];
      FilterSplits(rest);
    }
  }

  lemma {:induction false} FilterMembers(tasks: seq<Task>, ood: bool)
    ensures forall t :: t in Filter(tasks, ood) <==> t in tasks && IsOod(t) == ood
  {
    if tasks == [] {
    } else {
      var rest, t := tasks[..|tasks| - 1], tasks[|tasks| - 1];
      assert tasks == rest + [t];
      FilterMembers(rest, ood);
    }
  }

  /** Where a pool lies in the stratified order followed by the OOD reservation. */
  function Offset(pool: Pool): (r: nat) {
    match pool
    case Pilot => 0
    case UpdateSource => 7
    case UpdateCheck => 32
    case Selection => 42
    case ReleaseId => 57
    case ReleaseOod => 77
  }

  function PoolAt(i: nat): (r: Pool) {
    if i < 7 then Pilot else if i < 32 then UpdateSource else if i < 42 then UpdateCheck
    else if i < 57 then Selection else if i < 77 then ReleaseId else ReleaseOod
  }

  /** The pools are consecutive slices of `all`. */
  ghost predicate Slices(pools: map<Pool, seq<Task>>, all: seq<Task>) {
    && |all| == ID_COUNT + OOD_COUNT
    && forall pool: Pool :: pool in pools && pools[pool] == all[Offset(pool)..Offset(pool) + PoolSize(pool)]
  }

  /** What is known of an accepted plan: its pools cut the stratified order and then the sorted
      reservation, and its replay ids head the preference order of update_source. */
  ghost predicate Made(plan: Plan, o: seq<Task>, ood: seq<Task>, hash: Hash) {
    && |o| == ID_COUNT && |ood| == OOD_COUNT
    && Slices(plan.pools, o + ood) && AllUnique(plan.pools)
    && Families(ood) == OOD_FAMILIES && (forall t | t in o :: !IsOod(t))
    && Replays(plan.pools[UpdateSource], hash, plan.replay)
  }

  ghost predicate Replays(source: seq<Task>, hash: Hash, replay: seq<string>) {
    |Sort(ReplayLe(hash), source)| >= REPLAY_COUNT && replay == Ids(Sort(ReplayLe(hash), source)[..REPLAY_COUNT])
  }

  lemma CutPools(o: seq<Task>, ood: seq<Task>)
    requires |o| == ID_COUNT && |ood| == OOD_COUNT
    ensures Slices(IdPools(o)[ReleaseOod := ood], o + ood)
  {
    var pools, all := IdPools(o)[ReleaseOod := ood], o + ood;
    forall pool: Pool ensures pool in pools && pools[pool] == all[Offset(pool)..Offset(pool) + PoolSize(pool)] {
      match pool
      case ReleaseOod => assert all[77..97] == ood;
      case _ =>
    }
  }

  lemma OrderedParts(tasks: seq<Task>, hash: Hash)
    ensures var o, ood := StratifiedOrderOf(Filter(tasks, false), hash), Sort(HashLe(hash), Filter(tasks, true));
            && |o| == |Filter(tasks, false)| && |ood| == |Filter(tasks, true)|
            && multiset(o + ood) == multiset(tasks)
            && (forall t | t in o :: !IsOod(t)) && Families(ood) == Families(Filter(tasks, true))
  {
    var o, ood := StratifiedOrderOf(Filter(tasks, false), hash), Sort(HashLe(hash), Filter(tasks, true));
    OrderLength(Filter(tasks, false), hash);
    OrderIsPermutation(Filter(tasks, false), hash);
    HashOrder(hash);
    SortSorts(HashLe(hash), Filter(tasks, true));
    FilterSplits(tasks);
    FilterMembers(tasks, false);
    SameElements(o, Filter(tasks, false));
    SameElements(ood, Filter(tasks, true));
  }

  lemma PlanFields(tasks: seq<Task>, hash: Hash, plan: Plan)
    requires PlanOf(tasks, hash) == Success(plan)
    ensures var o, ood := StratifiedOrderOf(Filter(tasks, false), hash), Sort(HashLe(hash), Filter(tasks, true));
            && |Filter(tasks, true)| == OOD_COUNT && |Filter(tasks, false)| == ID_COUNT == |o|
            && Families(Filter(tasks, true)) == OOD_FAMILIES
            && plan.pools == IdPools(o)[ReleaseOod := ood] && AllUnique(plan.pools)
    ensures UpdateSource in plan.pools && Replays(plan.pools[UpdateSource], hash, plan.replay)
  {
    OrderLength(Filter(tasks, false), hash);
    var o := StratifiedOrderOf(Filter(tasks, false), hash);
    SortLength(ReplayLe(hash), o[7..32]);
  }

  /** An accepted plan is made from a permutation of the catalog. */
  lemma PlanIsMade(tasks: seq<Task>, hash: Hash, plan: Plan) returns (o: seq<Task>, ood: seq<Task>)
    requires PlanOf(tasks, hash) == Success(plan)
    ensures o == StratifiedOrderOf(Filter(tasks, false), hash) && ood == Sort(HashLe(hash), Filter(tasks, true))
    ensures Made(plan, o, ood, hash) && multiset(o + ood) == multiset(tasks)
  {
    o, ood := StratifiedOrderOf(Filter(tasks, false), hash), Sort(HashLe(hash), Filter(tasks, true));
    PlanFields(tasks, hash, plan);
    OrderedParts(tasks, hash);
    CutPools(o, ood);
  }

  /** The pools have their frozen sizes, and every catalog task occurs in them as often as in the
      catalog. */
  lemma PlanPartitions(tasks: seq<Task>, hash: Hash, plan: Plan)
    requires PlanOf(tasks, hash) == Success(plan)
    ensures forall pool: Pool :: pool in plan.pools
    ensures |plan.pools[Pilot]| == 7 && |plan.pools[UpdateSource]| == 25 && |plan.pools[UpdateCheck]| == 10
    ensures |plan.pools[Selection]| == 15 && |plan.pools[ReleaseId]| == 20 && |plan.pools[ReleaseOod]| == 20
    ensures multiset(tasks)
         == multiset(plan.pools[Pilot] + plan.pools[UpdateSource] + plan.pools[UpdateCheck]
                     + plan.pools[Selection] + plan.pools[ReleaseId] + plan.pools[ReleaseOod])
  {
    var o, ood := PlanIsMade(tasks, hash, plan);
    SlicesJoin(plan.pools, o + ood);
  }

  lemma SlicesJoin(pools: map<Pool, seq<Task>>, all: seq<Task>)
    requires Slices(pools, all)
    ensures forall pool: Pool :: pool in pools && |pools[pool]| == PoolSize(pool)
    ensures all == pools[Pilot] + pools[UpdateSource] + pools[UpdateCheck]
                   + pools[Selection] + pools[ReleaseId] + pools[ReleaseOod]
  {
  }

  /** No task id occurs in two pools. */
  ghost predicate DisjointPools(pools: map<Pool, seq<Task>>) {
    forall p, q | p in pools && q in pools && p != q :: NoSharedId(pools[p], pools[q])
  }

  ghost predicate NoSharedId(a: seq<Task>, b: seq<Task>) {
    forall i, j | 0 <= i < |a| && 0 <= j < |b| :: a[i].taskId != b[j].taskId
  }

  lemma UniqueIdsPermute(a: seq<Task>, b: seq<Task>)
    requires multiset(a) == multiset(b) && UniqueIds(a)
    ensures UniqueIds(b)
  {
    forall i, j | 0 <= i < j < |b| ensures b[i].taskId != b[j].taskId {
      var k, l := Places(a, b, i, j);
    }
  }

  lemma UniqueInSlices(pools: map<Pool, seq<Task>>, all: seq<Task>, p: Pool, q: Pool)
    requires Slices(pools, all) && UniqueIds(all) && p != q
    ensures NoSharedId(pools[p], pools[q])
  {
  }

  lemma UniqueAcrossSlices(pools: map<Pool, seq<Task>>, all: seq<Task>, x: nat, y: nat)
    requires Slices(pools, all) && AllUnique(pools) && DisjointPools(pools) && x < y < |all|
    ensures all[x].taskId != all[y].taskId
  {
    var p, q := PoolAt(x), PoolAt(y);
    assert pools[p][x - Offset(p)] == all[x] && pools[q][y - Offset(q)] == all[y];
    if p == q {
      assert UniqueIds(pools[p]);
    } else {
      assert NoSharedId(pools[p], pools[q]);
    }
  }

  /** Per-pool validation alone does not make pools disjoint: the pools of an accepted plan are
      disjoint exactly when the catalog has unique ids, which only the catalog reader checks. */
  lemma DisjointExactlyWhenUnique(tasks: seq<Task>, hash: Hash, plan: Plan)
    requires PlanOf(tasks, hash) == Success(plan)
    ensures DisjointPools(plan.pools) <==> UniqueIds(tasks)
  {
    var o, ood := PlanIsMade(tasks, hash, plan);
    var all := o + ood;
    if UniqueIds(tasks) {
      UniqueIdsPermute(tasks, all);
      forall p, q | p in plan.pools && q in plan.pools && p != q ensures NoSharedId(plan.pools[p], plan.pools[q]) {
        UniqueInSlices(plan.pools, all, p, q);
      }
    }
    if DisjointPools(plan.pools) {
      forall x, y | 0 <= x < y < |all| ensures all[x].taskId != all[y].taskId {
        UniqueAcrossSlices(plan.pools, all, x, y);
      }
      UniqueIdsPermute(all, tasks);
    }
  }

  // A catalog that repeats twenty ids, once in a reserved family and once outside, is split all the same.

  function IdOf(i: nat): (r: string)
    ensures |r| == i
  {
    seq(i, _ => 'x')
  }

  function ReservedTask(i: nat): (r: Task) {
    var family := if i == 0 then "human_transfer" else if i == 1 then "referral" else "high_risk_account_action";
    Task(IdOf(i), family, true, 1, 1)
  }

  function PlainTask(i: nat): (r: Task) { Task(IdOf(i), "plain", false, 1, 1) }

  function Reserved(): (r: seq<Task>) { seq(OOD_COUNT, i requires i >= 0 => ReservedTask(i)) }

  function Plain(): (r: seq<Task>) { seq(ID_COUNT, i requires i >= 0 => PlainTask(i)) }

  lemma {:induction false} FilterAll(tasks: seq<Task>, ood: bool)
    requires forall t | t in tasks :: IsOod(t) == ood
    ensures Filter(tasks, ood) == tasks && Filter(tasks, !ood) == []
  {
    if tasks == [] {
    } else {
      var front := tasks[..|tasks| - 1];
      assert tasks == front + [tasks[|tasks| - 1]];
      FilterAll(front, ood);
    }
  }

  lemma {:induction false} FilterJoins(a: seq<Task>, b: seq<Task>, ood: bool)
    ensures Filter(a + b, ood) == Filter(a, ood) + Filter(b, ood)
    decreases |b|
  {
    if b == [] {
      assert a + b == a;
    } else {
      assert (a + b)[..|a + b| - 1] == a + b[..|b| - 1];
      FilterJoins(a, b[..|b| - 1], ood);
    }
  }

  lemma FilterParts(reserved: seq<Task>, plain: seq<Task>)
    requires (forall t | t in reserved :: IsOod(t)) && forall t | t in plain :: !IsOod(t)
    ensures Filter(reserved + plain, true) == reserved && Filter(reserved + plain, false) == plain
  {
    FilterAll(reserved, true);
    FilterAll(plain, false);
    FilterJoins(reserved, plain, true);
    FilterJoins(reserved, plain, false);
  }

  lemma ReservedFamilies(reserved: seq<Task>, plain: seq<Task>)
    requires reserved == Reserved() && plain == Plain()
    ensures (forall t | t in reserved :: IsOod(t)) && forall t | t in plain :: !IsOod(t)
    ensures Families(reserved) == OOD_FAMILIES
  {
    forall t | t in plain ensures !IsOod(t) {
      assert t.family == "plain" && "plain"[1] == 'l';
    }
    assert reserved[0] in reserved && reserved[1] in reserved && reserved[2] in reserved;
  }

  lemma IdsUnique(tasks: seq<Task>)
    requires forall i | 0 <= i < |tasks| :: |tasks[i].taskId| == i
    ensures UniqueIds(tasks)
  {
  }

  lemma OrderedUnique(reserved: seq<Task>, plain: seq<Task>, hash: Hash)
    requires UniqueIds(reserved) && UniqueIds(plain)
    ensures UniqueIds(StratifiedOrderOf(plain, hash)) && UniqueIds(Sort(HashLe(hash), reserved))
  {
    OrderIsPermutation(plain, hash);
    UniqueIdsPermute(plain, StratifiedOrderOf(plain, hash));
    HashOrder(hash);
    SortSorts(HashLe(hash), reserved);
    UniqueIdsPermute(reserved, Sort(HashLe(hash), reserved));
  }

  /** Unique ids inside the two parts are enough for an accepted plan. */
  lemma PartsAreAccepted(reserved: seq<Task>, plain: seq<Task>, hash: Hash)
    requires |reserved| == OOD_COUNT && |plain| == ID_COUNT && Families(reserved) == OOD_FAMILIES
    requires (forall t | t in reserved :: IsOod(t)) && forall t | t in plain :: !IsOod(t)
    requires UniqueIds(reserved) && UniqueIds(plain)
    ensures PlanOf(reserved + plain, hash).Success?
  {
    FilterParts(reserved, plain);
    OrderedUnique(reserved, plain, hash);
    OrderLength(plain, hash);
  }

  /** Whatever the digest, the plan of that catalog is accepted, and two of its pools share an id. */
  lemma RepeatedIdsAreAccepted(hash: Hash) returns (tasks: seq<Task>, plan: Plan)
    ensures PlanOf(tasks, hash) == Success(plan) && !DisjointPools(plan.pools)
  {
    var reserved, plain := Reserved(), Plain();
    ReservedFamilies(reserved, plain);
    IdsUnique(reserved);
    IdsUnique(plain);
    PartsAreAccepted(reserved, plain, hash);
    tasks := reserved + plain;
    plan := PlanOf(tasks, hash).value;
    assert tasks[1].taskId == IdOf(1) == tasks[OOD_COUNT + 1].taskId;
    DisjointExactlyWhenUnique(tasks, hash, plan);
  }

  /** The reserved families are exactly the families of the OOD pool, and no other pool has one. */
  lemma OodIsReserved(tasks: seq<Task>, hash: Hash, plan: Plan)
    requires PlanOf(tasks, hash) == Success(plan)
    ensures ReleaseOod in plan.pools
    ensures Families(plan.pools[ReleaseOod]) == {"human_transfer", "referral", "high_risk_account_action"}
    ensures forall pool, t | pool in plan.pools && pool != ReleaseOod && t in plan.pools[pool] ::
              t.family !in Families(plan.pools[ReleaseOod])
  {
    var o, ood := PlanIsMade(tasks, hash, plan);
    ReservedOfSlices(plan, o, ood, hash);
  }

  /** The reserved tasks are listed by digest. */
  lemma OodIsSorted(tasks: seq<Task>, hash: Hash, plan: Plan, i: nat, j: nat)
    requires PlanOf(tasks, hash) == Success(plan) && i < j < 20
    ensures ReleaseOod in plan.pools && |plan.pools[ReleaseOod]| == 20
    ensures hash(plan.pools[ReleaseOod][i].taskId) <= hash(plan.pools[ReleaseOod][j].taskId)
  {
    var o, ood := PlanIsMade(tasks, hash, plan);
    assert plan.pools[ReleaseOod] == (o + ood)[77..97] == ood;
    HashOrder(hash);
    SortSorts(HashLe(hash), Filter(tasks, true));
    assert HashLe(hash)(ood[i], ood[j]);
  }

  lemma OodOfSlices(plan: Plan, o: seq<Task>, ood: seq<Task>, hash: Hash)
    requires Made(plan, o, ood, hash)
    ensures Families(plan.pools[ReleaseOod]) == OOD_FAMILIES
    ensures forall pool, t | pool in plan.pools && pool != ReleaseOod && t in plan.pools[pool] :: !IsOod(t)
  {
    assert plan.pools[ReleaseOod] == (o + ood)[77..97] == ood;
    forall pool, t | pool in plan.pools && pool != ReleaseOod && t in plan.pools[pool] ensures !IsOod(t) {
      var i :| 0 <= i < |plan.pools[pool]| && plan.pools[pool][i] == t;
      assert t == (o + ood)[Offset(pool) + i] && Offset(pool) + i < ID_COUNT;
      assert t in o;
    }
  }

  /** The replay set has ten distinct ids of update_source in the order of preference, and no task left out
      is preferred to one taken: none of high risk for one of low risk, none with more documents for one
      with fewer, and so on. */
  lemma ReplayIsTopTen(tasks: seq<Task>, hash: Hash, plan: Plan)
    requires PlanOf(tasks, hash) == Success(plan)
    ensures UpdateSource in plan.pools && TopTen(plan.pools[UpdateSource], hash, plan.replay)
  {
    var o, ood := PlanIsMade(tasks, hash, plan);
    HeadIsTopTen(plan.pools[UpdateSource], hash, plan.replay);
  }

  ghost predicate TopTen(source: seq<Task>, hash: Hash, replay: seq<string>) {
    && |replay| == REPLAY_COUNT
    && (forall i, j | 0 <= i < j < REPLAY_COUNT :: replay[i] != replay[j])
    && (forall id | id in replay :: HasId(source, id))
    && (forall s, t | s in source && t in source && s.taskId in replay && t.taskId !in replay ::
          Preferred(hash, s, t))
    && (forall i, j, s, t | 0 <= i < j < REPLAY_COUNT && s in source && t in source
          && s.taskId == replay[i] && t.taskId == replay[j] :: Preferred(hash, s, t))
  }

  /** High risk goes before low risk; at equal risk more documents before fewer, then more tools, and then
      the smaller digest. */
  ghost predicate Preferred(hash: Hash, s: Task, t: Task) {
    && (t.highRisk ==> s.highRisk)
    && (s.highRisk == t.highRisk ==> s.documents >= t.documents)
    && (s.highRisk == t.highRisk && s.documents == t.documents ==> s.tools >= t.tools)
    && (s.highRisk == t.highRisk && s.documents == t.documents && s.tools == t.tools ==>
          hash(s.taskId) <= hash(t.taskId))
  }

  ghost predicate HasId(tasks: seq<Task>, id: string) {
    exists t :: t in tasks && t.taskId == id
  }

  lemma HeadIsTopTen(source: seq<Task>, hash: Hash, replay: seq<string>)
    requires UniqueIds(source) && Replays(source, hash, replay)
    ensures TopTen(source, hash, replay)
  {
    var sorted := Sort(ReplayLe(hash), source);
    SortSorts(ReplayLe(hash), source);
    SameElements(sorted, source);
    UniqueIdsPermute(source, sorted);
    forall id | id in replay ensures HasId(source, id) {
      var i :| 0 <= i < REPLAY_COUNT && sorted[i].taskId == id;
      assert sorted[i] in source;
    }
    forall s, t | s in source && t in source && s.taskId in replay && t.taskId !in replay
      ensures Preferred(hash, s, t)
    {
      HeadBeforeTail(sorted, hash, replay, s, t);
    }
    forall i, j, s, t | 0 <= i < j < REPLAY_COUNT && s in source && t in source
      && s.taskId == replay[i] && t.taskId == replay[j]
      ensures Preferred(hash, s, t)
    {
      SameId(sorted, s, i);
      SameId(sorted, t, j);
      assert ReplayLe(hash)(sorted[i], sorted[j]);
    }
  }

  lemma SameId(sorted: seq<Task>, t: Task, i: nat)
    requires UniqueIds(sorted) && t in sorted && i < |sorted| && sorted[i].taskId == t.taskId
    ensures sorted[i] == t
  {
    var j :| 0 <= j < |sorted| && sorted[j] == t;
  }

  lemma HeadBeforeTail(sorted: seq<Task>, hash: Hash, replay: seq<string>, s: Task, t: Task)
    requires SortedBy(ReplayLe(hash), sorted) && UniqueIds(sorted) && |sorted| >= REPLAY_COUNT
    requires replay == Ids(sorted[..REPLAY_COUNT]) && s in sorted && t in sorted
    requires s.taskId in replay && t.taskId !in replay
    ensures ReplayFirst(hash, s, t)
  {
    var i :| 0 <= i < |sorted| && sorted[i] == s;
    var j :| 0 <= j < |sorted| && sorted[j] == t;
    var h :| 0 <= h < REPLAY_COUNT && replay[h] == s.taskId;
    forall k | 0 <= k < REPLAY_COUNT ensures sorted[k].taskId == replay[k] && replay[k] in replay {
    }
    assert ReplayLe(hash)(sorted[i], sorted[j]);
  }

  /** With a digest that tells tasks apart, the plan is the same for every order of the catalog. */
  lemma PlanForgetsInput(tasks: seq<Task>, other: seq<Task>, hash: Hash)
    requires multiset(tasks) == multiset(other) && HashInjective(tasks, hash)
    ensures PlanOf(tasks, hash) == PlanOf(other, hash)
  {
    forall ood: bool ensures multiset(Filter(tasks, ood)) == multiset(Filter(other, ood)) {
      FilterCounts(tasks, ood);
      FilterCounts(other, ood);
    }
    FilterMembers(tasks, true);
    FilterMembers(tasks, false);
    SameElements(Filter(tasks, true), Filter(other, true));
    SameElements(Filter(tasks, false), Filter(other, false));
    OrderForgetsInput(Filter(tasks, false), Filter(other, false), hash);
    HashOrder(hash);
    SortForgetsOrder(HashLe(hash), Filter(tasks, true), Filter(other, true));
    assert Families(Filter(tasks, true)) == Families(Filter(other, true));
  }

  lemma {:induction false} FilterCounts(tasks: seq<Task>, ood: bool)
    ensures forall t :: multiset(Filter(tasks, ood))[t] == if IsOod(t) == ood then multiset(tasks)[t] else 0
  {
    if tasks == [] {
    } else {
      var rest, t := tasks[..|tasks| - 1], tasks[|tasks| - 1];
      assert tasks == rest + [t];
      FilterCounts(rest, ood);
    }
  }

  /** Every in-distribution pool is a fair slice: two strata that the later pools still draw from
      contribute to it numbers of tasks that differ by at most one. */
  lemma PoolsAreFair(tasks: seq<Task>, hash: Hash, plan: Plan, pool: Pool, x: StratumKey, y: StratumKey)
    requires PlanOf(tasks, hash) == Success(plan) && pool != ReleaseOod
    requires DrawnLater(StratifiedOrderOf(Filter(tasks, false), hash), pool, x)
    requires DrawnLater(StratifiedOrderOf(Filter(tasks, false), hash), pool, y)
    ensures pool in plan.pools && -1 <= Share(plan.pools[pool], x) - Share(plan.pools[pool], y) <= 1
  {
    var o, ood := PlanIsMade(tasks, hash, plan);
    PoolIsSlice(plan.pools, o, ood, pool);
    SliceIsFair(Filter(tasks, false), hash, Offset(pool), Offset(pool) + PoolSize(pool), x, y);
  }

  lemma PoolIsSlice(pools: map<Pool, seq<Task>>, o: seq<Task>, ood: seq<Task>, pool: Pool)
    requires Slices(pools, o + ood) && |o| == ID_COUNT && pool != ReleaseOod
    ensures pools[pool] == o[Offset(pool)..Offset(pool) + PoolSize(pool)]
  {
    var to := Offset(pool) + PoolSize(pool);
    assert (o + ood)[Offset(pool)..to] == o[Offset(pool)..to];
  }

  /** Some task of stratum `key` comes after the slice of `pool`. */
  ghost predicate DrawnLater(o: seq<Task>, pool: Pool, key: StratumKey) {
    var to := Offset(pool) + PoolSize(pool);
    to <= |o| && Share(o[..to], key) < Share(o, key)
  }

  // ---- The reader of the split ----

  /** The sizes of the six pools. */
  ghost predicate FrozenSizes(pools: map<Pool, seq<Task>>) {
    && (forall pool: Pool :: pool in pools)
    && |pools[Pilot]| == 7 && |pools[UpdateSource]| == 25 && |pools[UpdateCheck]| == 10
    && |pools[Selection]| == 15 && |pools[ReleaseId]| == 20 && |pools[ReleaseOod]| == 20
  }

  /** The checks of the split service on the manifests and the replay ids. */
  ghost predicate PassesSplitService(plan: Plan) {
    && FrozenSizes(plan.pools) && AllUnique(plan.pools) && DisjointPools(plan.pools)
    && |plan.replay| == 10 && (forall i, j | 0 <= i < j < 10 :: plan.replay[i] != plan.replay[j])
    && (forall id | id in plan.replay :: HasId(plan.pools[UpdateSource], id))
    && 2 <= |Families(plan.pools[ReleaseOod])| <= 3
    && FamiliesReserved(plan.pools)
  }

  ghost predicate FamiliesReserved(pools: map<Pool, seq<Task>>)
    requires ReleaseOod in pools
  {
    forall pool, t | pool in pools && pool != ReleaseOod && t in pools[pool] ::
      t.family !in Families(pools[ReleaseOod])
  }

  /** The plan of a catalog that was read with unique ids always passes the split service. */
  lemma PlanPassesService(tasks: seq<Task>, hash: Hash, plan: Plan)
    requires PlanOf(tasks, hash) == Success(plan) && UniqueIds(tasks)
    ensures PassesSplitService(plan)
  {
    var o, ood := PlanIsMade(tasks, hash, plan);
    DisjointExactlyWhenUnique(tasks, hash, plan);
    MadePasses(plan, o, ood, hash);
  }

  lemma MadePasses(plan: Plan, o: seq<Task>, ood: seq<Task>, hash: Hash)
    requires Made(plan, o, ood, hash) && DisjointPools(plan.pools)
    ensures PassesSplitService(plan)
  {
    SizesOfSlices(plan.pools, o + ood);
    ReservedOfSlices(plan, o, ood, hash);
    HeadIsTopTen(plan.pools[UpdateSource], hash, plan.replay);
    ThreeFamilies();
  }

  lemma SizesOfSlices(pools: map<Pool, seq<Task>>, all: seq<Task>)
    requires Slices(pools, all)
    ensures FrozenSizes(pools)
  {
  }

  lemma ReservedOfSlices(plan: Plan, o: seq<Task>, ood: seq<Task>, hash: Hash)
    requires Made(plan, o, ood, hash)
    ensures Families(plan.pools[ReleaseOod]) == OOD_FAMILIES && FamiliesReserved(plan.pools)
  {
    OodOfSlices(plan, o, ood, hash);
    forall pool, t | pool in plan.pools && pool != ReleaseOod && t in plan.pools[pool]
      ensures t.family !in Families(plan.pools[ReleaseOod])
    {
      assert !IsOod(t);
    }
  }

  lemma ThreeFamilies()
    ensures |OOD_FAMILIES| == 3
  {
    assert "human_transfer"[0] != "referral"[0];
    assert "referral"[1] != "high_risk_account_action"[1];
    assert "human_transfer"[1] != "high_risk_account_action"[1];
  }
}
