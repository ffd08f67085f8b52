/** The stratified round-robin order of the benchmark catalog
    (agentloopgate/adapters/tau3.py, Tau3TaskCatalog._stratified_order). */
module Strata {
  import opened Common
  import opened Ordering

  datatype Task = Task(taskId: string, family: string, highRisk: bool, documents: nat, tools: nat)

  datatype StratumKey = StratumKey(family: string, highRisk: bool, documents: nat, tools: nat)

  function Cap(n: nat): (r: nat) { if n < 3 then n else 3 }

  function KeyOf(t: Task): (r: StratumKey) { StratumKey(t.family, t.highRisk, Cap(t.documents), Cap(t.tools)) }

  /** Keys compare like the tuples of the source: field by field, false before true. */
  predicate KeyLe(a: StratumKey, b: StratumKey) {
    if a.family != b.family then StringLe(a.family, b.family)
    else if a.highRisk != b.highRisk then b.highRisk
    else if a.documents != b.documents then a.documents < b.documents
    else a.tools <= b.tools
  }

  lemma KeyOrder()
    ensures TotalPreorder(KeyLe)
    ensures forall a, b :: KeyLe(a, b) && KeyLe(b, a) ==> a == b
  {
    forall a, b ensures KeyLe(a, b) || KeyLe(b, a)
      ensures KeyLe(a, b) && KeyLe(b, a) ==> a == b
    {
      StringTotal(a.family, b.family);
    }
    forall a, b, c | KeyLe(a, b) && KeyLe(b, c) ensures KeyLe(a, c) {
      if StringLe(a.family, b.family) && StringLe(b.family, c.family) {
        StringTransitive(a.family, b.family, c.family);
        StringTotal(a.family, b.family);
        StringTotal(b.family, c.family);
      }
    }
  }

  /** The digest of a task id, as the number that its fixed-length hexadecimal text denotes. */
  type Hash = string -> nat

  function HashLe(hash: Hash): (r: (Task, Task) -> bool) {
    (a: Task, b: Task) => hash(a.taskId) <= hash(b.taskId)
  }

  lemma HashOrder(hash: Hash)
    ensures TotalPreorder(HashLe(hash))
  {
  }

  // ---- Strata ----

  function OfStratum(tasks: seq<Task>, key: StratumKey): (r: seq<Task>) {
    if tasks == [] then []
    else
      var rest, t := OfStratum(tasks[..|tasks| - 1], key), tasks[|tasks| - 1];
      if KeyOf(t) == key then rest + [t] else rest
  }

  function InsertKey(key: StratumKey, keys: seq<StratumKey>): (r: seq<StratumKey>) {
    if key in keys then keys else Insert(KeyLe, key, keys)
  }

  /** The strata that occur, in key order. */
  function KeysOf(tasks: seq<Task>): (r: seq<StratumKey>) {
    if tasks == [] then [] else InsertKey(KeyOf(tasks[|tasks| - 1]), KeysOf(tasks[..|tasks| - 1]))
  }

  ghost predicate KeyList(keys: seq<StratumKey>, members: set<StratumKey>) {
    && SortedBy(KeyLe, keys)
    && Distinct(keys)
    && (forall k :: k in keys <==> k in members)
  }

  ghost function KeySet(tasks: seq<Task>): (r: set<StratumKey>) {
    set t | t in tasks :: KeyOf(t)
  }

  lemma InsertKeyKeeps(key: StratumKey, keys: seq<StratumKey>, members: set<StratumKey>)
    requires KeyList(keys, members)
    ensures KeyList(InsertKey(key, keys), members + {key})
  {
    if key !in keys {
      KeyOrder();
      InsertKeeps(KeyLe, key, keys);
      var s := Insert(KeyLe, key, keys);
      SameElements(s, keys + [key]);
      forall i, j | 0 <= i < j < |s| ensures s[i] != s[j] {
        var k, l := Places(keys + [key], s, i, j);
      }
    }
  }

  lemma {:induction false} Once<T(!new)>(s: seq<T>, x: T)
    requires Distinct(s)
    ensures multiset(s)[x] <= 1
  {
    if s == [] {
    } else {
      var rest := s[..|s| - 1];
      assert s == rest + [s[|s| - 1]];
      Once(rest, x);
    }
  }

  lemma {:induction false} KeysOfIsList(tasks: seq<Task>)
    ensures KeyList(KeysOf(tasks), KeySet(tasks))
  {
    if tasks == [] {
    } else {
      var rest, t := tasks[..|tasks| - 1], tasks[|tasks| - 1];
      assert tasks == rest + [t];
      KeysOfIsList(rest);
      InsertKeyKeeps(KeyOf(t), KeysOf(rest), KeySet(rest));
      assert KeySet(tasks) == KeySet(rest) + {KeyOf(t)};
    }
  }

  lemma KeyListUnique(a: seq<StratumKey>, b: seq<StratumKey>, members: set<StratumKey>)
    requires KeyList(a, members) && KeyList(b, members)
    ensures a == b
  {
    KeyOrder();
    forall x ensures multiset(a)[x] == multiset(b)[x] {
      Once(a, x);
      Once(b, x);
      assert x in multiset(a) <==> x in a;
      assert x in multiset(b) <==> x in b;
    }
    SortedUnique(KeyLe, a, b);
  }

  /** The buckets in key order, each sorted by hash. */
  function Buckets(tasks: seq<Task>, hash: Hash): (r: seq<seq<Task>>) {
    var keys := KeysOf(tasks);
    seq(|keys|, k requires 0 <= k < |keys| => Sort(HashLe(hash), OfStratum(tasks, keys[k])))
  }

  // ---- The order: round r takes item r of every bucket that still has one ----

  /** What the round-robin has produced after `r` full rounds and the first `p` buckets of the next. */
  function Order(b: seq<seq<Task>>, r: nat, p: nat): (out: seq<Task>)
    requires p <= |b|
    decreases r, p
  {
    if p > 0 then
      if r < |b[p - 1]| then Order(b, r, p - 1) + [b[p - 1][r]] else Order(b, r, p - 1)
    else if r > 0 then Order(b, r - 1, |b|)
    else []
  }

  function Rounds(b: seq<seq<Task>>): (r: nat) {
    if b == [] then 0
    else
      var rest, n := Rounds(b[..|b| - 1]), |b[|b| - 1]|;
      if rest < n then n else rest
  }

  lemma {:induction false} RoundsBound(b: seq<seq<Task>>)
    ensures forall k | 0 <= k < |b| :: |b[k]| <= Rounds(b)
    ensures Rounds(b) > 0 ==> exists k :: 0 <= k < |b| && |b[k]| == Rounds(b)
  {
    if b == [] {
    } else {
      RoundsBound(b[..|b| - 1]);
      if Rounds(b) == |b[|b| - 1]| {
      } else {
        var k :| 0 <= k < |b| - 1 && |b[..|b| - 1][k]| == Rounds(b[..|b| - 1]);
        assert |b[k]| == Rounds(b);
      }
    }
  }

  function StratifiedOrderOf(tasks: seq<Task>, hash: Hash): (r: seq<Task>) {
    var b := Buckets(tasks, hash);
    Order(b, Rounds(b), 0)
  }

  // ---- The destructive loop of the source ----

  method GroupTasks(tasks: seq<Task>) returns (strata: map<StratumKey, seq<Task>>)
    ensures strata.Keys == KeySet(tasks)
    ensures forall key | key in strata :: strata[key] == OfStratum(tasks, key)
  {
    strata := map[];
    for i := 0 to |tasks|
      invariant strata.Keys == KeySet(tasks[..i])
      invariant forall key | key in strata :: strata[key] == OfStratum(tasks[..i], key)
    {
      ghost var before, after := tasks[..i], tasks[..i + 1];
      assert after == before + [tasks[i]] && after[..i] == before;
      assert KeySet(after) == KeySet(before) + {KeyOf(tasks[i])};
      var key := KeyOf(tasks[i]);
      if key !in strata {
        AbsentStratum(before, key);
        strata := strata[key := []];
      }
      strata := strata[key := strata[key] + [tasks[i]]];
    }
    assert tasks[..|tasks|] == tasks;
  }

  lemma {:induction false} AbsentStratum(tasks: seq<Task>, key: StratumKey)
    requires key !in KeySet(tasks)
    ensures OfStratum(tasks, key) == []
  {
    if tasks == [] {
    } else {
      var rest, t := tasks[..|tasks| - 1], tasks[|tasks| - 1];
      assert tasks == rest + [t] && t in tasks;
      AbsentStratum(rest, key);
    }
  }

  method SortedKeys(members: set<StratumKey>) returns (keys: seq<StratumKey>)
    ensures KeyList(keys, members)
  {
    keys := [];
    var rest := members;
    while rest != {}
      invariant rest <= members
      invariant KeyList(keys, members - rest)
      decreases |rest|
    {
      var key :| key in rest;
      InsertKeyKeeps(key, keys, members - rest);
      assert members - rest + {key} == members - (rest - {key});
      keys := InsertKey(key, keys);
      rest := rest - {key};
    }
    assert members - rest == members;
  }

  /** Bucket `b` after `n` items have been popped from its front. */
  function After(b: seq<Task>, n: nat): (r: seq<Task>) {
    if n <= |b| then b[n..] else []
  }

  ghost predicate Remaining(strata: map<StratumKey, seq<Task>>, keys: seq<StratumKey>, b: seq<seq<Task>>,
                            r: nat, p: nat) {
    && |b| == |keys|
    && forall i | 0 <= i < |keys| :: keys[i] in strata && strata[keys[i]] == After(b[i], if i < p then r + 1 else r)
  }

  /** One pass over the buckets, popping the front of each that is not empty. */
  method PopRound(strata: map<StratumKey, seq<Task>>, keys: seq<StratumKey>, ordered: seq<Task>,
                  ghost b: seq<seq<Task>>, ghost r: nat)
    returns (strata': map<StratumKey, seq<Task>>, ordered': seq<Task>)
    requires Distinct(keys)
    requires Remaining(strata, keys, b, r, 0) && ordered == Order(b, r, 0)
    ensures Remaining(strata', keys, b, r + 1, 0) && ordered' == Order(b, r + 1, 0)
  {
    strata', ordered' := strata, ordered;
    for p := 0 to |keys|
      invariant Remaining(strata', keys, b, r, p)
      invariant ordered' == Order(b, r, p)
    {
      var key := keys[p];
      PopStep(strata', keys, b, r, p);
      if strata'[key] != [] {
        ordered' := ordered' + [strata'[key][0]];
        strata' := strata'[key := strata'[key][1..]];
      }
    }
    RoundDone(strata', keys, b, r);
  }

  lemma PopStep(strata: map<StratumKey, seq<Task>>, keys: seq<StratumKey>, b: seq<seq<Task>>, r: nat, p: nat)
    requires Distinct(keys) && p < |keys|
    requires Remaining(strata, keys, b, r, p)
    ensures if strata[keys[p]] == [] then
              Remaining(strata, keys, b, r, p + 1) && Order(b, r, p + 1) == Order(b, r, p)
            else
              && Remaining(strata[keys[p] := strata[keys[p]][1..]], keys, b, r, p + 1)
              && Order(b, r, p + 1) == Order(b, r, p) + [strata[keys[p]][0]]
  {
  }

  lemma RoundDone(strata: map<StratumKey, seq<Task>>, keys: seq<StratumKey>, b: seq<seq<Task>>, r: nat)
    requires Remaining(strata, keys, b, r, |keys|)
    ensures Remaining(strata, keys, b, r + 1, 0) && Order(b, r, |keys|) == Order(b, r + 1, 0)
  {
  }

  method SortedBuckets(tasks: seq<Task>, hash: Hash)
    returns (strata: map<StratumKey, seq<Task>>, keys: seq<StratumKey>)
    ensures keys == KeysOf(tasks) && Remaining(strata, keys, Buckets(tasks, hash), 0, 0)
  {
    var groups := GroupTasks(tasks);
    keys := SortedKeys(groups.Keys);
    KeysOfIsList(tasks);
    KeyListUnique(keys, KeysOf(tasks), KeySet(tasks));
    strata := map key | key in groups :: Sort(HashLe(hash), groups[key]);
  }

  method StratifiedOrder(tasks: seq<Task>, hash: Hash) returns (ordered: seq<Task>)
    ensures ordered == StratifiedOrderOf(tasks, hash)
  {
    var strata, keys := SortedBuckets(tasks, hash);
    ghost var b, r := Buckets(tasks, hash), 0;
    KeysOfIsList(tasks);
    ordered := [];
    while exists i :: 0 <= i < |keys| && keys[i] in strata && strata[keys[i]] != []
      invariant r <= Rounds(b)
      invariant Remaining(strata, keys, b, r, 0)
      invariant ordered == Order(b, r, 0)
      decreases Rounds(b) - r
    {
      MoreRounds(strata, keys, b, r);
      strata, ordered := PopRound(strata, keys, ordered, b, r);
      r := r + 1;
    }
    AllPopped(strata, keys, b, r);
  }

  lemma MoreRounds(strata: map<StratumKey, seq<Task>>, keys: seq<StratumKey>, b: seq<seq<Task>>, r: nat)
    requires Remaining(strata, keys, b, r, 0)
    requires exists i :: 0 <= i < |keys| && strata[keys[i]] != []
    ensures r < Rounds(b)
  {
    RoundsBound(b);
  }

  lemma AllPopped(strata: map<StratumKey, seq<Task>>, keys: seq<StratumKey>, b: seq<seq<Task>>, r: nat)
    requires Remaining(strata, keys, b, r, 0) && r <= Rounds(b)
    requires forall i | 0 <= i < |keys| :: strata[keys[i]] == []
    ensures r == Rounds(b)
  {
    RoundsBound(b);
    if Rounds(b) > 0 {
      var k :| 0 <= k < |b| && |b[k]| == Rounds(b);
      assert strata[keys[k]] == After(b[k], r);
    }
  }

  // ---- What the order keeps ----

  ghost predicate Bucketed(b: seq<seq<Task>>, keys: seq<StratumKey>) {
    && |b| == |keys|
    && Distinct(keys)
    && (forall k, i | 0 <= k < |b| && 0 <= i < |b[k]| :: KeyOf(b[k][i]) == keys[k])
  }

  function Taken(n: nat, limit: nat): (r: nat) { if n < limit then n else limit }

  /** Restricted to one stratum, every state of the round-robin is a prefix of that bucket. */
  lemma {:induction false} OrderOfStratum(b: seq<seq<Task>>, keys: seq<StratumKey>, r: nat, p: nat, k: nat)
    requires Bucketed(b, keys) && p <= |b| && k < |b|
    ensures OfStratum(Order(b, r, p), keys[k]) == b[k][..Taken(r + (if k < p then 1 else 0), |b[k]|)]
    decreases r, p
  {
    if p > 0 {
      OrderOfStratum(b, keys, r, p - 1, k);
      if r < |b[p - 1]| {
        var o, t := Order(b, r, p - 1), b[p - 1][r];
        assert (o + [t])[..|o|] == o;
        assert KeyOf(t) == keys[p - 1];
        if k == p - 1 {
          assert b[k][..r + 1] == b[k][..r] + [b[k][r]];
        }
      }
    } else if r > 0 {
      OrderOfStratum(b, keys, r - 1, |b|, k);
    }
  }

  // ---- Main results about the order ----

  lemma BucketsAreBucketed(tasks: seq<Task>, hash: Hash)
    ensures Bucketed(Buckets(tasks, hash), KeysOf(tasks))
    ensures forall k | 0 <= k < |KeysOf(tasks)| ::
              multiset(Buckets(tasks, hash)[k]) == multiset(OfStratum(tasks, KeysOf(tasks)[k]))
  {
    KeysOfIsList(tasks);
    HashOrder(hash);
    var b, keys := Buckets(tasks, hash), KeysOf(tasks);
    forall k | 0 <= k < |keys|
      ensures multiset(b[k]) == multiset(OfStratum(tasks, keys[k]))
      ensures forall i | 0 <= i < |b[k]| :: KeyOf(b[k][i]) == keys[k]
    {
      SortSorts(HashLe(hash), OfStratum(tasks, keys[k]));
      SameElements(b[k], OfStratum(tasks, keys[k]));
      StratumMembers(tasks, keys[k]);
      assert forall i | 0 <= i < |b[k]| :: b[k][i] in b[k];
    }
  }

  lemma {:induction false} StratumMembers(tasks: seq<Task>, key: StratumKey)
    ensures forall t :: t in OfStratum(tasks, key) <==> t in tasks && KeyOf(t) == key
  {
    if tasks == [] {
    } else {
      var rest, t := tasks[..|tasks| - 1], tasks[|tasks| - 1];
      assert tasks == rest + [t];
      StratumMembers(rest, key);
    }
  }

  /** A task occurs in a sequence as often as it occurs in its own stratum. */
  lemma {:induction false} CountInStratum(tasks: seq<Task>, t: Task)
    ensures multiset(tasks)[t] == multiset(OfStratum(tasks, KeyOf(t)))[t]
  {
    if tasks == [] {
    } else {
      var rest, last := tasks[..|tasks| - 1], tasks[|tasks| - 1];
      assert tasks == rest + [last];
      CountInStratum(rest, t);
    }
  }

  /** Restricted to any stratum, the whole order is that stratum sorted by hash. */
  lemma WholeStratum(tasks: seq<Task>, hash: Hash, key: StratumKey)
    ensures OfStratum(StratifiedOrderOf(tasks, hash), key) == Sort(HashLe(hash), OfStratum(tasks, key))
  {
    var b, keys := Buckets(tasks, hash), KeysOf(tasks);
    KeysOfIsList(tasks);
    BucketsAreBucketed(tasks, hash);
    RoundsBound(b);
    if key in keys {
      var k :| 0 <= k < |keys| && keys[k] == key;
      OrderOfStratum(b, keys, Rounds(b), 0, k);
      assert b[k][..|b[k]|] == b[k];
    } else {
      OrderKeys(b, keys, Rounds(b), 0);
      AbsentStratum(tasks, key);
      AbsentStratum(Order(b, Rounds(b), 0), key);
    }
  }

  lemma {:induction false} OrderKeys(b: seq<seq<Task>>, keys: seq<StratumKey>, r: nat, p: nat)
    requires Bucketed(b, keys) && p <= |b|
    ensures forall t | t in Order(b, r, p) :: KeyOf(t) in keys
    decreases r, p
  {
    if p > 0 {
      OrderKeys(b, keys, r, p - 1);
    } else if r > 0 {
      OrderKeys(b, keys, r - 1, |b|);
    }
  }

  /** The order is a permutation of the input: nothing is dropped and nothing is repeated. */
  lemma OrderIsPermutation(tasks: seq<Task>, hash: Hash)
    ensures multiset(StratifiedOrderOf(tasks, hash)) == multiset(tasks)
  {
    var o := StratifiedOrderOf(tasks, hash);
    HashOrder(hash);
    forall t ensures multiset(o)[t] == multiset(tasks)[t] {
      CountInStratum(o, t);
      CountInStratum(tasks, t);
      WholeStratum(tasks, hash, KeyOf(t));
      SortSorts(HashLe(hash), OfStratum(tasks, KeyOf(t)));
    }
  }

  /** Within the catalog the digest tells tasks apart. */
  ghost predicate HashInjective(tasks: seq<Task>, hash: Hash) {
    forall a, b | a in tasks && b in tasks && hash(a.taskId) == hash(b.taskId) :: a == b
  }

  /** The order depends on which tasks there are, not on how the input listed them. */
  lemma OrderForgetsInput(tasks: seq<Task>, other: seq<Task>, hash: Hash)
    requires multiset(tasks) == multiset(other) && HashInjective(tasks, hash)
    ensures StratifiedOrderOf(tasks, hash) == StratifiedOrderOf(other, hash)
  {
    SameElements(tasks, other);
    KeysOfIsList(tasks);
    KeysOfIsList(other);
    assert KeySet(tasks) == KeySet(other);
    KeyListUnique(KeysOf(tasks), KeysOf(other), KeySet(tasks));
    HashOrder(hash);
    forall key ensures Sort(HashLe(hash), OfStratum(tasks, key)) == Sort(HashLe(hash), OfStratum(other, key)) {
      StratumMembers(tasks, key);
      SameStratum(tasks, other, key);
      SortForgetsOrder(HashLe(hash), OfStratum(tasks, key), OfStratum(other, key));
    }
    assert Buckets(tasks, hash) == Buckets(other, hash);
  }

  lemma SameStratum(tasks: seq<Task>, other: seq<Task>, key: StratumKey)
    requires multiset(tasks) == multiset(other)
    ensures multiset(OfStratum(tasks, key)) == multiset(OfStratum(other, key))
  {
    StratumMembers(tasks, key);
    StratumMembers(other, key);
    forall t ensures multiset(OfStratum(tasks, key))[t] == multiset(OfStratum(other, key))[t] {
      if KeyOf(t) == key {
        CountInStratum(tasks, t);
        CountInStratum(other, t);
      } else {
        assert t !in OfStratum(tasks, key) && t !in OfStratum(other, key);
      }
    }
  }

  // ---- What the order is, task by task ----

  ghost predicate SameUpTo3(m: nat, n: nat) { m == n || (m >= 3 && n >= 3) }

  /** Two tasks share a stratum: one family, one risk, and the same number of documents and of tools, where
      three and more count alike. */
  ghost predicate Alike(a: Task, b: Task) {
    && a.family == b.family && a.highRisk == b.highRisk
    && SameUpTo3(a.documents, b.documents) && SameUpTo3(a.tools, b.tools)
  }

  /** The stratum of `a` has its turn before that of `b`. */
  ghost predicate TurnBefore(a: Task, b: Task) {
    if a.family != b.family then StringLe(a.family, b.family)
    else if a.highRisk != b.highRisk then b.highRisk
    else if !SameUpTo3(a.documents, b.documents) then a.documents < b.documents
    else !SameUpTo3(a.tools, b.tools) && a.tools < b.tools
  }

  lemma KeysAreFields(a: Task, b: Task)
    ensures KeyOf(a) == KeyOf(b) <==> Alike(a, b)
    ensures KeyOf(a) != KeyOf(b) ==> (KeyLe(KeyOf(a), KeyOf(b)) <==> TurnBefore(a, b))
  {
  }

  /** The places before `n` that hold a task of the stratum of `t`. */
  ghost function PlacesAlike(o: seq<Task>, n: nat, t: Task): (r: set<nat>)
    requires n <= |o|
  {
    set k | 0 <= k < n && Alike(o[k], t)
  }

  lemma {:induction false} ShareIsPlaces(o: seq<Task>, n: nat, t: Task)
    requires n <= |o|
    ensures |PlacesAlike(o, n, t)| == Share(o[..n], KeyOf(t))
  {
    if n == 0 {
      assert PlacesAlike(o, 0, t) == {};
    } else {
      ShareIsPlaces(o, n - 1, t);
      KeysAreFields(o[n - 1], t);
      assert o[..n][..n - 1] == o[..n - 1];
      assert PlacesAlike(o, n, t) == PlacesAlike(o, n - 1, t) + if Alike(o[n - 1], t) then {n - 1} else {};
    }
  }

  /** Place `i` of the order was filled in round `r` from bucket `p`. */
  ghost predicate FilledAt(b: seq<seq<Task>>, o: seq<Task>, i: nat, r: nat, p: nat) {
    p < |b| && i < |o| && r < |b[p]| && o[i] == b[p][r] && o[..i] == Order(b, r, p)
  }

  lemma {:induction false} FilledFrom(b: seq<seq<Task>>, r: nat, p: nat, i: nat) returns (r': nat, p': nat)
    requires p <= |b| && i < |Order(b, r, p)|
    ensures FilledAt(b, Order(b, r, p), i, r', p') && (r' < r || (r' == r && p' < p))
    decreases r, p
  {
    var o := Order(b, r, p);
    if p == 0 {
      r', p' := FilledFrom(b, r - 1, |b|, i);
    } else {
      var before := Order(b, r, p - 1);
      if i < |before| {
        r', p' := FilledFrom(b, r, p - 1, i);
        assert o[..i] == before[..i];
      } else {
        r', p' := r, p - 1;
        assert o[..i] == before;
      }
    }
  }

  lemma {:induction false} FilledInTurn(b: seq<seq<Task>>, r: nat, p: nat, i: nat, j: nat)
    returns (x: nat, u: nat, y: nat, v: nat)
    requires p <= |b| && i < j < |Order(b, r, p)|
    ensures FilledAt(b, Order(b, r, p), i, x, u) && FilledAt(b, Order(b, r, p), j, y, v)
    ensures x < y || (x == y && u < v)
  {
    var o := Order(b, r, p);
    y, v := FilledFrom(b, r, p, j);
    assert o[..j][..i] == o[..i] && o[..j][i] == o[i];
    x, u := FilledFrom(b, y, v, i);
  }

  /** The round of a task is the number of tasks of its stratum before it. */
  lemma RoundIsPlace(b: seq<seq<Task>>, keys: seq<StratumKey>, o: seq<Task>, i: nat, r: nat, p: nat)
    requires Bucketed(b, keys) && FilledAt(b, o, i, r, p)
    ensures KeyOf(o[i]) == keys[p] && |PlacesAlike(o, i, o[i])| == r
  {
    OrderOfStratum(b, keys, r, p, p);
    ShareIsPlaces(o, i, o[i]);
  }

  /** The order is a round-robin over the strata: of two tasks the one with fewer tasks of its own stratum
      before it comes first, and at equal numbers the one whose stratum comes first, by family, low risk
      before high, fewer documents and fewer tools.  Within a stratum the smaller digest comes first. */
  lemma OrderIsRoundRobin(tasks: seq<Task>, hash: Hash, o: seq<Task>, i: nat, j: nat)
    requires o == StratifiedOrderOf(tasks, hash) && i < j < |o|
    ensures var x, y := |PlacesAlike(o, i, o[i])|, |PlacesAlike(o, j, o[j])|;
            x < y || (x == y && !Alike(o[i], o[j]) && TurnBefore(o[i], o[j]))
    ensures Alike(o[i], o[j]) ==> hash(o[i].taskId) <= hash(o[j].taskId)
  {
    var b, keys := Buckets(tasks, hash), KeysOf(tasks);
    BucketsAreBucketed(tasks, hash);
    KeysOfIsList(tasks);
    HashOrder(hash);
    var x, u, y, v := FilledInTurn(b, Rounds(b), 0, i, j);
    RoundIsPlace(b, keys, o, i, x, u);
    RoundIsPlace(b, keys, o, j, y, v);
    KeysAreFields(o[i], o[j]);
    if Alike(o[i], o[j]) {
      SameBucket(keys, u, v);
      SortSorts(HashLe(hash), OfStratum(tasks, keys[u]));
      assert HashLe(hash)(b[u][x], b[u][y]);
    }
  }

  lemma SameBucket(keys: seq<StratumKey>, u: nat, v: nat)
    requires Distinct(keys) && u < |keys| && v < |keys| && keys[u] == keys[v]
    ensures u == v
  {
  }

  // ---- Fairness of every slice ----

  function Share(tasks: seq<Task>, key: StratumKey): (r: nat) { |OfStratum(tasks, key)| }

  /** Every prefix of the order is a state of the round-robin. */
  lemma {:induction false} PrefixIsState(b: seq<seq<Task>>, r: nat, p: nat, n: nat) returns (r': nat, p': nat)
    requires p <= |b| && n <= |Order(b, r, p)|
    ensures p' <= |b| && (r' < r || (r' == r && p' <= p))
    ensures Order(b, r', p') == Order(b, r, p)[..n]
    decreases r, p
  {
    if n == |Order(b, r, p)| {
      r', p' := r, p;
    } else if p > 0 {
      assert Order(b, r, p)[..|Order(b, r, p - 1)|] == Order(b, r, p - 1);
      r', p' := PrefixIsState(b, r, p - 1, n);
      assert Order(b, r, p)[..n] == Order(b, r, p - 1)[..n];
    } else {
      r', p' := PrefixIsState(b, r - 1, |b|, n);
    }
  }

  /** The share of a stratum in a prefix: full rounds, plus one if its turn in the next has come. */
  lemma PrefixShare(tasks: seq<Task>, hash: Hash, n: nat) returns (r: nat, p: nat)
    requires n <= |StratifiedOrderOf(tasks, hash)|
    ensures p <= |KeysOf(tasks)|
    ensures forall k | 0 <= k < |KeysOf(tasks)| ::
              var total := Share(StratifiedOrderOf(tasks, hash), KeysOf(tasks)[k]);
              Share(StratifiedOrderOf(tasks, hash)[..n], KeysOf(tasks)[k]) == Taken(r + (if k < p then 1 else 0), total)
  {
    var b, keys := Buckets(tasks, hash), KeysOf(tasks);
    BucketsAreBucketed(tasks, hash);
    RoundsBound(b);
    r, p := PrefixIsState(b, Rounds(b), 0, n);
    forall k | 0 <= k < |keys|
      ensures Share(StratifiedOrderOf(tasks, hash)[..n], keys[k])
           == Taken(r + (if k < p then 1 else 0), Share(StratifiedOrderOf(tasks, hash), keys[k]))
    {
      OrderOfStratum(b, keys, r, p, k);
      OrderOfStratum(b, keys, Rounds(b), 0, k);
    }
  }

  lemma {:induction false} ShareAdds(a: seq<Task>, b: seq<Task>, key: StratumKey)
    ensures Share(a + b, key) == Share(a, key) + Share(b, key)
  {
    if b == [] {
      assert a + b == a;
    } else {
      var rest, t := b[..|b| - 1], b[|b| - 1];
      assert (a + b)[..|a + b| - 1] == a + rest;
      ShareAdds(a, rest, key);
    }
  }

  /** In any contiguous slice, two strata that still have tasks left after the slice contribute
      numbers of tasks that differ by at most one. */
  lemma SliceIsFair(tasks: seq<Task>, hash: Hash, from: nat, to: nat, x: StratumKey, y: StratumKey)
    requires from <= to <= |StratifiedOrderOf(tasks, hash)|
    requires Share(StratifiedOrderOf(tasks, hash)[..to], x) < Share(StratifiedOrderOf(tasks, hash), x)
    requires Share(StratifiedOrderOf(tasks, hash)[..to], y) < Share(StratifiedOrderOf(tasks, hash), y)
    ensures -1 <= Share(StratifiedOrderOf(tasks, hash)[from..to], x)
                  - Share(StratifiedOrderOf(tasks, hash)[from..to], y) <= 1
  {
    var o, keys := StratifiedOrderOf(tasks, hash), KeysOf(tasks);
    assert o[..to] == o[..from] + o[from..to];
    ShareAdds(o[..from], o[from..to], x);
    ShareAdds(o[..from], o[from..to], y);
    var i := OccurringKey(tasks, hash, x);
    var j := OccurringKey(tasks, hash, y);
    var r0, p0 := PrefixShare(tasks, hash, from);
    var r1, p1 := PrefixShare(tasks, hash, to);
    assert keys[i] == x && keys[j] == y;
  }

  lemma OccurringKey(tasks: seq<Task>, hash: Hash, key: StratumKey) returns (k: nat)
    requires Share(StratifiedOrderOf(tasks, hash), key) > 0
    ensures k < |KeysOf(tasks)| && KeysOf(tasks)[k] == key
  {
    var b, keys := Buckets(tasks, hash), KeysOf(tasks);
    BucketsAreBucketed(tasks, hash);
    OrderKeys(b, keys, Rounds(b), 0);
    var o := Order(b, Rounds(b), 0);
    StratumMembers(o, key);
    assert OfStratum(o, key)[0] in o;
    k :| 0 <= k < |keys| && keys[k] == key;
  }
}
