/** The choice of the executable candidates (agentloopgate/experiment/orchestrator.py, _diverse_subset
    and the guard of its caller). */
module DiverseSubset {
  import opened Common

  datatype Proposal = Proposal(id: string, families: set<string>)

  function Families(items: seq<Proposal>): (r: set<string>) {
    set p, f | p in items && f in p.families :: f
  }

  /** `first` in front of every list. */
  function Prefixed(first: Proposal, lists: seq<seq<Proposal>>): (r: seq<seq<Proposal>>)
    ensures |r| == |lists| && forall i | 0 <= i < |lists| :: r[i] == [first] + lists[i]
  {
    seq(|lists|, i requires 0 <= i < |lists| => [first] + lists[i])
  }

  /** The combinations of `count` items, in the order of the library: by position, the first item first. */
  function Combinations(items: seq<Proposal>, count: nat): (r: seq<seq<Proposal>>) {
    if count == 0 then [[]]
    else if items == [] then []
    else Prefixed(items[0], Combinations(items[1..], count - 1)) + Combinations(items[1..], count)
  }

  predicate Qualifies(subset: seq<Proposal>, minFamilies: nat) {
    |Families(subset)| >= minFamilies
  }

  /** What the caller checks before it chooses. */
  predicate Guard(candidates: seq<Proposal>, count: nat, minFamilies: nat) {
    |candidates| >= count && |Families(candidates)| >= minFamilies
  }

  ghost predicate IsFirst(subset: seq<Proposal>, all: seq<seq<Proposal>>, minFamilies: nat) {
    exists k :: 0 <= k < |all| && all[k] == subset && Qualifies(all[k], minFamilies)
                && forall i | 0 <= i < k :: !Qualifies(all[i], minFamilies)
  }

  function FirstQualifying(all: seq<seq<Proposal>>, minFamilies: nat): (r: Option<seq<Proposal>>) {
    if all == [] then None
    else if Qualifies(all[0], minFamilies) then Some(all[0])
    else FirstQualifying(all[1..], minFamilies)
  }

  function Chosen(candidates: seq<Proposal>, count: nat, minFamilies: nat): (r: Option<seq<Proposal>>) {
    FirstQualifying(Combinations(candidates, count), minFamilies)
  }

  method SelectDiverse(candidates: seq<Proposal>, count: nat, minFamilies: nat) returns (r: Option<seq<Proposal>>)
    ensures r == Chosen(candidates, count, minFamilies)
    ensures r.Some? ==> IsFirst(r.value, Combinations(candidates, count), minFamilies)
    ensures r.None? ==> forall s | s in Combinations(candidates, count) :: !Qualifies(s, minFamilies)
  {
    var all := Combinations(candidates, count);
    assert all[0..] == all;
    for k := 0 to |all|
      invariant forall i | 0 <= i < k :: !Qualifies(all[i], minFamilies)
      invariant Chosen(candidates, count, minFamilies) == FirstQualifying(all[k..], minFamilies)
    {
      if Qualifies(all[k], minFamilies) {
        return Some(all[k]);
      }
    }
    return None;
  }

  // ---- What the combinations are ----

  /** `s` is `items` with some of them left out. */
  predicate Subsequence(s: seq<Proposal>, items: seq<Proposal>) {
    if s == [] then true
    else items != [] && ((s[0] == items[0] && Subsequence(s[1..], items[1..])) || Subsequence(s, items[1..]))
  }

  lemma CombinationsSplit(items: seq<Proposal>, count: nat, s: seq<Proposal>)
    requires count > 0 && items != []
    ensures s in Combinations(items, count) <==>
              (s != [] && s[0] == items[0] && s[1..] in Combinations(items[1..], count - 1))
              || s in Combinations(items[1..], count)
  {
    var heads := Combinations(items[1..], count - 1);
    if s in Prefixed(items[0], heads) {
      var i :| 0 <= i < |heads| && Prefixed(items[0], heads)[i] == s;
      assert s[1..] == heads[i];
    }
    if s != [] && s[0] == items[0] && s[1..] in heads {
      var i :| 0 <= i < |heads| && heads[i] == s[1..];
      assert Prefixed(items[0], heads)[i] == s;
    }
  }

  lemma SubsequenceSplit(s: seq<Proposal>, items: seq<Proposal>)
    requires s != [] && items != []
    ensures Subsequence(s, items) <==> (s[0] == items[0] && Subsequence(s[1..], items[1..])) || Subsequence(s, items[1..])
  {
  }

  lemma FewestCombinations(items: seq<Proposal>, count: nat, s: seq<Proposal>)
    requires count == 0 || items == []
    ensures s in Combinations(items, count) <==> |s| == count && Subsequence(s, items)
  {
    assert Combinations(items, 0) == [[]];
    assert s != [] ==> !Subsequence(s, []);
  }

  lemma CombinationsStep(items: seq<Proposal>, rest: seq<Proposal>, count: nat, s: seq<Proposal>, tail: seq<Proposal>)
    requires count > 0 && items != [] && rest == items[1..]
    requires s in Combinations(rest, count) <==> |s| == count && Subsequence(s, rest)
    requires s != [] ==> tail == s[1..]
    requires tail in Combinations(rest, count - 1) <==> |tail| == count - 1 && Subsequence(tail, rest)
    ensures s in Combinations(items, count) <==> |s| == count && Subsequence(s, items)
  {
    CombinationsSplit(items, count, s);
    if s != [] {
      SubsequenceSplit(s, items);
    }
  }

  /** The combinations are exactly the subsequences of the given length. */
  lemma {:induction false} CombinationsAreSubsequences(items: seq<Proposal>, count: nat, s: seq<Proposal>)
    ensures s in Combinations(items, count) <==> |s| == count && Subsequence(s, items)
    decreases |items|
  {
    if count == 0 || items == [] {
      FewestCombinations(items, count, s);
    } else {
      var rest := items[1..];
      CombinationsAreSubsequences(rest, count, s);
      var tail := if s == [] then [] else s[1..];
      CombinationsAreSubsequences(rest, count - 1, tail);
      CombinationsStep(items, rest, count, s, tail);
    }
  }

  lemma {:induction false} SubsequenceFamilies(s: seq<Proposal>, items: seq<Proposal>)
    requires Subsequence(s, items)
    ensures Families(s) <= Families(items) && |s| <= |items|
  {
    if s == [] {
    } else {
      FamiliesSplit(items);
      if s[0] == items[0] && Subsequence(s[1..], items[1..]) {
        FamiliesSplit(s);
        SubsequenceFamilies(s[1..], items[1..]);
      } else {
        SubsequenceFamilies(s, items[1..]);
      }
    }
  }

  lemma FamiliesSplit(items: seq<Proposal>)
    requires items != []
    ensures Families(items) == items[0].families + Families(items[1..])
  {
  }

  // ---- The guard is enough ----

  lemma {:induction false} Prefix(items: seq<Proposal>, count: nat) returns (s: seq<Proposal>)
    requires |items| >= count
    ensures |s| == count && Subsequence(s, items)
  {
    if count == 0 {
      s := [];
    } else {
      var rest := Prefix(items[1..], count - 1);
      s := [items[0]] + rest;
      assert s[1..] == rest;
    }
  }

  lemma Whole(items: seq<Proposal>)
    ensures Subsequence(items, items)
    decreases |items|
  {
  }

  ghost function Covered(have: set<string>, items: seq<Proposal>): (r: set<string>) { have + Families(items) }

  lemma CoveredSplit(have: set<string>, items: seq<Proposal>)
    requires items != []
    ensures Covered(have, items) == Covered(have + items[0].families, items[1..])
  {
  }

  /** With families `have` already covered: take an item that adds a family, skip one that does not as
      long as enough items are left. */
  lemma {:induction false} Cover(items: seq<Proposal>, count: nat, minFamilies: nat, have: set<string>)
    returns (s: seq<Proposal>)
    requires |items| >= count && |Covered(have, items)| >= minFamilies && minFamilies <= |have| + count
    ensures |s| == count && Subsequence(s, items) && |Covered(have, s)| >= minFamilies
    decreases |items|
  {
    if minFamilies <= |have| {
      s := Prefix(items, count);
      SubsetSize(have, Covered(have, s));
    } else if |items| == count {
      s := items;
      Whole(items);
    } else {
      var more := have + items[0].families;
      CoveredSplit(have, items);
      if items[0].families <= have {
        assert more == have;
        s := Cover(items[1..], count, minFamilies, have);
      } else {
        SubsetSize(have, more);
        var tail := Cover(items[1..], count - 1, minFamilies, more);
        s := Take(items, tail, have);
      }
    }
  }

  lemma Take(items: seq<Proposal>, tail: seq<Proposal>, have: set<string>) returns (s: seq<Proposal>)
    requires items != [] && Subsequence(tail, items[1..])
    ensures |s| == |tail| + 1 && Subsequence(s, items)
    ensures Covered(have, s) == Covered(have + items[0].families, tail)
  {
    s := [items[0]] + tail;
    assert s[1..] == tail;
    CoveredSplit(have, s);
  }

  // ---- Main results ----

  ghost predicate Possible(candidates: seq<Proposal>, count: nat, minFamilies: nat) {
    exists s :: s in Combinations(candidates, count) && Qualifies(s, minFamilies)
  }

  /** With no more families asked for than candidates, some combination qualifies exactly when the guard
      of the caller holds: enough candidates, and enough families among all of them. */
  lemma PossibleExactlyUnderGuard(candidates: seq<Proposal>, count: nat, minFamilies: nat)
    requires minFamilies <= count
    ensures Possible(candidates, count, minFamilies)
            <==> Guard(candidates, count, minFamilies)
  {
    if |candidates| >= count && |Families(candidates)| >= minFamilies {
      assert Covered({}, candidates) == Families(candidates);
      var s := Cover(candidates, count, minFamilies, {});
      assert Covered({}, s) == Families(s);
      CombinationsAreSubsequences(candidates, count, s);
    }
    if s :| s in Combinations(candidates, count) && Qualifies(s, minFamilies) {
      CombinationsAreSubsequences(candidates, count, s);
      SubsequenceFamilies(s, candidates);
      SubsetSize(Families(s), Families(candidates));
    }
  }

  /** A name of `n` letters. */
  function Name(n: nat): (r: string)
    ensures |r| == n
  {
    seq(n, _ => 'f')
  }

  /** `n` proposals that touch one family each, and no family twice. */
  function Singles(n: nat): (r: seq<Proposal>) {
    if n == 0 then [] else [Proposal(Name(n), {Name(n)})] + Singles(n - 1)
  }

  lemma {:induction false} SinglesAreSingle(n: nat)
    ensures |Singles(n)| == n && forall p | p in Singles(n) :: |p.families| == 1
  {
    if n == 0 {
    } else {
      SinglesAreSingle(n - 1);
    }
  }

  lemma SinglesSplit(n: nat)
    requires n > 0
    ensures Families(Singles(n)) == {Name(n)} + Families(Singles(n - 1))
  {
    FamiliesSplit(Singles(n));
    assert Singles(n)[1..] == Singles(n - 1);
  }

  lemma {:induction false} SinglesFamilies(n: nat)
    ensures |Families(Singles(n))| == n && forall f | f in Families(Singles(n)) :: |f| <= n
  {
    if n == 0 {
      assert Families(Singles(0)) == {};
    } else {
      SinglesFamilies(n - 1);
      SinglesSplit(n);
      assert Name(n) !in Families(Singles(n - 1));
    }
  }

  /** Choosing among single-family proposals brings no more families than proposals. */
  lemma {:induction false} FewFamilies(s: seq<Proposal>, n: nat)
    requires Subsequence(s, Singles(n))
    ensures |Families(s)| <= |s|
    decreases n
  {
    if s == [] {
      assert Families(s) == {};
    } else {
      assert Singles(n)[1..] == Singles(n - 1);
      if s[0] == Singles(n)[0] && Subsequence(s[1..], Singles(n - 1)) {
        FewFamilies(s[1..], n - 1);
        FamiliesSplit(s);
        SubsetSize(Families(s), {Name(n)} + Families(s[1..]));
      } else {
        FewFamilies(s, n - 1);
      }
    }
  }

  /** The choice never fails behind the guard if and only if no more families than candidates are asked
      for.  Otherwise proposals that touch one family each pass the guard, and no combination qualifies. */
  lemma GuardSufficesExactlyWhenFewFamilies(count: nat, minFamilies: nat)
    ensures minFamilies <= count <==>
              forall candidates | Guard(candidates, count, minFamilies) :: Possible(candidates, count, minFamilies)
  {
    if minFamilies <= count {
      forall candidates | Guard(candidates, count, minFamilies) ensures Possible(candidates, count, minFamilies) {
        PossibleExactlyUnderGuard(candidates, count, minFamilies);
      }
    } else {
      var candidates := Singles(minFamilies);
      SinglesAreSingle(minFamilies);
      SinglesFamilies(minFamilies);
      forall s | s in Combinations(candidates, count) ensures !Qualifies(s, minFamilies) {
        CombinationsAreSubsequences(candidates, count, s);
        FewFamilies(s, minFamilies);
      }
      assert Guard(candidates, count, minFamilies) && !Possible(candidates, count, minFamilies);
    }
  }

  /** Three candidates and four families are a setting that the configuration admits: four proposals of
      one family each pass the guard, and the choice among them fails. */
  lemma GuardNotEnough() returns (candidates: seq<Proposal>)
    ensures |candidates| == 4 && (forall p | p in candidates :: |p.families| == 1)
    ensures Guard(candidates, 3, 4) && !Possible(candidates, 3, 4)
  {
    candidates := Singles(4);
    SinglesAreSingle(4);
    SinglesFamilies(4);
    forall s | s in Combinations(candidates, 3) ensures !Qualifies(s, 4) {
      CombinationsAreSubsequences(candidates, 3, s);
      FewFamilies(s, 4);
    }
  }
}
