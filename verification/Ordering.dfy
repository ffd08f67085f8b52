/** Orders, lexicographic comparison of strings, and a stable sort standing for the library's. */
module Ordering {

  ghost predicate TotalPreorder<T(!new)>(le: (T, T) -> bool) {
    && (forall x, y :: le(x, y) || le(y, x))
    && (forall x, y, z :: le(x, y) && le(y, z) ==> le(x, z))
  }

  ghost predicate SortedBy<T(!new)>(le: (T, T) -> bool, s: seq<T>) {
    forall i, j | 0 <= i < j < |s| :: le(s[i], s[j])
  }

  /** Elements of `s` that are tied under `le` are equal. */
  ghost predicate NoTies<T(!new)>(le: (T, T) -> bool, s: seq<T>) {
    forall x, y | x in s && y in s && le(x, y) && le(y, x) :: x == y
  }

  function Insert<T>(le: (T, T) -> bool, x: T, s: seq<T>): (r: seq<T>) {
    if s == [] then [x]
    else if le(s[|s| - 1], x) then s + [x]
    else Insert(le, x, s[..|s| - 1]) + [s[|s| - 1]]
  }

  /** Sorts stably: `x` goes after the earlier elements that tie with it. */
  function Sort<T>(le: (T, T) -> bool, s: seq<T>): (r: seq<T>) {
    if s == [] then [] else Insert(le, s[|s| - 1], Sort(le, s[..|s| - 1]))
  }

  lemma {:induction false} InsertKeeps<T(!new)>(le: (T, T) -> bool, x: T, s: seq<T>)
    requires TotalPreorder(le) && SortedBy(le, s)
    ensures SortedBy(le, Insert(le, x, s))
    ensures multiset(Insert(le, x, s)) == multiset(s) + multiset{x}
  {
    if s == [] {
    } else {
      var last, rest := s[|s| - 1], s[..|s| - 1];
      assert s == rest + [last];
      if !le(last, x) {
        InsertKeeps(le, x, rest);
        var t := Insert(le, x, rest);
        forall i | 0 <= i < |t| ensures le(t[i], last) {
          assert t[i] in multiset(t);
          if t[i] != x {
            assert t[i] in rest;
          }
        }
      } else {
        forall i | 0 <= i < |s| ensures le(s[i], x) {
          assert le(s[i], last) || i == |s| - 1;
        }
      }
    }
  }

  lemma {:induction false} SortSorts<T(!new)>(le: (T, T) -> bool, s: seq<T>)
    requires TotalPreorder(le)
    ensures SortedBy(le, Sort(le, s)) && multiset(Sort(le, s)) == multiset(s) && |Sort(le, s)| == |s|
  {
    if s == [] {
    } else {
      var rest, last := s[..|s| - 1], s[|s| - 1];
      SortSorts(le, rest);
      InsertKeeps(le, last, Sort(le, rest));
      assert s == rest + [last];
      assert |multiset(Sort(le, s))| == |multiset(s)|;
    }
  }

  lemma SameElements<T>(a: seq<T>, b: seq<T>)
    requires multiset(a) == multiset(b)
    ensures |a| == |b| && forall x :: x in a <==> x in b
  {
    assert |multiset(a)| == |multiset(b)|;
    forall x ensures x in a <==> x in b {
      assert x in multiset(a) <==> x in multiset(b);
    }
  }

  lemma SameFirst<T(!new)>(le: (T, T) -> bool, a: seq<T>, b: seq<T>)
    requires SortedBy(le, a) && SortedBy(le, b) && multiset(a) == multiset(b) && NoTies(le, a) && a != []
    ensures b != [] && a[0] == b[0]
  {
    SameElements(a, b);
    assert a[0] in a && b[0] in b;
    var i :| 0 <= i < |b| && b[i] == a[0];
    var j :| 0 <= j < |a| && a[j] == b[0];
  }

  lemma SameTail<T>(a: seq<T>, b: seq<T>)
    requires a != [] && b != [] && a[0] == b[0] && multiset(a) == multiset(b)
    ensures multiset(a[1..]) == multiset(b[1..])
  {
    assert a == [a[0]] + a[1..] && b == [b[0]] + b[1..];
    assert multiset(a[1..]) == multiset(a) - multiset{a[0]};
    assert multiset(b[1..]) == multiset(b) - multiset{b[0]};
  }

  /** A sorted sequence without ties is determined by its elements. */
  lemma {:induction false} SortedUnique<T(!new)>(le: (T, T) -> bool, a: seq<T>, b: seq<T>)
    requires SortedBy(le, a) && SortedBy(le, b) && multiset(a) == multiset(b) && NoTies(le, a)
    ensures a == b
  {
    SameElements(a, b);
    if a != [] {
      SameFirst(le, a, b);
      SameTail(a, b);
      SortedUnique(le, a[1..], b[1..]);
      assert a == [a[0]] + a[1..] && b == [b[0]] + b[1..];
    }
  }

  /** Sorting forgets the order of the input. */
  lemma SortForgetsOrder<T(!new)>(le: (T, T) -> bool, a: seq<T>, b: seq<T>)
    requires TotalPreorder(le) && multiset(a) == multiset(b) && NoTies(le, a)
    ensures Sort(le, a) == Sort(le, b)
  {
    SortSorts(le, a);
    SortSorts(le, b);
    SameElements(Sort(le, a), a);
    SortedUnique(le, Sort(le, a), Sort(le, b));
  }

  // ---- Values of permuted sequences ----

  function Map<T, U>(f: T -> U, s: seq<T>): (r: seq<U>) {
    seq(|s|, i requires 0 <= i < |s| => f(s[i]))
  }

  function Total(s: seq<real>): (r: real) {
    if s == [] then 0.0 else Total(s[..|s| - 1]) + s[|s| - 1]
  }

  function TotalInt(s: seq<int>): (r: int) {
    if s == [] then 0 else TotalInt(s[..|s| - 1]) + s[|s| - 1]
  }

  lemma Without<T>(s: seq<T>, i: nat)
    requires i < |s|
    ensures s == s[..i] + [s[i]] + s[i + 1..]
    ensures multiset(s[..i] + s[i + 1..]) == multiset(s) - multiset{s[i]}
  {
  }

  /** Removes from `b` one occurrence of the last element of its permutation `a`. */
  lemma Removal<T>(a: seq<T>, b: seq<T>) returns (i: nat)
    requires multiset(a) == multiset(b) && a != []
    ensures i < |b| && b[i] == a[|a| - 1] && b == b[..i] + [b[i]] + b[i + 1..]
    ensures multiset(a[..|a| - 1]) == multiset(b[..i] + b[i + 1..])
  {
    SameElements(a, b);
    var last := a[|a| - 1];
    assert last in b;
    i :| 0 <= i < |b| && b[i] == last;
    Without(b, i);
    DropLast(a);
  }

  /** An element at place `j` of a permutation has a place in the original; the rest are permuted too. */
  lemma Place<T>(x: seq<T>, y: seq<T>, j: nat) returns (l: nat)
    requires multiset(x) == multiset(y) && j < |y|
    ensures l < |x| && x[l] == y[j] && multiset(x[..l] + x[l + 1..]) == multiset(y[..j] + y[j + 1..])
  {
    SameElements(x, y);
    assert y[j] in y;
    l :| 0 <= l < |x| && x[l] == y[j];
    Without(y, j);
    Without(x, l);
  }

  /** Two places of a permutation come from two places of the original. */
  lemma Places<T>(x: seq<T>, y: seq<T>, i: nat, j: nat) returns (k: nat, l: nat)
    requires multiset(x) == multiset(y) && i < j < |y|
    ensures k < |x| && l < |x| && k != l && x[k] == y[i] && x[l] == y[j]
  {
    l := Place(x, y, j);
    var h := Place(x[..l] + x[l + 1..], y[..j] + y[j + 1..], i);
    assert (y[..j] + y[j + 1..])[i] == y[i];
    k := if h < l then h else h + 1;
    assert (x[..l] + x[l + 1..])[h] == x[k];
  }

  lemma DropLast<T>(s: seq<T>)
    requires s != []
    ensures multiset(s[..|s| - 1]) == multiset(s) - multiset{s[|s| - 1]}
  {
    assert s == s[..|s| - 1] + [s[|s| - 1]];
  }

  lemma {:induction false} MapPermutes<T, U>(f: T -> U, a: seq<T>, b: seq<T>)
    requires multiset(a) == multiset(b)
    ensures multiset(Map(f, a)) == multiset(Map(f, b))
    decreases |a|
  {
    if a == [] {
      SameElements(a, b);
    } else {
      var i := Removal(a, b);
      MapPermutes(f, a[..|a| - 1], b[..i] + b[i + 1..]);
      assert Map(f, a) == Map(f, a[..|a| - 1]) + [f(b[i])];
      assert Map(f, b) == Map(f, b[..i]) + [f(b[i])] + Map(f, b[i + 1..]);
      assert Map(f, b[..i] + b[i + 1..]) == Map(f, b[..i]) + Map(f, b[i + 1..]);
    }
  }

  lemma {:induction false} TotalAdds(a: seq<real>, b: seq<real>)
    ensures Total([]) == 0.0 && forall x :: Total([x]) == x
    ensures Total(a + b) == Total(a) + Total(b)
  {
    assert forall x :: Total([x]) == Total([x][..0]) + x;
    if b == [] {
      assert a + b == a;
    } else {
      assert (a + b)[..|a + b| - 1] == a + b[..|b| - 1];
      TotalAdds(a, b[..|b| - 1]);
    }
  }

  lemma {:induction false} TotalIntAdds(a: seq<int>, b: seq<int>)
    ensures TotalInt([]) == 0 && forall x :: TotalInt([x]) == x
    ensures TotalInt(a + b) == TotalInt(a) + TotalInt(b)
  {
    assert forall x :: TotalInt([x]) == TotalInt([x][..0]) + x;
    if b == [] {
      assert a + b == a;
    } else {
      assert (a + b)[..|a + b| - 1] == a + b[..|b| - 1];
      TotalIntAdds(a, b[..|b| - 1]);
    }
  }

  lemma {:induction false} TotalPermutes(a: seq<real>, b: seq<real>)
    requires multiset(a) == multiset(b)
    ensures Total(a) == Total(b)
    decreases |a|
  {
    if a == [] {
      SameElements(a, b);
    } else {
      var i := Removal(a, b);
      TotalPermutes(a[..|a| - 1], b[..i] + b[i + 1..]);
      TotalAdds(b[..i], b[i + 1..]);
      TotalAdds(b[..i] + [b[i]], b[i + 1..]);
      TotalAdds(b[..i], [b[i]]);
    }
  }

  lemma {:induction false} TotalIntPermutes(a: seq<int>, b: seq<int>)
    requires multiset(a) == multiset(b)
    ensures TotalInt(a) == TotalInt(b)
    decreases |a|
  {
    if a == [] {
      SameElements(a, b);
    } else {
      var i := Removal(a, b);
      TotalIntPermutes(a[..|a| - 1], b[..i] + b[i + 1..]);
      TotalIntAdds(b[..i], b[i + 1..]);
      TotalIntAdds(b[..i] + [b[i]], b[i + 1..]);
      TotalIntAdds(b[..i], [b[i]]);
    }
  }

  // ---- Strings ----

  predicate StringLe(a: string, b: string) {
    if a == "" then true
    else if b == "" then false
    else a[0] < b[0] || (a[0] == b[0] && StringLe(a[1..], b[1..]))
  }

  /** At place `i` the two strings differ for the first time. */
  ghost predicate FirstDifference(a: string, b: string, i: nat) {
    i < |a| && i < |b| && a[..i] == b[..i] && a[i] != b[i]
  }

  /** The order of a library: a prefix comes first, and otherwise the first difference decides. */
  lemma {:induction false} StringLeIsLexicographic(a: string, b: string)
    ensures StringLe(a, b) <==> a <= b || exists i: nat :: FirstDifference(a, b, i) && a[i] < b[i]
  {
    if a == "" || b == "" {
    } else if a[0] != b[0] {
      assert FirstDifference(a, b, 0);
      assert forall i: nat | FirstDifference(a, b, i) :: i == 0 || a[..i][0] == b[..i][0];
    } else {
      var x, y := a[1..], b[1..];
      StringLeIsLexicographic(x, y);
      assert a == [a[0]] + x && b == [a[0]] + y;
      if i: nat :| FirstDifference(x, y, i) && x[i] < y[i] {
        assert a[..i + 1] == [a[0]] + x[..i] && b[..i + 1] == [a[0]] + y[..i];
        assert FirstDifference(a, b, i + 1);
      }
      if i: nat :| FirstDifference(a, b, i) && a[i] < b[i] {
        assert x[..i - 1] == a[..i][1..] && y[..i - 1] == b[..i][1..];
        assert FirstDifference(x, y, i - 1);
      }
    }
  }

  lemma {:induction false} StringTotal(a: string, b: string)
    ensures StringLe(a, b) || StringLe(b, a)
    ensures StringLe(a, b) && StringLe(b, a) ==> a == b
  {
    if a != "" && b != "" && a[0] == b[0] {
      StringTotal(a[1..], b[1..]);
      assert a == [a[0]] + a[1..] && b == [b[0]] + b[1..];
    }
  }

  lemma {:induction false} StringTransitive(a: string, b: string, c: string)
    requires StringLe(a, b) && StringLe(b, c)
    ensures StringLe(a, c)
  {
    if a != "" && b[0] == a[0] == c[0] {
      StringTransitive(a[1..], b[1..], c[1..]);
    }
  }
}
