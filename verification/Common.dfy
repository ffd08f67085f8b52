/** Failure types and finite sums shared by the other modules. */
module Common {

  datatype Option<+T> = None | Some(value: T)

  datatype Result<+T, +E> = Success(value: T) | Failure(error: E)

  ghost predicate Distinct<T(!new)>(s: seq<T>) {
    forall i, j | 0 <= i < j < |s| :: s[i] != s[j]
  }

  /** The keys that are mapped to true: the stable tasks of a map of outcomes. */
  function TrueKeys<K>(m: map<K, bool>): (r: set<K>) {
    set k | k in m && m[k]
  }

  lemma SubsetSize<T>(a: set<T>, b: set<T>)
    requires a <= b
    ensures |a| <= |b| && (a != b ==> |a| < |b|)
  {
    assert b == a + (b - a);
  }

  /** The sum of `m` over `keys`.  The order of summation is immaterial: see SumOverSplit. */
  ghost function SumOver<K(!new)>(m: map<K, real>, keys: set<K>): real
    requires keys <= m.Keys
  {
    if keys == {} then 0.0
    else
      var k :| k in keys;
      m[k] + SumOver(m, keys - {k})
  }

  lemma {:induction false} SumOverSplit<K(!new)>(m: map<K, real>, keys: set<K>, k: K)
    requires keys <= m.Keys && k in keys
    ensures SumOver(m, keys) == m[k] + SumOver(m, keys - {k})
    decreases |keys|
  {
    var c :| c in keys && SumOver(m, keys) == m[c] + SumOver(m, keys - {c});
    if c != k {
      SumOverSplit(m, keys - {c}, k);
      SumOverSplit(m, keys - {k}, c);
      assert keys - {c} - {k} == keys - {k} - {c};
    }
  }
}
