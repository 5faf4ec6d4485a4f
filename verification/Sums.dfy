/** Sums over the values of a map. */
module Sums {

  ghost function Sum<K(!new)>(m: map<K, int>): int
    decreases |m|
  {
    if m == map[] then 0
    else
      assert m.Keys != {};
      var k :| k in m;
      m[k] + Sum(m - {k})
  }

  /** Any entry may be counted first. */
  lemma {:induction false} SumRemove<K(!new)>(m: map<K, int>, k: K)
    requires k in m
    ensures Sum(m) == m[k] + Sum(m - {k})
    decreases |m|
  {
    var first :| first in m && Sum(m) == m[first] + Sum(m - {first});
    if first != k {
      SumRemove(m - {first}, k);
      SumRemove(m - {k}, first);
      assert m - {first} - {k} == m - {k} - {first};
    }
  }

  lemma {:induction false} SumSplit<K(!new)>(m: map<K, int>, part: set<K>)
    requires part <= m.Keys
    ensures Sum(m) == Sum(map k | k in part :: m[k]) + Sum(m - part)
    decreases |part|
  {
    var chosen := map k | k in part :: m[k];
    if part == {} {
      assert chosen == map[] && m - part == m;
    } else {
      var k :| k in part;
      SumSplit(m, part - {k});
      SumRemove(chosen, k);
      assert chosen - {k} == map i | i in part - {k} :: m[i];
      SumRemove(m - (part - {k}), k);
      assert m - (part - {k}) - {k} == m - part;
    }
  }
}
