/** Sums over finite maps, independent of the order in which the entries are taken. */
module Totals {

  ghost function Total<K(!new), V(!new)>(m: map<K, V>, size: V -> nat): nat {
    if m == map[] then 0
    else
      var k :| k in m;
      size(m[k]) + Total(m - {k}, size)
  }

  /** Any entry may be taken out first. */
  lemma {:induction false} TotalWithout<K(!new), V(!new)>(m: map<K, V>, k: K, size: V -> nat)
    requires k in m
    ensures Total(m, size) == size(m[k]) + Total(m - {k}, size)
    decreases |m|
  {
    var first :| first in m && Total(m, size) == size(m[first]) + Total(m - {first}, size);
    if first != k {
      TotalWithout(m - {first}, k, size);
      TotalWithout(m - {k}, first, size);
      assert m - {first} - {k} == m - {k} - {first};
    }
  }

  lemma TotalPut<K(!new), V(!new)>(m: map<K, V>, k: K, v: V, size: V -> nat)
    ensures Total(m[k := v], size) == Total(m - {k}, size) + size(v)
  {
    TotalWithout(m[k := v], k, size);
    assert m[k := v] - {k} == m - {k};
  }

  /** Removing one key, present or not. */
  lemma TotalDrop<K(!new), V(!new)>(m: map<K, V>, k: K, size: V -> nat)
    ensures Total(m, size) == Total(m - {k}, size) + if k in m then size(m[k]) else 0
  {
    if k in m {
      TotalWithout(m, k, size);
    } else {
      assert m - {k} == m;
    }
  }
}
