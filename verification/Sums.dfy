/** Sums over finite maps. */
module Sums {

  ghost function Sum<K(!new)>(m: map<K, nat>): nat
    decreases |m.Keys|
  {
    if m.Keys == {} then 0
    else
      var k :| k in m.Keys;
      Shrinks(m, k);
      m[k] + Sum(m - {k})
  }

  lemma {:induction false} Shrinks<K(!new)>(m: map<K, nat>, k: K)
    requires k in m
    ensures (m - {k}).Keys == m.Keys - {k}
    ensures |(m - {k}).Keys| == |m.Keys| - 1
  {
    assert (m - {k}).Keys == m.Keys - {k};
  }

  /** The sum does not depend on the order in which the keys are taken. */
  lemma {:induction false} SumRemove<K(!new)>(m: map<K, nat>, k: K)
    requires k in m
    ensures Sum(m) == m[k] + Sum(m - {k})
    decreases |m.Keys|
  {
    var first :| first in m.Keys && Sum(m) == m[first] + Sum(m - {first});
    if first != k {
      Shrinks(m, first);
      Shrinks(m, k);
      SumRemove(m - {first}, k);
      SumRemove(m - {k}, first);
      assert m - {first} - {k} == m - {k} - {first};
    }
  }

  lemma {:induction false} SumUpdate<K(!new)>(m: map<K, nat>, k: K, v: nat)
    ensures Sum(m[k := v]) == v + Sum(m) - (if k in m then m[k] else 0)
  {
    SumRemove(m[k := v], k);
    assert m[k := v] - {k} == m - {k};
    if k in m {
      SumRemove(m, k);
    } else {
      assert m - {k} == m;
    }
  }

  /** Lowering values without raising any lowers the sum, strictly if some value fell. */
  lemma {:induction false} SumMonotone<K(!new)>(a: map<K, nat>, b: map<K, nat>)
    requires a.Keys == b.Keys
    requires forall k :: k in a ==> a[k] <= b[k]
    ensures Sum(a) <= Sum(b)
    ensures (exists k :: k in a && a[k] < b[k]) ==> Sum(a) < Sum(b)
    decreases |a.Keys|
  {
    if a.Keys != {} {
      var k :| k in a && ((exists j :: j in a && a[j] < b[j]) ==> a[k] < b[k]);
      SumRemove(a, k);
      SumRemove(b, k);
      Shrinks(a, k);
      Shrinks(b, k);
      SumMonotone(a - {k}, b - {k});
    }
  }

  lemma {:induction false} SumAtLeast<K(!new)>(m: map<K, nat>, k: K)
    requires k in m
    ensures m[k] <= Sum(m)
  {
    SumRemove(m, k);
  }
}
