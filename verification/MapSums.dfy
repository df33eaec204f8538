// Sums over the values of a finite map.
module MapSums {

  ghost function Sum<K>(m: map<K, nat>): nat
    decreases |m|
  {
    if |m| == 0 then 0 else m[Pick(m)] + Sum(m - {Pick(m)})
  }

  ghost function Pick<K>(m: map<K, nat>): (k: K)
    requires |m| > 0
    ensures k in m
  {
    var k :| k in m;
    k
  }

  lemma TakingShrinks<K>(m: map<K, nat>, k: K)
    requires k in m
    ensures |m - {k}| < |m|
  {
    assert (m - {k}).Keys == m.Keys - {k};
  }

  /** Any key may be taken out first. */
  lemma {:induction false} SumTakes<K>(m: map<K, nat>, k: K)
    requires k in m
    ensures Sum(m) == m[k] + Sum(m - {k})
    decreases |m|
  {
    var first := Pick(m);
    if first != k {
      TakingShrinks(m, first);
      TakingShrinks(m, k);
      assert k in m - {first} && first in m - {k};
      SumTakes(m - {first}, k);
      SumTakes(m - {k}, first);
      assert (m - {first}) - {k} == m - {first, k};
      assert (m - {k}) - {first} == m - {first, k};
    }
  }

  function At<K>(m: map<K, nat>, k: K): nat {
    if k in m then m[k] else 0
  }

  lemma SumUpdates<K>(m: map<K, nat>, k: K, v: nat)
    ensures Sum(m[k := v]) == Sum(m) - At(m, k) + v
    ensures At(m, k) <= Sum(m)
  {
    SumTakes(m[k := v], k);
    if k in m {
      SumTakes(m, k);
      assert m[k := v] - {k} == m - {k};
    } else {
      assert m[k := v] - {k} == m;
    }
  }

  lemma SumRemoves<K>(m: map<K, nat>, k: K)
    ensures Sum(m - {k}) == Sum(m) - At(m, k)
  {
    if k in m {
      SumTakes(m, k);
    } else {
      assert m - {k} == m;
    }
  }
}
