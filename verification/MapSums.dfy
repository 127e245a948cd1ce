/** Sums of the values of a finite map over a set of its keys. A `HashMap` is
    read in no particular order, so the sum picks keys arbitrarily and the
    lemmas show that the choice never matters. */
module MapSums {
  ghost function Sum<K>(m: map<K, nat>, keys: set<K>): nat
    requires keys <= m.Keys
    decreases keys
  {
    if keys == {} then 0
    else
      var k :| k in keys;
      m[k] + Sum(m, keys - {k})
  }

  ghost function Total<K>(m: map<K, nat>): nat {
    Sum(m, m.Keys)
  }

  function Get<K(==)>(m: map<K, nat>, k: K): nat {
    if k in m then m[k] else 0
  }

  lemma {:induction false} SumSplit<K>(m: map<K, nat>, keys: set<K>, k: K)
    requires keys <= m.Keys && k in keys
    ensures Sum(m, keys) == m[k] + Sum(m, keys - {k})
    decreases keys
  {
    var j :| j in keys && Sum(m, keys) == m[j] + Sum(m, keys - {j});
    if j != k {
      SumSplit(m, keys - {j}, k);
      SumSplit(m, keys - {k}, j);
      assert keys - {j} - {k} == keys - {k} - {j};
    }
  }

  lemma {:induction false} SumAgree<K>(m: map<K, nat>, m': map<K, nat>, keys: set<K>)
    requires keys <= m.Keys && keys <= m'.Keys
    requires forall k :: k in keys ==> m[k] == m'[k]
    ensures Sum(m, keys) == Sum(m', keys)
    decreases keys
  {
    if keys != {} {
      var k :| k in keys;
      SumSplit(m, keys, k);
      SumSplit(m', keys, k);
      SumAgree(m, m', keys - {k});
    }
  }

  /** Writing one key changes the total by exactly that key's change. */
  lemma TotalPut<K>(m: map<K, nat>, k: K, v: nat)
    ensures Total(m[k := v]) + Get(m, k) == Total(m) + v
  {
    var m' := m[k := v];
    assert m'.Keys == m.Keys + {k};
    SumSplit(m', m'.Keys, k);
    assert m'.Keys - {k} == m.Keys - {k};
    SumAgree(m, m', m.Keys - {k});
    if k in m {
      SumSplit(m, m.Keys, k);
    } else {
      assert m.Keys - {k} == m.Keys;
    }
  }

  lemma TotalRemove<K>(m: map<K, nat>, k: K)
    requires k in m
    ensures Total(m - {k}) + m[k] == Total(m)
  {
    SumSplit(m, m.Keys, k);
    assert (m - {k}).Keys == m.Keys - {k};
    SumAgree(m, m - {k}, m.Keys - {k});
  }

  lemma GetAtMostTotal<K>(m: map<K, nat>, k: K)
    ensures Get(m, k) <= Total(m)
  {
    if k in m {
      SumSplit(m, m.Keys, k);
    }
  }

  lemma {:induction false} SumMonotone<K>(m: map<K, nat>, small: set<K>, large: set<K>)
    requires small <= large <= m.Keys
    ensures Sum(m, small) <= Sum(m, large)
    decreases large
  {
    if small != large {
      assert exists k :: k in large && k !in small;
      var k :| k in large && k !in small;
      SumSplit(m, large, k);
      SumMonotone(m, small, large - {k});
    }
  }

  /** Inclusion and exclusion for two sets of keys. */
  lemma {:induction false} SumInclusionExclusion<K>(m: map<K, nat>, a: set<K>, b: set<K>)
    requires a <= m.Keys && b <= m.Keys
    ensures Sum(m, a) + Sum(m, b) == Sum(m, a + b) + Sum(m, a * b)
    decreases a
  {
    if a == {} {
      assert a + b == b && a * b == {};
    } else {
      var k :| k in a;
      SumInclusionExclusion(m, a - {k}, b);
      SumSplit(m, a, k);
      SumSplit(m, a + b, k);
      if k in b {
        SumSplit(m, a * b, k);
        assert (a - {k}) + b == a + b;
        assert (a - {k}) * b == a * b - {k};
      } else {
        assert (a - {k}) + b == a + b - {k};
        assert (a - {k}) * b == a * b;
      }
    }
  }
}
