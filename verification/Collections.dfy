/** Sums over finite maps and repeat-free sequences: the arithmetic of money and row counts. */
module Collections {

  /** The sum of all values of a map. */
  ghost function Total<K>(m: map<K, int>): int
    decreases |m|
  {
    if m == map[] then 0
    else
      var k :| k in m;
      RemoveShrinks(m, k);
      m[k] + Total(m - {k})
  }

  lemma RemoveShrinks<K>(m: map<K, int>, k: K)
    requires k in m
    ensures |m - {k}| < |m|
  {
    assert (m - {k}).Keys == m.Keys - {k};
    assert |m.Keys - {k}| < |m.Keys|;
  }

  lemma {:induction false} TotalRemove<K>(m: map<K, int>, k: K)
    requires k in m
    ensures Total(m) == m[k] + Total(m - {k})
    decreases |m|
  {
    var c :| c in m && Total(m) == m[c] + Total(m - {c});
    if c != k {
      RemoveShrinks(m, c);
      RemoveShrinks(m, k);
      TotalRemove(m - {c}, k);
      TotalRemove(m - {k}, c);
      assert m - {c} - {k} == m - {k} - {c};
    }
  }

  lemma TotalUpdate<K>(m: map<K, int>, k: K, v: int)
    ensures Total(m[k := v]) == Total(m) + v - (if k in m then m[k] else 0)
  {
    TotalRemove(m[k := v], k);
    if k in m {
      TotalRemove(m, k);
      assert m[k := v] - {k} == m - {k};
    } else {
      assert m[k := v] - {k} == m;
    }
  }

  lemma {:induction false} TotalMonotone<K>(a: map<K, int>, b: map<K, int>)
    requires forall k | k in a :: k in b && a[k] <= b[k]
    requires forall k | k in b :: b[k] >= 0
    ensures Total(a) <= Total(b)
    decreases |b|
  {
    if b != map[] {
      var k :| k in b;
      RemoveShrinks(b, k);
      TotalRemove(b, k);
      if k in a {
        TotalRemove(a, k);
        TotalMonotone(a - {k}, b - {k});
      } else {
        TotalMonotone(a, b - {k});
      }
    }
  }

  /** Sending each entry of a to an entry of b of its own, no smaller, bounds the sums. */
  lemma {:induction false} TotalInjective<K>(a: map<K, int>, b: map<K, int>, f: map<K, K>)
    requires forall k | k in a :: k in f && f[k] in b && a[k] <= b[f[k]]
    requires forall k, l | k in a && l in a && k in f && l in f && f[k] == f[l] :: k == l
    requires forall k | k in b :: b[k] >= 0
    ensures Total(a) <= Total(b)
    decreases |a|
  {
    if a == map[] {
      TotalMonotone(a, b);
    } else {
      var k :| k in a;
      RemoveShrinks(a, k);
      TotalRemove(a, k);
      TotalRemove(b, f[k]);
      TotalInjective(a - {k}, b - {f[k]}, f);
    }
  }

  predicate NoRepeats<T(==)>(s: seq<T>) {
    forall i, j | 0 <= i < j < |s| :: s[i] != s[j]
  }

  function Elements<T>(s: seq<T>): (r: set<T>) {
    set x | x in s
  }

  lemma {:induction false} NoRepeatsCardinality<T>(s: seq<T>)
    requires NoRepeats(s)
    ensures |Elements(s)| == |s|
  {
    if s != [] {
      var init, last := s[..|s| - 1], s[|s| - 1];
      NoRepeatsCardinality(init);
      assert s == init + [last];
      assert Elements(s) == Elements(init) + {last};
      assert last !in Elements(init);
    }
  }

  lemma SubsetCardinality<T>(a: set<T>, b: set<T>)
    requires a <= b
    ensures |a| <= |b|
    ensures |a| == |b| ==> a == b
  {
    assert |b| == |a| + |b - a| by { assert b == a + (b - a); }
  }
}
