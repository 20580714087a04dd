/** Sums of a weight over the values of a finite map: the mathematical meaning of the
    running totals that the contracts keep beside their storage maps. */
module MapSums {

  ghost function Sum<K, V>(m: map<K, V>, w: V -> nat): nat
    decreases |m|
  {
    if m == map[] then 0 else
      var k :| k in m;
      w(m[k]) + Sum(m - {k}, w)
  }

  /** What key `k` contributes to the sum. */
  ghost function At<K, V>(m: map<K, V>, w: V -> nat, k: K): nat {
    if k in m then w(m[k]) else 0
  }

  /** Any key may be split off, not only the one the definition picks. */
  lemma {:induction false} SumSplit<K, V>(m: map<K, V>, w: V -> nat, k: K)
    ensures Sum(m, w) == At(m, w, k) + Sum(m - {k}, w)
    decreases |m|
  {
    if k !in m {
      assert m - {k} == m;
    } else {
      var j :| j in m && Sum(m, w) == w(m[j]) + Sum(m - {j}, w);
      if j != k {
        SumSplit(m - {j}, w, k);
        SumSplit(m - {k}, w, j);
        assert m - {j} - {k} == m - {k} - {j};
      }
    }
  }

  lemma SumPut<K, V>(m: map<K, V>, w: V -> nat, k: K, v: V)
    ensures Sum(m[k := v], w) + At(m, w, k) == Sum(m, w) + w(v)
  {
    SumSplit(m, w, k);
    SumSplit(m[k := v], w, k);
    assert m[k := v] - {k} == m - {k};
  }

  lemma SumDrop<K, V>(m: map<K, V>, w: V -> nat, k: K)
    ensures Sum(m - {k}, w) + At(m, w, k) == Sum(m, w)
  {
    SumSplit(m, w, k);
  }

  /** One value never exceeds the sum of all of them. */
  lemma AtMostSum<K, V>(m: map<K, V>, w: V -> nat, k: K)
    ensures At(m, w, k) <= Sum(m, w)
  {
    SumSplit(m, w, k);
  }

  /** Weights that agree on every value of the map give the same sum. */
  lemma {:induction false} SumCongruent<K, V>(m: map<K, V>, w: V -> nat, w': V -> nat)
    requires forall k :: k in m ==> w(m[k]) == w'(m[k])
    ensures Sum(m, w) == Sum(m, w')
    decreases |m|
  {
    if m != map[] {
      var k :| k in m;
      SumSplit(m, w, k);
      SumSplit(m, w', k);
      SumCongruent(m - {k}, w, w');
    }
  }

  /** Values that weigh no more, key by key, sum to no more. */
  lemma {:induction false} SumMonotone<K, V>(m: map<K, V>, m': map<K, V>, w: V -> nat)
    requires m.Keys == m'.Keys && forall k :: k in m ==> w(m'[k]) <= w(m[k])
    ensures Sum(m', w) <= Sum(m, w)
    decreases |m|
  {
    if m != map[] {
      var k :| k in m;
      SumSplit(m, w, k);
      SumSplit(m', w, k);
      SumMonotone(m - {k}, m' - {k}, w);
    } else {
      assert m' == map[];
    }
  }

  /** What each value of `m` weighs less in `m'` is what `lost` weighs there. */
  lemma {:induction false} SumLost<K, V>(m: map<K, V>, m': map<K, V>, lost: map<K, V>, w: V -> nat)
    requires m.Keys == m'.Keys && lost.Keys <= m.Keys
    requires forall k :: k in m ==> w(m'[k]) + At(lost, w, k) == w(m[k])
    ensures Sum(m', w) + Sum(lost, w) == Sum(m, w)
    decreases |m|
  {
    if m == map[] {
      assert m' == map[] && lost == map[];
    } else {
      var k :| k in m;
      SumSplit(m, w, k);
      SumSplit(m', w, k);
      SumSplit(lost, w, k);
      forall j | j in m - {k} ensures w((m' - {k})[j]) + At(lost - {k}, w, j) == w((m - {k})[j]) {
        assert w(m'[j]) + At(lost, w, j) == w(m[j]);
      }
      SumLost(m - {k}, m' - {k}, lost - {k}, w);
    }
  }

  /** The weight of a map whose values are amounts. */
  function Amount(n: nat): nat { n }

  /** Storage read with the framework's default: an unset amount is zero. */
  function Get<K>(m: map<K, nat>, k: K): nat {
    if k in m then m[k] else 0
  }

  /** The contracts' guarded subtraction: subtract when possible, else fall back to zero. */
  function SaturatingSub(a: nat, b: nat): nat {
    if a >= b then a - b else 0
  }
}
