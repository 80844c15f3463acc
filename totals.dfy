/** Sums of real-valued contributions: over a set of keys (the entries of a hash
    map, visited in an order the program does not fix) and over a range of cell
    indices (visited in row-major order). */
module Totals {

  // ---------------------------------------------------------------------------
  // Over a set of keys
  // ---------------------------------------------------------------------------

  /** Some element of a non-empty set. */
  ghost function Pick<K>(keys: set<K>): (k: K)
    requires keys != {}
    ensures k in keys
  {
    var k :| k in keys; k
  }

  ghost function Total<K>(keys: set<K>, f: K -> real): real
    decreases |keys|
  {
    if keys == {} then 0.0
    else
      var k := Pick(keys);
      f(k) + Total(keys - {k}, f)
  }

  /** The total does not depend on the order in which the keys are taken. */
  lemma {:induction false} TotalRemove<K>(keys: set<K>, f: K -> real, k: K)
    requires k in keys
    ensures Total(keys, f) == f(k) + Total(keys - {k}, f)
    decreases |keys|
  {
    var k' := Pick(keys);
    if k' != k {
      var s1 := keys - {k'};
      var s2 := keys - {k};
      assert k in s1 && k' in s2;
      assert |s1| == |keys| - 1 && |s2| == |keys| - 1;
      TotalRemove(s1, f, k);
      TotalRemove(s2, f, k');
      assert s1 - {k} == s2 - {k'};
      calc {
        Total(keys, f);
        f(k') + Total(s1, f);
        f(k') + (f(k) + Total(s1 - {k}, f));
        f(k) + (f(k') + Total(s2 - {k'}, f));
        f(k) + Total(s2, f);
      }
    }
  }

  /** Visiting one more key adds its contribution. */
  lemma TotalInsert<K>(keys: set<K>, f: K -> real, k: K)
    requires k !in keys
    ensures Total(keys + {k}, f) == Total(keys, f) + f(k)
  {
    TotalRemove(keys + {k}, f, k);
    assert (keys + {k}) - {k} == keys;
  }

  lemma TotalEmpty<K>(f: K -> real)
    ensures Total({}, f) == 0.0
  {
  }

  /** Pointwise smaller contributions give a smaller total. */
  lemma {:induction false} TotalMono<K>(keys: set<K>, f: K -> real, g: K -> real)
    requires forall k :: k in keys ==> f(k) <= g(k)
    ensures Total(keys, f) <= Total(keys, g)
    decreases |keys|
  {
    if keys != {} {
      var k := Pick(keys);
      TotalRemove(keys, f, k);
      TotalRemove(keys, g, k);
      TotalMono(keys - {k}, f, g);
    }
  }

  /** The total of a pointwise sum is the sum of the totals. */
  lemma {:induction false} TotalLinear<K>(keys: set<K>, f: K -> real, g: K -> real, h: K -> real)
    requires forall k :: k in keys ==> h(k) == f(k) + g(k)
    ensures Total(keys, h) == Total(keys, f) + Total(keys, g)
    decreases |keys|
  {
    if keys != {} {
      var k := Pick(keys);
      TotalRemove(keys, f, k);
      TotalRemove(keys, g, k);
      TotalRemove(keys, h, k);
      TotalLinear(keys - {k}, f, g, h);
    }
  }

  /** Contributions that agree on the keys give the same total. */
  lemma {:induction false} TotalCongruent<K>(keys: set<K>, f: K -> real, g: K -> real)
    requires forall k :: k in keys ==> f(k) == g(k)
    ensures Total(keys, f) == Total(keys, g)
    decreases |keys|
  {
    if keys != {} {
      var k := Pick(keys);
      TotalRemove(keys, f, k);
      TotalRemove(keys, g, k);
      TotalCongruent(keys - {k}, f, g);
    }
  }

  lemma TotalNonNegative<K>(keys: set<K>, f: K -> real)
    requires forall k :: k in keys ==> f(k) >= 0.0
    ensures Total(keys, f) >= 0.0
  {
    TotalMono(keys, k => 0.0, f);
    TotalZero(keys);
  }

  lemma {:induction false} TotalZero<K>(keys: set<K>)
    ensures Total(keys, (k: K) => 0.0) == 0.0
    decreases |keys|
  {
    if keys != {} {
      var k := Pick(keys);
      TotalRemove(keys, (k: K) => 0.0, k);
      TotalZero(keys - {k});
    }
  }

  // ---------------------------------------------------------------------------
  // Over the indices below n
  // ---------------------------------------------------------------------------

  function SumBelow(n: nat, f: nat -> real): real
  {
    if n == 0 then 0.0 else SumBelow(n - 1, f) + f(n - 1)
  }

  lemma {:induction false} SumBelowMono(n: nat, f: nat -> real, g: nat -> real)
    requires forall i :: 0 <= i < n ==> f(i) <= g(i)
    ensures SumBelow(n, f) <= SumBelow(n, g)
  {
    if n > 0 {
      SumBelowMono(n - 1, f, g);
    }
  }

  lemma {:induction false} SumBelowNonNegative(n: nat, f: nat -> real)
    requires forall i :: 0 <= i < n ==> f(i) >= 0.0
    ensures SumBelow(n, f) >= 0.0
  {
    if n > 0 {
      SumBelowNonNegative(n - 1, f);
    }
  }

  /** Pointwise smaller contributions with the same sum agree everywhere. */
  lemma {:induction false} SumBelowEqual(n: nat, f: nat -> real, g: nat -> real)
    requires forall i :: 0 <= i < n ==> f(i) <= g(i)
    requires SumBelow(n, f) == SumBelow(n, g)
    ensures forall i :: 0 <= i < n ==> f(i) == g(i)
  {
    if n > 0 {
      SumBelowMono(n - 1, f, g);
      SumBelowEqual(n - 1, f, g);
    }
  }

  lemma {:induction false} SumBelowCongruent(n: nat, f: nat -> real, g: nat -> real)
    requires forall i :: 0 <= i < n ==> f(i) == g(i)
    ensures SumBelow(n, f) == SumBelow(n, g)
  {
    if n > 0 {
      SumBelowCongruent(n - 1, f, g);
    }
  }

  function CountBelow(n: nat, f: nat -> nat): nat
  {
    if n == 0 then 0 else CountBelow(n - 1, f) + f(n - 1)
  }

  lemma {:induction false} CountBelowMono(n: nat, f: nat -> nat, g: nat -> nat)
    requires forall i :: 0 <= i < n ==> f(i) <= g(i)
    ensures CountBelow(n, f) <= CountBelow(n, g)
  {
    if n > 0 {
      CountBelowMono(n - 1, f, g);
    }
  }

  lemma {:induction false} CountBelowBounded(n: nat, f: nat -> nat, c: nat)
    requires forall i :: 0 <= i < n ==> f(i) <= c
    ensures CountBelow(n, f) <= n * c
  {
    if n > 0 {
      CountBelowBounded(n - 1, f, c);
    }
  }
}
