/** The seeded ChaCha8 generator of the optimiser, seen only through the values it
    hands out. The stream of raw draws is fixed when the generator is built (the
    seed determines it), so every run with the same draws makes the same choices.
    The internals of ChaCha8 are not part of this model. */
module Random {

  /** Drop the first `k` draws (an exhausted stream stays empty). */
  function Drop(draws: seq<nat>, k: nat): (r: seq<nat>)
    ensures |r| == if k <= |draws| then |draws| - k else 0
  {
    if k <= |draws| then draws[k..] else []
  }

  /** The raw value of the next draw; an exhausted stream yields 0. */
  function Head(draws: seq<nat>): nat
  {
    if |draws| == 0 then 0 else draws[0]
  }

  /** 2^53: `gen::<f64>()` turns 53 random bits into a value in [0, 1). */
  const UNIT_STEPS: nat := 0x20_0000_0000_0000

  /** The value in [0, 1) that `gen::<f64>()` makes of the next draw. */
  function UnitOf(draws: seq<nat>): (x: real)
    ensures 0.0 <= x < 1.0
  {
    (Head(draws) % UNIT_STEPS) as real / UNIT_STEPS as real
  }

  /** Dropping `a` draws and then `b` more drops `a + b`. */
  lemma DropDrop(draws: seq<nat>, a: nat, b: nat)
    ensures Drop(Drop(draws, a), b) == Drop(draws, a + b)
  {
  }

  class Rng {
    /** The values the generator has not yet handed out. */
    var draws: seq<nat>

    constructor FromDraws(draws: seq<nat>)
      ensures this.draws == draws
    {
      this.draws := draws;
    }

    /** `gen_range(0..n)`: a value below `n`. */
    method GenRange(n: nat) returns (r: nat)
      requires n > 0
      modifies this
      ensures r < n && r == Head(old(draws)) % n
      ensures draws == Drop(old(draws), 1)
    {
      r := Head(draws) % n;
      draws := Drop(draws, 1);
    }

    /** `gen::<bool>()`: a fair coin. */
    method GenBool() returns (b: bool)
      modifies this
      ensures b == (Head(old(draws)) % 2 == 1)
      ensures draws == Drop(old(draws), 1)
    {
      b := Head(draws) % 2 == 1;
      draws := Drop(draws, 1);
    }

    /** `gen::<f64>()`: a value in the half-open unit interval. */
    method GenUnit() returns (x: real)
      modifies this
      ensures 0.0 <= x < 1.0 && x == UnitOf(old(draws))
      ensures draws == Drop(old(draws), 1)
    {
      var k := Head(draws) % UNIT_STEPS;
      x := k as real / UNIT_STEPS as real;
      draws := Drop(draws, 1);
    }

    /** `SliceRandom::shuffle`: a Fisher-Yates pass from the last index down to 1,
        swapping each index with a uniformly drawn index at or below it. */
    method Shuffle<T>(s: seq<T>) returns (r: seq<T>)
      modifies this
      ensures |r| == |s| && multiset(r) == multiset(s)
      ensures draws == Drop(old(draws), if |s| == 0 then 0 else |s| - 1)
    {
      r := s;
      if |s| == 0 {
        return;
      }
      var i := |s| - 1;
      while i > 0
        invariant 0 <= i < |s|
        invariant |r| == |s| && multiset(r) == multiset(s)
        invariant draws == Drop(old(draws), |s| - 1 - i)
        decreases i
      {
        var j := GenRange(i + 1);
        var t := r[i];
        r := r[i := r[j]][j := t];
        i := i - 1;
      }
    }
  }
}
