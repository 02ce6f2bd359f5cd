/** Random choices. Every call of `Math.random()` in the source is a parameter
    `u` of the model with `0 <= u < 1`, so each property below holds for every
    sequence of random outcomes. */
module Draws {

  /** A possible value of `Math.random()`. */
  predicate IsDraw(u: real) {
    0.0 <= u < 1.0
  }

  /** A stream of draws: the k-th call of `Math.random()` in a loop returns `d(k)`. */
  ghost predicate IsDrawStream(d: nat -> real) {
    forall k :: IsDraw(d(k))
  }

  /** The draws that remain once the first `n` have been used. */
  function Skip(d: nat -> real, n: nat): (e: nat -> real)
    ensures forall k: nat :: e(k) == d(k + n)
  {
    (k: nat) => d(k + n)
  }

  lemma SkipIsDrawStream(d: nat -> real, n: nat)
    requires IsDrawStream(d)
    ensures IsDrawStream(Skip(d, n))
  {
    forall k: nat ensures IsDraw(Skip(d, n)(k)) {
      assert IsDraw(d(k + n));
    }
  }

  /** `Math.floor(Math.random() * n)`: the index `getRandomFromArray` reads
      from an array of length `n`. */
  function Pick(u: real, n: nat): (i: nat)
    requires IsDraw(u) && n > 0
    ensures i < n
  {
    ScaledDrawBelow(u, n as real);
    (u * n as real).Floor
  }

  lemma ScaledDrawBelow(u: real, x: real)
    requires IsDraw(u) && x > 0.0
    ensures 0.0 <= u * x < x
  {
    assert x - u * x == (1.0 - u) * x;
  }

  /** Every slot of the array can come out of `Pick`: the draw `i/n` selects
      index `i`. */
  lemma PickReachesEveryIndex(i: nat, n: nat)
    requires i < n
    ensures IsDraw(i as real / n as real)
    ensures Pick(i as real / n as real, n) == i
  {
    var u := i as real / n as real;
    assert u * n as real == i as real;
  }
}
