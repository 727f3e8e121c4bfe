/*
 * The shared random number generator. Only the ranges of its draws matter to
 * the optimizer; the linear congruential step below is a stand-in for the
 * library's generator and nothing relies on its particular values.
 */
module Random {

  const Modulus: nat := 0x1_0000_0000_0000_0000

  class Rng {
    var state: nat

    constructor (seed: nat)
      ensures state == seed
    {
      state := seed;
    }

    /** A raw draw, used as the seed of one operator application. */
    method Next() returns (x: nat)
      modifies this
      ensures x < Modulus
    {
      state := (state * 6364136223846793005 + 1442695040888963407) % Modulus;
      x := state;
    }

    /** discrete(rng, lo, hi): an integer in [lo, hi]. */
    method Discrete(lo: nat, hi: nat) returns (x: nat)
      requires lo <= hi
      modifies this
      ensures lo <= x <= hi
    {
      var y := Next();
      x := lo + y % (hi - lo + 1);
    }

    /** coinToss(rng, p): true with probability p. */
    method CoinToss(p: real) returns (heads: bool)
      modifies this
      ensures p <= 0.0 ==> !heads
      ensures p >= 1.0 ==> heads
    {
      var y := Next();
      heads := (y as real) < p * (Modulus as real);
    }
  }
}
