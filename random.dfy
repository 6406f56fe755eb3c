/** Python's random.randint, turned into an injected source of integers so
    that the game's choices become inputs of the model. */
module Randomness {
  /** The n-th draw of randint(lo, hi) lies in [lo, hi]. */
  predicate Within(pick: (int, int, nat) -> int, lo: int, hi: int, n: nat) {
    lo <= pick(lo, hi, n) <= hi
  }

  /** An oracle that answers every draw of randint(lo, hi) within [lo, hi]. */
  ghost predicate UniformRange(pick: (int, int, nat) -> int) {
    forall lo, hi, n :: lo <= hi ==> Within(pick, lo, hi, n)
  }

  class Random {
    /** The value of each draw, fixed in advance. */
    const pick: (int, int, nat) -> int
    /** How many draws have been made. */
    var draws: nat

    ghost predicate Valid() {
      UniformRange(pick)
    }

    constructor (pick: (int, int, nat) -> int)
      requires UniformRange(pick)
      ensures Valid() && this.pick == pick && draws == 0
    {
      this.pick := pick;
      draws := 0;
    }

    /** random.randint(lo, hi): a value in [lo, hi], both ends included. */
    method RandInt(lo: int, hi: int) returns (r: int)
      requires Valid() && lo <= hi
      modifies this
      ensures Valid()
      ensures lo <= r <= hi
      ensures r == pick(lo, hi, old(draws)) && draws == old(draws) + 1
    {
      assert Within(pick, lo, hi, draws);
      r := pick(lo, hi, draws);
      draws := draws + 1;
    }
  }
}
