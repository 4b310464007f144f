/** The process-wide pseudo-random generator behind `rand()`, made explicit:
    an arbitrary sequence of draws in [0, RAND_MAX] (the oracle) and the
    position of the next draw. Seeding is not modelled; any oracle is allowed. */
module Random {

  class Rand {
    /** RAND_MAX. */
    const randMax: nat
    /** The k-th value `rand()` returns. */
    const oracle: nat -> nat
    /** How many values have been drawn so far. */
    var pos: nat

    /** Every draw lies in [0, RAND_MAX], and RAND_MAX is positive. */
    ghost predicate Valid() {
      0 < randMax && forall k :: oracle(k) <= randMax
    }

    constructor (randMax: nat, oracle: nat -> nat)
      requires 0 < randMax && forall k :: oracle(k) <= randMax
      ensures Valid() && this.randMax == randMax && this.oracle == oracle && pos == 0
    {
      this.randMax := randMax;
      this.oracle := oracle;
      pos := 0;
    }

    /** `rand()`: the next draw. */
    method Next() returns (r: nat)
      requires Valid()
      modifies this
      ensures r == oracle(old(pos)) && r <= randMax
      ensures pos == old(pos) + 1
    {
      r := oracle(pos);
      pos := pos + 1;
    }
  }
}
