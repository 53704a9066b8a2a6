/**
 * The seeded pseudo-random source: a linear congruential generator whose state is
 * advanced on every call and whose output is the new state divided by 2^32.
 */
module SeededRandom {
  import opened JsArith

  const Multiplier: int := 1664525
  const Increment: int := 1013904223
  const Modulus: int := 4294967296
  /** 2^53: below it every integer is an exact JavaScript number. */
  const SafeIntegerBound: int := 9007199254740992

  /** One step of the recurrence, taken with JavaScript's `%`. */
  function Step(state: int): (next: int)
    ensures 0 <= state ==> 0 <= next < Modulus
  {
    JsRemainder(state * Multiplier + Increment, Modulus)
  }

  /** For a state in [0, 2^32) the intermediate product stays an exact JavaScript integer. */
  lemma StepIsExact(state: int)
    requires 0 <= state < Modulus
    ensures 0 <= state * Multiplier + Increment < SafeIntegerBound
  {
    assert state * Multiplier <= (Modulus - 1) * Multiplier by {
      MultiplyMonotone(state, Modulus - 1, Multiplier);
    }
  }

  lemma MultiplyMonotone(a: int, b: int, c: nat)
    requires a <= b
    ensures a * c <= b * c
  {
  }

  /** The state after `k` calls on a generator created from `seed`. */
  function StateAfter(seed: int, k: nat): (state: int)
    ensures 0 <= seed ==> 0 <= state
    ensures 0 <= seed && k > 0 ==> state < Modulus
  {
    if k == 0 then seed else Step(StateAfter(seed, k - 1))
  }

  /** The value returned by call number `k` (counting from 0) on a generator created from `seed`. */
  function Draw(seed: int, k: nat): real
  {
    StateAfter(seed, k + 1) as real / Modulus as real
  }

  /** From a non-negative seed every value drawn lies in [0, 1). */
  lemma DrawInUnitInterval(seed: int, k: nat)
    requires 0 <= seed
    ensures 0.0 <= Draw(seed, k) < 1.0
  {
    var s := StateAfter(seed, k + 1);
    assert 0 <= s < Modulus;
  }

  /** From a non-negative seed every step the generator takes is exact in JavaScript numbers. */
  lemma {:induction false} AllStepsExact(seed: int, k: nat)
    requires 0 <= seed < Modulus
    ensures 0 <= StateAfter(seed, k) < Modulus
    ensures 0 <= StateAfter(seed, k) * Multiplier + Increment < SafeIntegerBound
  {
    StepIsExact(StateAfter(seed, k));
  }

  /**
   * `seededRandom(seed)`: the closure's captured `state` is the field `state`; the
   * ghost fields record the seed and how many values have been drawn.
   */
  class Lcg {
    var state: int
    ghost const seed: int
    ghost var drawn: nat

    ghost predicate Valid()
      reads this
    {
      state == StateAfter(seed, drawn)
    }

    constructor (seed: int)
      ensures Valid() && this.seed == seed && drawn == 0
    {
      state := seed;
      this.seed := seed;
      drawn := 0;
    }

    /** `random()`: advance the state, return it scaled into [0, 1) (for a non-negative seed). */
    method Next() returns (r: real)
      requires Valid()
      modifies this
      ensures Valid() && drawn == old(drawn) + 1
      ensures r == Draw(seed, old(drawn))
      ensures 0 <= seed ==> 0.0 <= r < 1.0
    {
      state := Step(state);
      drawn := drawn + 1;
      assert state == StateAfter(seed, drawn);
      r := state as real / Modulus as real;
      if 0 <= seed {
        DrawInUnitInterval(seed, drawn - 1);
      }
    }
  }
}
