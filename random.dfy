/**
  The simulation's pseudo-random generator (WalkerSim.Random): two 32-bit
  words of state that a save stores and a load restores verbatim.

  Random.cs is not part of this model. The state update below is a stand-in
  with the same shape (a pure function of the two words); no property of the
  model depends on its arithmetic, only on the ranges that Next promises.
 */
module RandomGen {
  import opened Numeric

  datatype Random = Random(state0: UInt32, state1: UInt32)

  /** `new Random(seed)` (stand-in). */
  function Seeded(seed: Int32): Random
  {
    Random(ToUnsigned(seed), 0x6C07_8965)
  }

  /** One step of the generator (stand-in). */
  function Step(g: Random): Random
  {
    Random(g.state1, (g.state0 * 0x9E37_79B9 + g.state1 + 1) % 0x1_0000_0000)
  }

  /** `Next(min, max)`: a draw in [min, max) and the advanced generator. */
  function Next(g: Random, min: int, max: int): (r: (int, Random))
    requires min < max
    ensures min <= r.0 < max
  {
    var g' := Step(g);
    (min + g'.state1 % (max - min), g')
  }

  /** `NextDouble()`: a double in [0, 1), as its bits, and the advanced generator. */
  function NextDouble(g: Random): (Double, Random)
  {
    var g' := Step(g);
    (Double(g'.state1), g')
  }

  /**
    The generator object (`_state.PRNG`): the location code draws from it
    through a shared reference, so each draw advances the one generator the
    state holds.
   */
  class Generator {
    var value: Random

    constructor (g: Random)
      ensures value == g
    {
      value := g;
    }

    /** `Next(min, max)`. */
    method Draw(min: int, max: int) returns (v: int)
      requires min < max
      modifies this
      ensures (v, value) == Next(old(value), min, max)
    {
      var drawn := Next(value, min, max);
      v := drawn.0;
      value := drawn.1;
    }

    /** `NextDouble()`. */
    method DrawDouble() returns (d: Double)
      modifies this
      ensures (d, value) == NextDouble(old(value))
    {
      var drawn := NextDouble(value);
      d := drawn.0;
      value := drawn.1;
    }
  }
}
