/**
 * The random and numeric collaborators of the heightfield generator.
 *
 * `System.Random` is a stream of draws: the generator state is the number of draws
 * made so far, and the oracle says what the k-th draw returns.  `Next(0, 2)` and
 * `NextDouble()` each consume exactly one draw.  The Box-Muller transform, Perlin
 * noise, `Math.Pow` and `Math.Sqrt` are library code and stay uninterpreted.
 */
module RandomSource {

  datatype Oracle = Oracle(
    nextInt: (nat, int, int) -> int,    // the k-th draw when it is Next(min, max)
    nextDouble: nat -> real,            // the k-th draw when it is NextDouble()
    boxMuller: (real, real) -> real,    // sqrt(-2 ln u1) * sin(2 pi u2)
    noise: (real, real, real) -> real,  // PerlinNoise.noise
    power: (real, real) -> real,        // Math.Pow
    sqrt: real -> real)                 // Math.Sqrt

  /** The state of the seeded generator: how many draws have been taken. */
  datatype Rng = Rng(draws: nat)

  /** `sign()`: one draw of Next(0, 2); an even draw gives +1, an odd one -1. */
  function Sign(o: Oracle, rng: Rng): (r: (int, Rng))
    ensures r.0 == 1 || r.0 == -1
    ensures r.0 == 1 <==> o.nextInt(rng.draws, 0, 2) % 2 == 0
    ensures r.1.draws == rng.draws + 1
  {
    var num := o.nextInt(rng.draws, 0, 2);
    (if num % 2 == 0 then 1 else -1, Rng(rng.draws + 1))
  }

  /** `NormalDist(mean, sigma)`: two uniform draws through Box-Muller, scaled and shifted. */
  function NormalDist(o: Oracle, rng: Rng, mean: real, sigma: real): (r: (real, Rng))
    ensures r.1.draws == rng.draws + 2
    ensures r.0 - mean == sigma * o.boxMuller(o.nextDouble(rng.draws), o.nextDouble(rng.draws + 1))
  {
    var u1 := o.nextDouble(rng.draws);
    var u2 := o.nextDouble(rng.draws + 1);
    var stdNormal := o.boxMuller(u1, u2);
    (mean + sigma * stdNormal, Rng(rng.draws + 2))
  }

  /** `randomHeight(range)`: a normal sample with mean `range` and deviation `range / 32`. */
  function RandomHeight(o: Oracle, rng: Rng, range: real): (r: (real, Rng))
    ensures r.1.draws == rng.draws + 2
    ensures r.0 - range == range / 32.0 * o.boxMuller(o.nextDouble(rng.draws), o.nextDouble(rng.draws + 1))
  {
    NormalDist(o, rng, range, range / 32.0)
  }
}
