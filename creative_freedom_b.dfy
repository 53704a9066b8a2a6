/**
 * The Creative Freedom-B seed transform. The one `Math.random()` draw of the enabled
 * branch is the parameter `random`; callers pass a value in [0, 1).
 */
module CreativeFreedomB {

  const Temperature: real := 1.5
  const TopP: real := 0.90

  /** The integer part the fresh draw contributes when the mode is enabled. */
  function Randomness(random: real): (r: int)
    ensures 0.0 <= random < 1.0 ==> 0 <= r <= 899
  {
    var scaled := random * 1000.0 * TopP;
    assert 0.0 <= random < 1.0 ==> 0.0 <= scaled < 900.0;
    scaled.Floor
  }

  /**
   * The derived seed. Disabled: the seed moved by one hundred per variation point,
   * with no randomness. Enabled: the seed moved by `variation * 1.5 * 150` plus the
   * random part, so it lies in a window of 900 consecutive seeds.
   */
  function ApplyCreativeFreedomB(seed: int, variation: int, enabled: bool, random: real): (r: int)
    ensures !enabled ==> r == seed + 100 * variation
    ensures enabled ==> r == seed + 225 * variation + Randomness(random)
    ensures enabled && 0.0 <= random < 1.0 ==>
              seed + 225 * variation <= r <= seed + 225 * variation + 899
  {
    if !enabled then
      seed + (variation as real * 100.0).Floor
    else
      var variationBoost := variation as real * Temperature * 150.0;
      seed + variationBoost.Floor + Randomness(random)
  }

  /** Disabled, a non-negative variation never lowers the seed, and more variation raises it. */
  lemma DisabledMonotone(seed: int, v1: int, v2: int, random1: real, random2: real)
    requires 0 <= v1 < v2
    ensures seed <= ApplyCreativeFreedomB(seed, v1, false, random1)
              < ApplyCreativeFreedomB(seed, v2, false, random2)
  {
  }

  /** Disabled, the draw is ignored: the transform is a function of seed and variation. */
  lemma DisabledIgnoresRandom(seed: int, variation: int, random1: real, random2: real)
    ensures ApplyCreativeFreedomB(seed, variation, false, random1)
         == ApplyCreativeFreedomB(seed, variation, false, random2)
  {
  }

  /** Moving the seed by `k` moves the result by `k`, in both modes, for the same draw. */
  lemma ShiftInvariant(seed: int, k: int, variation: int, enabled: bool, random: real)
    ensures ApplyCreativeFreedomB(seed + k, variation, enabled, random)
         == ApplyCreativeFreedomB(seed, variation, enabled, random) + k
  {
  }
}
