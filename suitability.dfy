/**
 * `Renderer::RateDeviceSuitability`: the score of one physical device.
 */
module Suitability {
  import opened Vulkan

  /** The bonus a discrete GPU earns. */
  const DISCRETE_BONUS: int := 1000

  /** The largest `int` value. */
  const INT32_MAX: int := 0x7FFF_FFFF

  /**
   * The largest `maxImageDimension2D` for which the score of `device` cannot
   * leave the range of `int`: the bonus leaves a discrete GPU 1000 less room.
   */
  function DimensionLimit(device: PhysicalDevice): int
  {
    if device.properties.deviceType == DiscreteGpu then INT32_MAX - DISCRETE_BONUS else INT32_MAX
  }

  /** `score += value` with `int score` and `uint32_t value`: done in unsigned arithmetic, read back as `int`. */
  function AddUnsigned(score: int, value: U32): (sum: int)
    ensures -0x8000_0000 <= sum < 0x8000_0000
    ensures (sum - (score + value)) % U32_LIMIT == 0
    ensures -0x8000_0000 <= score + value < 0x8000_0000 ==> sum == score + value
  {
    ToInt32(ToU32(ToU32(score) + value))
  }

  /**
   * The score: 0 without geometry shaders; otherwise 1000 for a discrete
   * GPU plus `maxImageDimension2D`, accumulated in an `int`.
   */
  function RateDeviceSuitability(device: PhysicalDevice): (score: int)
    ensures -0x8000_0000 <= score < 0x8000_0000
    ensures !device.features.geometryShader ==> score == 0
  {
    if !device.features.geometryShader then 0
    else
      var score := if device.properties.deviceType == DiscreteGpu then DISCRETE_BONUS else 0;
      AddUnsigned(score, device.properties.maxImageDimension2D)
  }

  /** The exact value of the score the heuristic intends: bonus plus dimension. */
  function IntendedScore(device: PhysicalDevice): nat
  {
    if !device.features.geometryShader then 0
    else (if device.properties.deviceType == DiscreteGpu then DISCRETE_BONUS else 0)
         + device.properties.maxImageDimension2D
  }

  /**
   * For every dimension below the overflow bound the `int` accumulator is
   * exact: the score equals the intended one and so is never negative, and it
   * is positive exactly when the device has geometry shaders and is discrete or
   * reports a non-zero dimension.
   */
  lemma ScoreRules(device: PhysicalDevice)
    requires device.properties.maxImageDimension2D <= DimensionLimit(device)
    ensures RateDeviceSuitability(device) == IntendedScore(device) >= 0
    ensures RateDeviceSuitability(device) > 0 <==>
      device.features.geometryShader &&
      (device.properties.deviceType == DiscreteGpu || device.properties.maxImageDimension2D > 0)
  {
  }

  /**
   * The discrete bonus decides between a discrete device with dimension a and
   * a non-discrete one with dimension b (both with geometry shaders) exactly at
   * a + 1000 against b: the discrete one wins when a + 1000 > b, they tie at
   * equality, and it loses below.
   */
  lemma DiscreteCrossover(discrete: PhysicalDevice, other: PhysicalDevice)
    requires discrete.features.geometryShader && other.features.geometryShader
    requires discrete.properties.deviceType == DiscreteGpu && other.properties.deviceType != DiscreteGpu
    requires discrete.properties.maxImageDimension2D <= DimensionLimit(discrete)
    requires other.properties.maxImageDimension2D <= DimensionLimit(other)
    ensures RateDeviceSuitability(discrete) > RateDeviceSuitability(other) <==>
      discrete.properties.maxImageDimension2D + DISCRETE_BONUS > other.properties.maxImageDimension2D
    ensures RateDeviceSuitability(discrete) == RateDeviceSuitability(other) <==>
      discrete.properties.maxImageDimension2D + DISCRETE_BONUS == other.properties.maxImageDimension2D
  {
    ScoreRules(discrete);
    ScoreRules(other);
  }

  /**
   * Beyond the bound the accumulator wraps: a non-discrete device with
   * geometry shaders that reports a dimension of 2^31 or more scores a
   * negative number.
   */
  lemma LargeDimensionWrapsNegative(device: PhysicalDevice)
    requires device.features.geometryShader && device.properties.deviceType != DiscreteGpu
    requires device.properties.maxImageDimension2D > DimensionLimit(device)
    ensures RateDeviceSuitability(device) == device.properties.maxImageDimension2D - U32_LIMIT < 0
  {
  }

  /**
   * A discrete GPU wraps earlier, once bonus plus dimension passes the
   * largest `int`. Its score is then bonus plus dimension minus 2^32: negative
   * up to a dimension of 2^32 - 1001, and a small non-negative number (below
   * 1000) for the last thousand dimensions, where the unsigned sum itself wraps.
   */
  lemma DiscreteLargeDimensionWraps(device: PhysicalDevice)
    requires device.features.geometryShader && device.properties.deviceType == DiscreteGpu
    requires device.properties.maxImageDimension2D > DimensionLimit(device)
    ensures RateDeviceSuitability(device) ==
      device.properties.maxImageDimension2D + DISCRETE_BONUS - U32_LIMIT
    ensures RateDeviceSuitability(device) < 0 <==>
      device.properties.maxImageDimension2D < U32_LIMIT - DISCRETE_BONUS
  {
  }
}
