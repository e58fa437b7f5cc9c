/**
 * `Renderer::QueueFamilyIndices` and the queue-family scan of `InitDevice`.
 */
module QueueFamilies {
  import opened Vulkan

  /**
   * The pair of queue-family indices found for one physical device. Both
   * fields are `uint32_t`, so the "unset" value -1 is stored as UINT32_MAX.
   */
  datatype QueueFamilyIndices = QueueFamilyIndices(graphicsFamily: U32, presentFamily: U32)
  {
    /**
     * `isComplete()` compares both unsigned fields with `>= 0`, which holds for
     * every value: the test never fails, whatever the indices are.
     */
    function IsComplete(): (complete: bool)
      ensures complete
    {
      graphicsFamily >= 0 && presentFamily >= 0
    }
  }

  /** A default-constructed `QueueFamilyIndices`: both fields initialised from -1. */
  const DEFAULT_INDICES: QueueFamilyIndices := QueueFamilyIndices(ToU32(-1), ToU32(-1))

  lemma DefaultIndicesAreMax()
    ensures DEFAULT_INDICES.graphicsFamily == UINT32_MAX == 4294967295
    ensures DEFAULT_INDICES.presentFamily == UINT32_MAX
  {
  }

  /** A family offers graphics when it has a queue and the graphics bit is set. */
  predicate GraphicsCapable(family: QueueFamily)
  {
    family.queueCount > 0 && family.queueFlags & VK_QUEUE_GRAPHICS_BIT != 0
  }

  /** A family offers presentation when it has a queue and supports the surface. */
  predicate PresentCapable(family: QueueFamily)
  {
    family.queueCount > 0 && family.presentSupport
  }

  /** One iteration of the scan on family number `i`, before the completeness test. */
  function Examine(indices: QueueFamilyIndices, family: QueueFamily, i: nat): (next: QueueFamilyIndices)
    ensures i < U32_LIMIT ==>
      next.graphicsFamily == (if GraphicsCapable(family) then i else indices.graphicsFamily)
    ensures i < U32_LIMIT ==>
      next.presentFamily == (if PresentCapable(family) then i else indices.presentFamily)
  {
    var afterGraphics := if GraphicsCapable(family) then indices.(graphicsFamily := ToU32(i)) else indices;
    if PresentCapable(family) then afterGraphics.(presentFamily := ToU32(i)) else afterGraphics
  }

  /** `isComplete()` as a function value, the stopping test handed to `ScanFrom`. */
  function Completes(indices: QueueFamilyIndices): bool
  {
    indices.IsComplete()
  }

  /**
   * The scan as the source writes it: examine families in index order from
   * `i`, stop as soon as `complete` holds of the indices found so far. The
   * stopping test is a parameter so that the scan is stated for any test; the
   * renderer uses `Completes`. Whatever the test, each index found is either
   * the one it started with or the number of an examined family that has a
   * queue with that capability.
   */
  function ScanFrom(families: seq<QueueFamily>, i: nat, indices: QueueFamilyIndices,
                    complete: QueueFamilyIndices -> bool): (found: QueueFamilyIndices)
    requires i <= |families|
    ensures found.graphicsFamily == indices.graphicsFamily ||
      exists j :: i <= j < |families| && GraphicsCapable(families[j]) && found.graphicsFamily == ToU32(j)
    ensures found.presentFamily == indices.presentFamily ||
      exists j :: i <= j < |families| && PresentCapable(families[j]) && found.presentFamily == ToU32(j)
    decreases |families| - i
  {
    if i == |families| then indices
    else
      var next := Examine(indices, families[i], i);
      if complete(next) then next else ScanFrom(families, i + 1, next, complete)
  }

  /**
   * The indices the scan produces from the defaults. Because the completeness
   * test always succeeds, only family 0 is ever looked at: with no families the
   * defaults stay, otherwise each index is 0 when family 0 offers that
   * capability and UINT32_MAX when it does not.
   */
  function ScannedIndices(families: seq<QueueFamily>): (indices: QueueFamilyIndices)
    ensures families == [] ==> indices == DEFAULT_INDICES
    ensures families != [] ==>
      indices.graphicsFamily == (if GraphicsCapable(families[0]) then 0 else UINT32_MAX)
    ensures families != [] ==>
      indices.presentFamily == (if PresentCapable(families[0]) then 0 else UINT32_MAX)
  {
    ScanFrom(families, 0, DEFAULT_INDICES, Completes)
  }

  /** Families after the first never influence the scan. */
  lemma OnlyFirstFamilyExamined(families: seq<QueueFamily>, others: seq<QueueFamily>)
    requires families != [] && others != [] && families[0] == others[0]
    ensures ScannedIndices(families) == ScannedIndices(others)
  {
  }

  /**
   * The scan loop of `InitDevice` (Renderer.cpp, the inner `for` over
   * `queueFamilies`), with its counter `i` and its early exit.
   */
  method FindQueueFamilies(queueFamilies: seq<QueueFamily>) returns (indices: QueueFamilyIndices)
    ensures indices == ScannedIndices(queueFamilies)
  {
    indices := DEFAULT_INDICES;
    var i: int := 0;
    var done := false;
    while i < |queueFamilies| && !done
      invariant 0 <= i <= |queueFamilies|
      invariant ScannedIndices(queueFamilies) ==
                (if done then indices else ScanFrom(queueFamilies, i, indices, Completes))
      decreases |queueFamilies| - i, if done then 0 else 1
    {
      var queueFamily := queueFamilies[i];
      if GraphicsCapable(queueFamily) {
        indices := indices.(graphicsFamily := ToU32(i));
      }
      if PresentCapable(queueFamily) {
        indices := indices.(presentFamily := ToU32(i));
      }
      done := indices.IsComplete();
      if !done {
        i := i + 1;
      }
    }
  }
}
