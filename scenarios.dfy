/**
 * Concrete device configurations and what the renderer makes of them.
 */
module Scenarios {
  import opened Vulkan
  import opened QueueFamilies
  import opened Suitability
  import opened Ranking
  import opened Engine

  /** A family with one queue that offers graphics and presentation. */
  const FULL_FAMILY: QueueFamily := QueueFamily(VK_QUEUE_GRAPHICS_BIT, 1, true)

  /** A family with one queue that offers graphics but cannot present to the surface. */
  const GRAPHICS_ONLY_FAMILY: QueueFamily := QueueFamily(VK_QUEUE_GRAPHICS_BIT, 1, false)

  /** A family with one queue that presents but has no graphics bit. */
  const PRESENT_ONLY_FAMILY: QueueFamily := QueueFamily(0, 1, true)

  function Gpu(id: nat, families: seq<QueueFamily>, deviceType: PhysicalDeviceType,
               dimension: U32, geometryShader: bool): PhysicalDevice
  {
    PhysicalDevice(Handle(id), families, DeviceProperties(deviceType, dimension),
                   DeviceFeatures(geometryShader), ZERO_MEMORY_PROPERTIES)
  }

  /** A discrete GPU limited to 2048 and an integrated one reaching 4096. */
  const DISCRETE_2048: PhysicalDevice := Gpu(1, [FULL_FAMILY], DiscreteGpu, 2048, true)
  const INTEGRATED_4096: PhysicalDevice := Gpu(2, [FULL_FAMILY], IntegratedGpu, 4096, true)

  /**
   * The discrete bonus is only 1000, so an integrated GPU reaching 4096 is
   * chosen over a discrete one limited to 2048 (3048 against 4096).
   */
  lemma LargerIntegratedBeatsDiscrete()
    ensures HasSuitableDevice([DISCRETE_2048, INTEGRATED_4096])
    ensures Selected([DISCRETE_2048, INTEGRATED_4096]).device == INTEGRATED_4096
  {
    var devices := [DISCRETE_2048, INTEGRATED_4096];
    ScoreRules(DISCRETE_2048);
    ScoreRules(INTEGRATED_4096);
    assert CandidateOf(devices, 0).score == 3048;
    assert CandidateOf(devices, 1).score == 4096;
    assert Qualifies(devices, 1);
  }

  /** Two devices with the same score: the one enumerated first is chosen. */
  lemma TieGoesToFirstEnumerated()
    ensures HasSuitableDevice([INTEGRATED_4096, Gpu(3, [FULL_FAMILY], VirtualGpu, 4096, true)])
    ensures Selected([INTEGRATED_4096, Gpu(3, [FULL_FAMILY], VirtualGpu, 4096, true)]).device == INTEGRATED_4096
  {
    var second := Gpu(3, [FULL_FAMILY], VirtualGpu, 4096, true);
    var devices := [INTEGRATED_4096, second];
    ScoreRules(INTEGRATED_4096);
    ScoreRules(second);
    assert CandidateOf(devices, 0).score == 4096;
    assert CandidateOf(devices, 1).score == 4096;
    assert Qualifies(devices, 0);
  }

  /** Without geometry shaders on any device there is nothing to select, and `InitDevice` exits. */
  lemma NoGeometryShadersNoDevice()
    ensures !HasSuitableDevice([Gpu(1, [FULL_FAMILY], DiscreteGpu, 16384, false),
                                Gpu(2, [FULL_FAMILY], IntegratedGpu, 8192, false)])
  {
    var devices := [Gpu(1, [FULL_FAMILY], DiscreteGpu, 16384, false),
                    Gpu(2, [FULL_FAMILY], IntegratedGpu, 8192, false)];
    forall k | 0 <= k < |devices|
      ensures !Qualifies(devices, k)
    {
      assert RateDeviceSuitability(devices[k]) == 0;
    }
  }

  /**
   * A device whose only family cannot present is still ranked and selected:
   * the completeness test never rejects it, and its present family stays
   * UINT32_MAX.
   */
  lemma NoPresentSupportStillSelected()
    ensures HasSuitableDevice([Gpu(1, [GRAPHICS_ONLY_FAMILY], DiscreteGpu, 4096, true)])
    ensures Selected([Gpu(1, [GRAPHICS_ONLY_FAMILY], DiscreteGpu, 4096, true)]).indices ==
      QueueFamilyIndices(0, UINT32_MAX)
  {
    var devices := [Gpu(1, [GRAPHICS_ONLY_FAMILY], DiscreteGpu, 4096, true)];
    ScoreRules(devices[0]);
    assert Qualifies(devices, 0);
  }

  /**
   * A device whose graphics queues live in family 1 is never credited with
   * them: the scan stops after family 0, so the graphics family stays
   * UINT32_MAX, and that is the family the device queue is requested on.
   * A real `vkCreateDevice` would reject that family index, and `ErrorCheck`
   * would then act; the model takes every driver call to succeed, so
   * `InitDevice` reports `Done` here.
   */
  lemma GraphicsInSecondFamilyMissed()
    ensures ScannedIndices([PRESENT_ONLY_FAMILY, FULL_FAMILY]) == QueueFamilyIndices(UINT32_MAX, 0)
    ensures HasSuitableDevice([Gpu(1, [PRESENT_ONLY_FAMILY, FULL_FAMILY], DiscreteGpu, 4096, true)])
    ensures Selected([Gpu(1, [PRESENT_ONLY_FAMILY, FULL_FAMILY], DiscreteGpu, 4096, true)]).indices.graphicsFamily ==
      UINT32_MAX
  {
    var devices := [Gpu(1, [PRESENT_ONLY_FAMILY, FULL_FAMILY], DiscreteGpu, 4096, true)];
    ScoreRules(devices[0]);
    assert Qualifies(devices, 0);
  }

  /** A device that reports no queue families at all keeps the default indices and can still be chosen. */
  lemma NoQueueFamiliesStillSelected()
    ensures HasSuitableDevice([Gpu(1, [], IntegratedGpu, 1024, true)])
    ensures Selected([Gpu(1, [], IntegratedGpu, 1024, true)]).indices == DEFAULT_INDICES
  {
    var devices := [Gpu(1, [], IntegratedGpu, 1024, true)];
    ScoreRules(devices[0]);
    assert Qualifies(devices, 0);
  }

  /**
   * The whole life of one renderer on two devices: construction, device
   * initialisation picks the integrated GPU, and the destructor clears the
   * device handle without ever calling `vkDestroyDevice` on it. Nothing
   * resets `_queue`, so the queue handle fetched from the device survives.
   */
  method Lifetime(platformExtensions: seq<string>)
    returns (renderer: Renderer)
    ensures renderer.device == None && renderer.instance == None && renderer.debugReport == None
    ensures renderer.gpu != [] && renderer.gpu[0] == INTEGRATED_4096.handle
    ensures renderer.queue == Some(Handle(13))
    ensures renderer.destroyDeviceCalls == []
  {
    var outcome;
    renderer, outcome := NewRenderer(platformExtensions, Handle(10), true, Handle(11));
    LargerIntegratedBeatsDiscrete();
    var setup := renderer.InitDevice([DISCRETE_2048, INTEGRATED_4096], Handle(12), Handle(13));
    renderer.Shutdown();
  }
}
