# Vulkan renderer bootstrap, modelled in Dafny

This project models the `Renderer` class of a small Vulkan engine
(`Engine/Renderer.cpp`, `Engine/Renderer.h`). The renderer builds its layer and
extension lists and creates a Vulkan instance with a debug-report callback.
It then picks a physical device, creates the logical device and one
graphics queue on it, and tears everything down in its destructor. Every
driver call is replaced by its result. Device enumeration and the property,
feature, queue-family and surface-support queries become one input sequence
of `PhysicalDevice` records. Handles returned by the driver become
parameters.

The modules follow the program's structure:

- `Vulkan` (`vulkan.dfy`): the driver's value types and constants. It also
  models `uint32_t` as the subset type `U32` and the source's unsigned
  conversions (`ToU32`, `ToInt32`).
- `QueueFamilies` (`queue_families.dfy`): the `QueueFamilyIndices` struct and
  its `isComplete()`. It also has the queue-family scan of `InitDevice`, as
  the loop `FindQueueFamilies`, which is proved against the function
  `ScannedIndices`.
- `Suitability` (`suitability.dfy`): `RateDeviceSuitability`.
  - The `int += uint32_t` accumulation is written out, modulo 2^32 and read
    back as a 32-bit two's-complement `int`.
- `Ranking` (`ranking.dfy`): the `std::multimap<int, …, std::greater<int>>` ranking.
  - Each insertion goes after the entries whose key is at least the new key,
    as `multimap::insert` does.
  - The ranking is proved to be a stable descending sort of the devices
    whose score is positive.
  - `Selected` is the front entry, characterised as the maximum score,
    earliest enumerated among ties.
- `DebugReport` (`debug_report.dfy`): the text `VulkanDebugCallback` builds.
  - A reader `ReadDebugMessage` recovers the reported severities and the
    rest of the line from that text, and a round-trip lemma connects the two.
- `Engine` (`renderer.dfy`): the class `Renderer`. Its fields have the
  header's initial values.
  - Its methods update those fields in place: list assembly, instance and
    debug set-up, `InitDevice`, and teardown.
  - A ghost log `destroyDeviceCalls` records the handle passed to every
    `vkDestroyDevice` call.
  - The getters are functions. `InitDevice`'s contract states what
    `GetVulkanPhysicalDevice` and `GetVulkanGraphicsQueueFamilyIndex` return
    after it has run.
- `Scenarios` (`scenarios.dfy`): concrete device configurations and the
  selection the renderer makes for each.

The model follows the code as written, including where it departs from its
evident intent:

- `isComplete()` compares two `uint32_t` fields with `>= 0`, so it always
  holds.
  - As a result, the queue-family scan stops after family 0. A capability that
    only a later family offers is never found, so its index keeps the
    default 4294967295.
  - A device without a presentation-capable family is still ranked and can
    be selected. The fields start at the sentinel `-1`, and `isComplete()` is
    there to test for it. Evidently intended: devices whose indices are still
    unset score 0 and are excluded, and the scan finds the first capable
    family of each kind. The model follows the code.
- `_DeInitDevice` calls `vkDestroyDevice` only when `_device` is already
  null.
  - A created device is therefore never destroyed. The guard at
    `Engine/Renderer.cpp:188` is the reverse of the evidently intended
    "destroy the device if one was created". The model follows the code, and
    `Engine.Renderer.Valid` records that every destroy call so far received
    a null handle.
- `std::exit(-1)` is modelled as the outcome `Exited(-1)`. This covers the
  missing debug entry points and the case where no device qualifies. In that
  case `InitDevice` changes no field. Both exits are preceded by an
  `assert(0 && …)`; see "Left out".

## Model

| member | source | states |
|---|---|---|
| `Vulkan.ToU32` | Engine/Renderer.h:30-31 | The conversion to `uint32_t` is congruent to its argument modulo 2^32. |
| `Vulkan.ToInt32` | Engine/Renderer.cpp:210-212 | Reading a `uint32_t` back as `int` gives a value in the 32-bit signed range that converts back to the same unsigned value. |
| `QueueFamilies.QueueFamilyIndices.IsComplete` | Engine/Renderer.h:33-35 | `isComplete()` holds for every pair of index values. |
| `QueueFamilies.DefaultIndicesAreMax` | Engine/Renderer.h:29-31 | A default `QueueFamilyIndices` has both fields equal to 4294967295. |
| `QueueFamilies.Examine` | Engine/Renderer.cpp:128-137 | Examining family i sets the graphics index to i exactly when the family has a queue and the graphics bit, and the present index to i exactly when it has a queue and present support. Otherwise each index is kept. |
| `QueueFamilies.ScanFrom` | Engine/Renderer.cpp:126-144 | Whatever the stopping test, each index the scan returns is either its starting value or the number of a family at or after the starting one that has a queue with that capability. |
| `QueueFamilies.ScannedIndices` | Engine/Renderer.cpp:118-144 | With no families the defaults stay. Otherwise each index is 0 if family 0 has a queue with that capability, and 4294967295 if not. |
| `QueueFamilies.OnlyFirstFamilyExamined` | Engine/Renderer.cpp:139-141 | Two family lists with the same first family scan to the same indices: later families are never examined. |
| `QueueFamilies.FindQueueFamilies` | Engine/Renderer.cpp:126-144 | The scan loop, with its counter and early exit, produces exactly `ScannedIndices` of its input. |
| `Suitability.AddUnsigned` | Engine/Renderer.cpp:210 | `int += uint32_t` yields a 32-bit signed value congruent to the exact sum modulo 2^32, equal to the exact sum whenever that fits in an `int`. |
| `Suitability.RateDeviceSuitability` | Engine/Renderer.cpp:192-213 | The score is a 32-bit signed value and is 0 when the device has no geometry shaders. |
| `Suitability.ScoreRules` | Engine/Renderer.cpp:201-212 | Below the overflow bound (2^31 - 1001 for a discrete GPU, 2^31 - 1 otherwise), the score is exactly 1000 for a discrete GPU plus `maxImageDimension2D` and is never negative. It is positive exactly when the device has geometry shaders and is discrete or has a non-zero dimension. |
| `Suitability.DiscreteCrossover` | Engine/Renderer.cpp:205-210 | A discrete device with dimension a beats a non-discrete one with dimension b exactly when a + 1000 > b, and ties exactly when a + 1000 = b. |
| `Suitability.LargeDimensionWrapsNegative` | Engine/Renderer.cpp:194-210 | A non-discrete device with a dimension of 2^31 or more gets the negative score dimension - 2^32. |
| `Suitability.DiscreteLargeDimensionWraps` | Engine/Renderer.cpp:205-210 | Above its bound, a discrete device scores dimension + 1000 - 2^32. That is negative exactly when the dimension is below 2^32 - 1000. |
| `Ranking.InsertionPoint` | Engine/Renderer.cpp:148 | Every entry before the insertion point scores at least the key, and the entry at the point, if any, scores less. |
| `Ranking.Insert` | Engine/Renderer.cpp:148 | Insertion adds exactly the new entry: the length grows by one and the multiset gains that entry. |
| `Ranking.InsertAt` | Engine/Renderer.cpp:148 | Each position of the map after insertion holds the old entry before the insertion point, the new entry at it, and the shifted old entry after it. |
| `Ranking.CandidateOf` | Engine/Renderer.cpp:118-146 | A device's candidate holds the device, its enumeration position and its scanned indices. Its score is always `RateDeviceSuitability`, because the `isComplete()` test never falls back to 0. |
| `Ranking.RankingOf` | Engine/Renderer.cpp:116-149 | After any prefix of the devices, the map is no longer than the prefix and holds only candidates from it with a positive score. |
| `Ranking.EnumeratedPositioned` | Engine/Renderer.cpp:116 | Each enumerated candidate records its own enumeration position. |
| `Ranking.QualifiedMembers` | Engine/Renderer.cpp:146-149 | A candidate is among the qualifying ones exactly when it was enumerated and its score is positive. |
| `Ranking.InsertOrdered` | Engine/Renderer.cpp:147-149 | Inserting a later-enumerated entry into an ordered map keeps it ordered: higher scores first, equal scores in enumeration order. |
| `Ranking.RankingOfContents` | Engine/Renderer.cpp:146-149 | After any prefix of the devices, the map holds exactly the candidates with a positive score, as a multiset. |
| `Ranking.RankingOfOrdered` | Engine/Renderer.cpp:114-149 | After any prefix of the devices, the map is ordered by descending score, with ties in enumeration order. |
| `Ranking.RankingOfStep` | Engine/Renderer.cpp:146-149 | Processing one more device inserts its candidate if the score is positive and otherwise leaves the map unchanged. |
| `Ranking.RankedMember` | Engine/Renderer.cpp:146-156 | A candidate is in the final ranking exactly when it is the candidate of an enumerated device with a positive score. |
| `Ranking.RankedOrdered` | Engine/Renderer.cpp:114-156 | The final ranking is ordered: higher score first, equal scores in enumeration order. |
| `Ranking.RankedIsStableSort` | Engine/Renderer.cpp:114-156 | The final ranking is non-increasing in score, keeps enumeration order among equal scores, is a permutation of the qualifying candidates, and holds exactly the candidates of the devices with a positive score. |
| `Ranking.RankedEmptyIffNoneQualifies` | Engine/Renderer.cpp:147-162 | The ranking is non-empty exactly when some device scores above zero. |
| `Ranking.Selected` | Engine/Renderer.cpp:152-164 | The selected device qualifies and has the maximum score of all qualifying devices. Among devices with that score it was enumerated first. |
| `Ranking.SelectedIsFront` | Engine/Renderer.cpp:153-156 | The selected device is the front of the ranking. |
| `DebugReport.WriteTagsInFixedOrder` | Engine/Renderer.cpp:232-246 | Writing the tags appends them in the order INFO, WARNING, PERFORMANCE, ERROR, DEBUG, each present exactly when its bit is set. |
| `DebugReport.DebugMessage` | Engine/Renderer.cpp:230-248 | The callback text starts with "VKDBG: " and ends with a newline. Its full layout is `DebugMessageLayout`'s. |
| `DebugReport.VulkanDebugCallback` | Engine/Renderer.cpp:218-258 | The callback returns VK_FALSE, and its text is "VKDBG: ", then the tags of the set bits in fixed order, then "@[" prefix "]: ", the message and a newline. |
| `DebugReport.MatchTag` | Engine/Renderer.cpp:232-246 | Part of the reader, the inverse of the text built at these lines; it exists only for the round trip. A tag the reader finds is one of the candidate severities' tags and is a prefix of the input. |
| `DebugReport.ReadTags` | Engine/Renderer.cpp:232-246 | Part of the reader, the inverse of the text built at these lines; it exists only for the round trip. Reading tags never lengthens the remaining text. |
| `DebugReport.MatchTagFinds` | Engine/Renderer.cpp:232-246 | Part of the reader, the inverse of the text built at these lines; it exists only for the round trip. The reader finds a severity whose tag starts the text when no other candidate tag does. |
| `DebugReport.MatchTagMisses` | Engine/Renderer.cpp:232-246 | Part of the reader, the inverse of the text built at these lines; it exists only for the round trip. The reader finds nothing when no candidate tag starts the text. |
| `DebugReport.TagStart` | Engine/Renderer.cpp:233-245 | The five tags written there are non-empty and start with the pairwise different letters I, W, P, E, D. The reader relies on this for the round trip. |
| `DebugReport.MatchTagOfTag` | Engine/Renderer.cpp:232-246 | Part of the reader, the inverse of the text built at these lines; it exists only for the round trip. A text that starts with a tag is read as that tag's severity. |
| `DebugReport.MatchTagNone` | Engine/Renderer.cpp:247 | Part of the reader, the inverse of the text built at these lines; it exists only for the round trip. A text that starts with a character no tag starts with, such as the "@[" after the tags, matches no tag. |
| `DebugReport.ReadTagsAfterTag` | Engine/Renderer.cpp:232-246 | Part of the reader, the inverse of the text built at these lines; it exists only for the round trip. Reading a text that starts with a tag yields that severity plus whatever the rest reads as. |
| `DebugReport.ReportedAmongCons` | Engine/Renderer.cpp:232-246 | Part of the reader, the inverse of the text built at these lines; it exists only for the round trip. The severities reported among a sequence are those of its head, if its bit is set, plus those of its tail. |
| `DebugReport.TagsForThenTail` | Engine/Renderer.cpp:232-247 | Part of the reader, the inverse of the text built at these lines; it exists only for the round trip. The tags followed by the line's tail regroup around the first tag. |
| `DebugReport.ReadTagsRoundTrip` | Engine/Renderer.cpp:232-247 | Reading the tags written for any flags gives back exactly the severities whose bits are set and leaves the tail untouched. |
| `DebugReport.WriteTagsAppends` | Engine/Renderer.cpp:231-246 | Writing the tags one after another onto a stream appends their concatenation. |
| `DebugReport.DebugMessageLayout` | Engine/Renderer.cpp:231-248 | The callback text is the header, then the tags, then "@[" prefix "]: ", the message and a newline. |
| `DebugReport.DebugMessageRoundTrip` | Engine/Renderer.cpp:230-248 | The callback text reads back as exactly the set of severities whose bits are set, followed by "@[" prefix "]: " message and newline. |
| `DebugReport.ReportedBits` | Engine/Renderer.cpp:232-246 | A severity is reported exactly when its bit is set in the flags. |
| `Engine.Renderer.constructor` | Engine/Renderer.h:51-70 | A fresh renderer has null instance, surface, device, queue and debug-report handles, empty device, index, layer and extension lists, zeroed property structures, and no destroy calls. |
| `Engine.Renderer.GetVulkanInstance` | Engine/Renderer.cpp:35-38 | Returns `_instance` and changes nothing. `NewRenderer` states that this is the created instance, and `Shutdown` that it is null afterwards. |
| `Engine.Renderer.GetVulkanPhysicalDevice` | Engine/Renderer.cpp:40-43 | Returns `_gpu.front()` and is defined only on a non-empty `_gpu`. In a valid renderer the graphics queue-family index is then defined too. After `InitDevice` it is the selected device. |
| `Engine.Renderer.GetVulkanDevice` | Engine/Renderer.cpp:45-48 | Returns `_device`. In a valid renderer a device handle is returned only once `_gpu` holds a physical device. |
| `Engine.Renderer.GetVulkanQueue` | Engine/Renderer.cpp:50-53 | Returns `_queue` and changes nothing. After `InitDevice` it is the fetched queue. |
| `Engine.Renderer.GetVulkanGraphicsQueueFamilyIndex` | Engine/Renderer.cpp:55-58 | Returns the front entry's graphics family and is defined only on a non-empty index list. In a valid renderer `_gpu.front()` is then defined too. After `InitDevice` it is the selected device's graphics family. |
| `Engine.Renderer.GetVulkanPhysicalDeviceProperties` | Engine/Renderer.cpp:60-63 | Returns `_gpu_properties`. After `InitDevice` these are the selected device's properties. |
| `Engine.Renderer.GetVulkanPhysicalDeviceMemoryProperties` | Engine/Renderer.cpp:65-68 | Returns `_gpu_memory_properties`. After `InitDevice` these are the selected device's memory properties. |
| `Engine.Renderer.SetupLayersAndExtensions` | Engine/Renderer.cpp:70-76 | The surface extension and then the platform extensions are appended to the instance extensions, and the swapchain extension to the device extensions. |
| `Engine.Renderer.SetupDebug` | Engine/Renderer.cpp:260-285 | The debug create info asks for warnings, performance warnings and errors through the renderer's callback. The standard validation layer and the debug-report extension are appended. |
| `Engine.Renderer.CreateInstance` | Engine/Renderer.cpp:78-97 | The instance is created from the current layers, extensions and debug create info, and its handle is kept. |
| `Engine.Renderer.InitDebug` | Engine/Renderer.cpp:290-302 | Missing debug entry points end the process with -1 and leave the callback handle unchanged. Otherwise `_debug_callback_create_info` is the create info handed over and returned, and the callback handle is kept. |
| `Engine.Renderer.DeInitDebug` | Engine/Renderer.cpp:304-308 | The debug-report handle is null afterwards. |
| `Engine.Renderer.DestroyInstance` | Engine/Renderer.cpp:99-103 | The instance handle is null afterwards. |
| `Engine.Renderer.Initialize` | Engine/Renderer.cpp:15-22 | The constructor body. The instance extensions gain the surface extension, then the platform extensions, then the debug-report extension. The device extensions gain the swapchain extension and the layers gain the validation layer. The instance is created, and the outcome is an exit with -1 exactly when the debug entry points are missing. |
| `Engine.Renderer.InitDevice` | Engine/Renderer.cpp:105-184 | It exits with -1 exactly when no device scores above zero, and then changes no field. Otherwise `_gpu` and `_queue_family_indices` match the ranking position by position, and their front is `Selected`. The properties are those of the selected device, exactly one queue is requested on its graphics family, and the device and queue handles are kept. |
| `Engine.Renderer.StoreRanking` | Engine/Renderer.cpp:152-157 | The ranking's devices and indices are appended, position by position, behind whatever `_gpu` and `_queue_family_indices` already hold. The previous entries are kept. |
| `Engine.Renderer.CreateDevice` | Engine/Renderer.cpp:163-183 | The properties are those of the front device. Exactly one queue, with `queueCount` 1, is requested on the front entry's graphics family. Queue 0 of that family is fetched, and the device and queue handles are kept. |
| `Engine.Renderer.DeInitDevice` | Engine/Renderer.cpp:186-190 | `_device` is null afterwards. `vkDestroyDevice` is called, with a null handle, exactly when `_device` was already null. |
| `Engine.Renderer.Shutdown` | Engine/Renderer.cpp:24-31 | The destructor leaves the device, debug-report and instance handles null. Its only destroy-device call happens when no device was created. |
| `Engine.RankDevices` | Engine/Renderer.cpp:114-150 | The nested scan-and-score loops with their multimap insertions produce exactly the ranking `Ranked(devices)`. |
| `Engine.NewRenderer` | Engine/Renderer.cpp:15-22 | A new renderer's lists are exactly [surface] + platform + [debug report] for instance extensions, [swapchain] for device extensions and [standard validation] for layers. It has no device, queue or GPU list yet. |
| `Engine.DebugCallbackFlagsExactly` | Engine/Renderer.cpp:265-271 | The debug flags contain the warning, performance-warning and error bits and neither the information nor the debug bit. |
| `Engine.DeInitDeviceTwice` | Engine/Renderer.cpp:186-190 | A second teardown leaves `_device` null again. It adds one more null-handle destroy call and changes no other state. |
| `Scenarios.LargerIntegratedBeatsDiscrete` | Engine/Renderer.cpp:205-210 | A discrete GPU with dimension 2048 (score 3048) loses to an integrated GPU with 4096 (score 4096). |
| `Scenarios.TieGoesToFirstEnumerated` | Engine/Renderer.cpp:148-156 | Of two devices with equal scores, the one enumerated first is selected. |
| `Scenarios.NoGeometryShadersNoDevice` | Engine/Renderer.cpp:201-204 | Devices without geometry shaders never qualify, so no device is selected. |
| `Scenarios.NoPresentSupportStillSelected` | Engine/Renderer.cpp:135-146 | A device whose only family cannot present is still selected, with present family 4294967295. |
| `Scenarios.GraphicsInSecondFamilyMissed` | Engine/Renderer.cpp:126-144 | Graphics support offered only by family 1 is never found: the device is still selected, with graphics family 4294967295. |
| `Scenarios.NoQueueFamiliesStillSelected` | Engine/Renderer.cpp:118-146 | A device with no queue families keeps the default indices and is selected. |
| `Scenarios.Lifetime` | Engine/Renderer.cpp:15-31 | Construction, `InitDevice` on the two devices above, and then destruction. The integrated GPU ends up at the front of `_gpu`. The device, debug-report and instance handles end null, `_queue` keeps the fetched queue handle, and `vkDestroyDevice` is never called. |

## Left out

- The Vulkan driver entry points are not modelled as calls; their results are inputs.
  - `vkEnumeratePhysicalDevices` and the property, feature, queue-family and surface-support queries yield the `PhysicalDevice` records.
  - `vkCreateInstance`, `vkCreateDevice`, `vkGetDeviceQueue` and `vkCreateDebugReportCallbackEXT` yield handle parameters.
  - `vkGetInstanceProcAddr` yields a flag saying whether both debug entry points resolved.
  - The destroy calls are not modelled, except for the logged `vkDestroyDevice` arguments.
- `ErrorCheck` is not part of this model. Its body lives outside the modelled files, so every driver call is taken to succeed.
- `AddRequiredPlatformInstanceExtensions` is not part of this model. The extensions it appends are an input sequence.
- The multimap stores a reference to the loop-local `indices`, which dangles once that iteration ends. Only that reference dangles: the device reference points into `gpu_list`, which lives until the end of the block. The model stores each device's own indices by value instead of reproducing that undefined behaviour.
- The `std::cout` output and the Win32 `MessageBox` of the callback are I/O and are left out. The text they would show is the callback's `text` result.
- The callback's object type, source object, location, message code and user-data arguments are not read by the source and are not parameters.
- The float queue priority `1.0f` is not modelled (floating point). The `VkApplicationInfo` contents are driver metadata and are not modelled either.
- The `sType` fields are not modelled.
- `OpenWindow` and `Run` are declared in `Engine/Renderer.h` but defined outside the modelled files. They are not part of this model.
- `Engine/Window.h` holds only declarations and is not part of this model.
- The build options fix `BUILD_ENABLE_VULKAN_DEBUG`, and the debug path is the one modelled. The empty non-debug variants of `_SetupDebug`, `_InitDebug` and `_DeInitDebug` are left out.
- `Engine.Renderer.InitDevice` requires an empty `_gpu` and `_queue_family_indices`. This is an assumption: no caller of `InitDevice` is in the modelled files. A second call would append a second ranking behind the first and would query the old front device; the model does not cover that case. `StoreRanking` itself appends, as the `push_back`s do.
- `std::exit(-1)` follows `assert(0 && …)` on both failure paths. In a build without `NDEBUG` the process aborts at the `assert` and never reaches the exit. `Exited(EXIT_CODE)` stands for both terminations, and the model does not distinguish the abort from the exit code.
- `Engine.Renderer.GetVulkanPhysicalDevice` and `Engine.Renderer.GetVulkanGraphicsQueueFamilyIndex` require a non-empty list because `front()` of an empty vector is undefined. The other getters are plain field reads with no contract of their own.
