# Slipper engine core in Dafny

A model of the core of the Slipper engine, a C++ Vulkan renderer: the
application's frame bookkeeping and event dispatch, input state, the graphics
engine's registry of render passes and rendering stages, command pools,
rendering stages and the order in which they run their queued commands, swap
chains and the surface swap chain built on top of them, textures (mip levels,
layout transitions, format choice), physical-device selection (queue
families, memory types, sample counts, suitability), SPIR-V shader reflection
and the merge of descriptor-set layouts across shader stages, shader layouts
and shaders (descriptor pools, sets, uniform buffers and their bindings), the
shader, material, texture and model managers, scene-object names, and the
string and path utilities they rely on.

Vulkan, GLFW and ImGui objects are opaque handles (`nat` ids handed out from a
counter, so a newly created object is fresh); the calls the engine makes on
them are recorded as lists of call values, so that the order of those calls
can be stated and proved. Objects whose fields the engine updates in place are
Dafny classes with `modifies` frames; the pure parts (reflection, merging,
name and path handling, format choice) are functions with lemmas about them.
Each module follows one source file or class; `Wrappers` holds `Option` and
`Result`, `Settings` the engine constants, `KeyCodes` the key and mouse-button
codes.

## Model

| member | source | states |
|---|---|---|
| StringUtil.Find | source/Slipper_Engine/src/Util/StringUtil.cpp:15 | `std::string::find` from a position: a found index is at or after the position and holds the pattern, and no earlier index from the position does; `None` (npos) means no occurrence from there on |
| StringUtil.FindInSuffix | source/Slipper_Engine/src/Util/StringUtil.cpp:15 | searching from a position finds, shifted by that position, what searching the suffix from its start finds |
| StringUtil.ReplaceSubstring | source/Slipper_Engine/src/Util/StringUtil.cpp:11-21 | an empty `From` leaves the string as it is; otherwise the result is every non-overlapping occurrence of `From`, left to right, replaced by `To`, scanning on after the inserted text; a string without `From` comes back unchanged |
| StringUtil.ReplaceStep | source/Slipper_Engine/src/Util/StringUtil.cpp:15-19 | one replacement followed by resuming after the inserted `To` keeps the final result the same, so the loop progresses and ends even when `To` contains `From`; `Path::replace_substring` (source/Slipper_Engine/src/Filesystem/Path.cpp:12-23) is the same loop |
| StringUtil.ReplaceDone | source/Slipper_Engine/src/Util/StringUtil.cpp:15 | once `find` reports npos, the text from the scan position on is kept as it is |
| StringUtil.ReplaceAllRemovesChar | source/Slipper_Engine/src/Util/StringUtil.cpp:11-21 | replacing a single character by text that lacks it leaves no occurrence of that character |
| StringUtil.ReplaceAllSelf | source/Slipper_Engine/src/Util/StringUtil.cpp:11-21 | replacing a substring by itself leaves the string unchanged |
| StringUtil.ToLowerChar | source/Slipper_Engine/src/Util/StringUtil.cpp:27 | `std::tolower` in the "C" locale: 'A'..'Z' move down by 32, every other character is kept, and no result is an ASCII capital |
| StringUtil.ToLower | source/Slipper_Engine/src/Util/StringUtil.cpp:23-29 | the result has the input's length and is the input lower-cased character by character |
| StringUtil.ToLowerNoUpper | source/Slipper_Engine/src/Util/StringUtil.cpp:23-29 | `to_lower` keeps the length and leaves no ASCII capital letter |
| StringUtil.ToLowerIdempotent | source/Slipper_Engine/src/Util/StringUtil.cpp:23-29 | lower-casing twice is lower-casing once |
| File.LastIndexOf | source/Slipper_Engine/src/Filesystem/File.cpp:28-29 | `find_last_of`: the index found holds the character and no later index does; npos exactly when the character is absent |
| File.GetFileNameFromPath | source/Slipper_Engine/src/Filesystem/File.cpp:25-30 | the result is a prefix of the text after the last '/', holds no '/', is that whole text when it has no '.', and otherwise stops at its last '.'; with no '/' the base name is the whole path |
| File.BasenameHasNoSlash | source/Slipper_Engine/src/Filesystem/File.cpp:28 | the text after the last '/' holds no '/' and is a suffix of the path |
| Path.Slashed | source/Slipper_Engine/src/Filesystem/Path.cpp:60 | `std::ranges::replace(path, '\\', '/')`: same length, no backslash left, every other character kept in place |
| Path.ReplaceBackslashesIsSlashed | source/Slipper_Engine/src/Filesystem/Path.cpp:50 | `replace_substring(s, "\\", "/")` is the same character-wise backslash replacement |
| Path.SlashedKeeps | source/Slipper_Engine/src/Filesystem/Path.cpp:60 | a path without backslashes is kept as it is |
| Path.GetEnginePath | source/Slipper_Engine/src/Filesystem/Path.cpp:49-52 | the executable's file name with backslashes made slashes and everything after the last '/' erased: the result has no backslash, ends in '/' or is empty, and is empty when there is no '/' |
| Path.MakeEngineRelativePathAbsolute | source/Slipper_Engine/src/Filesystem/Path.cpp:57-82 | refused exactly when "./" occurs nowhere in the path as given; otherwise the engine path followed by the slashed path with two leading characters dropped when the second is '/', else one; no backslash in the result when the engine path has none |
| Path.BackslashRelativePathRefused | source/Slipper_Engine/src/Filesystem/Path.cpp:62-65 | ".\\tex.png", one of the two forms the error message calls valid, is refused |
| Path.InnerDotSlashAccepted | source/Slipper_Engine/src/Filesystem/Path.cpp:62-77 | a path that does not start with "./" or ".\\" but holds "./" further in is accepted, with only its first character dropped |
| Path.MakeEngineRelativePathAbsoluteFixed | source/Slipper_Engine/src/Filesystem/Path.cpp:64-65 | the check the error message describes: accepted exactly when the path starts with "./" or ".\\", giving the engine path followed by the slashed rest |
| Path.FixedAgreesOnDotSlash | source/Slipper_Engine/src/Filesystem/Path.cpp:62-80 | on every path starting with "./" the corrected and the as-written resolution agree |
| Input.PressedReleasedExclusive | source/Slipper_Engine/src/Core/Input/Input.cpp:15-25 | a key or button is never both pressed and released in one frame |
| Input.AfterAction | source/Slipper_Engine/src/Core/Input/Input.cpp:341-360 | a press leaves the key pressed (down and changed), a release leaves it released (up and changed), a repeat changes nothing |
| Input.FrameReset | source/Slipper_Engine/src/Core/Input/Input.cpp:76-83 | the per-frame reset keeps whether a key is down and leaves it neither pressed nor released |
| Input.InputState.constructor | source/Slipper_Engine/src/Core/Input.h:224-230 | the static input state starts with every key and button up and unchanged, no movement and no captured cursor |
| Input.InputState.GetMouseMovement | source/Slipper_Engine/src/Core/Input/Input.cpp:47-56 | zero while the cursor is not captured and is outside the window or has just entered it; the recorded movement otherwise |
| Input.InputState.UpdateInputs | source/Slipper_Engine/src/Core/Input/Input.cpp:74-84 | every key and button keeps its down flag and loses its changed flag, and the movement becomes zero |
| Input.InputState.CaptureMouse | source/Slipper_Engine/src/Core/Input/Input.cpp:27-45 | asking for the current mode changes nothing; capturing remembers the position; releasing restores the remembered position and zeroes the movement |
| Input.InputState.OnKey | source/Slipper_Engine/src/Core/Input/Input.cpp:333-364 | while the callback accepts input (ImGui does not want the mouse, or the cursor is captured) the key changes as `AfterAction` says and a pressed, released or repeated event is passed on; otherwise nothing changes; no other key changes |
| Input.InputState.OnMouseButton | source/Slipper_Engine/src/Core/Input/Input.cpp:406-431 | the same for mouse buttons, where only press and release are handled |
| Input.InputState.OnCursorPos | source/Slipper_Engine/src/Core/Input/Input.cpp:388-404 | an accepted report sets the position, makes the movement the step from the previous report (the first report is its own previous one) and passes on a move event less the input offset; the previous report is recorded either way |
| Input.InputState.SetInputOffset | source/Slipper_Engine/src/Core/Input/Input.cpp:99-102 | the offset becomes the one given |
| Input.KeyQueries | source/Slipper_Engine/src/Core/Input/Input.cpp:58-72 | `GetKeyPressed` holds exactly when the key is down and changed, `GetKeyReleased` exactly when it is up and changed, and never both |
| Input.MouseButtonQueries | source/Slipper_Engine/src/Core/Input/Input.cpp:10-25 | the same for mouse buttons |
| Input.ImGuiToKeyCode | source/Slipper_Engine/src/Core/Input/Input.cpp:104-320 | every ImGui key outside the table maps to `KeyCode::None`, and every mapped code is a valid key index |
| Input.ImGuiToKeyCodeMapsNamed | source/Slipper_Engine/src/Core/Input/Input.cpp:104-320 | exactly the ImGui keys the table names are mapped; every other key gives `KeyCode::None` |
| Input.ImGuiToKeyCodeInjective | source/Slipper_Engine/src/Core/Input/Input.cpp:104-320 | no two mapped keys share a key code: the code of each leads back to that key |
| Decimal.NatToString | source/Slipper_Engine/src/Ecs/Components/SceneObjectComponent.h:10 | `std::to_string` of a count: at least one digit, only digits, and no leading zero |
| Decimal.ParseNatToString | source/Slipper_Engine/src/Ecs/Components/SceneObjectComponent.h:10 | reading the text of a count back as a decimal number gives the count |
| Decimal.NatToStringInjective | source/Slipper_Engine/src/Ecs/Components/SceneObjectComponent.h:10 | different counts give different texts |
| Device.OpCount | source/Slipper_Engine/src/GPU/Vulkan/internal/vk_Device.cpp:341-355 | a family supports at most the seven counted kinds of operation |
| Device.Kept | source/Slipper_Engine/src/GPU/Vulkan/internal/vk_Device.cpp:336-358 | the candidate map has one entry per operation count (0..7), each naming a family of the list |
| Device.FirstUntaken | source/Slipper_Engine/src/GPU/Vulkan/internal/vk_Device.cpp:360-366 | the first candidate by ascending count that is not taken: every candidate at a lower count is taken; none only when every candidate is taken |
| Device.FirstKept | source/Slipper_Engine/src/GPU/Vulkan/internal/vk_Device.cpp:368-371 | the candidate with the smallest count (no candidate at a lower count), and none only when there is no candidate |
| Device.SelectQueue | source/Slipper_Engine/src/GPU/Vulkan/internal/vk_Device.cpp:327-374 | the loops compute the selection rule `SelectQueueSpec` (the lemmas below state its properties); `None` is the invalid_argument exception |
| Device.KeptIsLowest | source/Slipper_Engine/src/GPU/Vulkan/internal/vk_Device.cpp:356 | `std::map::insert` keeps the first entry: each kept family is the lowest-index family offering the flags with that count, and a count is missing only when no family has it |
| Device.SelectQueueOffers | source/Slipper_Engine/src/GPU/Vulkan/internal/vk_Device.cpp:338 | a selected family offers every requested flag |
| Device.SelectQueueFails | source/Slipper_Engine/src/GPU/Vulkan/internal/vk_Device.cpp:368-373 | selection fails exactly when no family offers the requested flags |
| Device.SelectQueuePrefersUntaken | source/Slipper_Engine/src/GPU/Vulkan/internal/vk_Device.cpp:360-371 | a taken family is returned only when every candidate is taken, and then it has the fewest operations of all candidates; an untaken one has the fewest operations among the untaken candidates |
| Device.LastSupported | source/Slipper_Engine/src/GPU/Vulkan/internal/vk_Device.cpp:420-424 | the present family is the last family with surface support, or none when no family has it |
| Device.QueryIndicesRoles | source/Slipper_Engine/src/GPU/Vulkan/internal/vk_Device.cpp:408-424 | every family a query finds offers its role's operations: graphics, compute, and transfer with graphics; the present family is the last supporting one |
| Device.PhysicalDevice.constructor | source/Slipper_Engine/src/GPU/Vulkan/vk_Device.h:16-20 | a device starts with no queue family chosen |
| Device.PhysicalDevice.QueryQueueFamilyIndices | source/Slipper_Engine/src/GPU/Vulkan/internal/vk_Device.cpp:376-428 | complete indices are returned as they are; otherwise graphics is chosen first, then compute with graphics taken, then transfer with both taken, and the present family is the last one with surface support; a failed selection (the exception) leaves the indices unchanged |
| Device.FindMemoryType | source/Slipper_Engine/src/GPU/Vulkan/internal/vk_Device.cpp:247-261 | the lowest memory type that passes the filter bit and has every requested property; `None`, for the runtime_error, only when no type does |
| Device.MaxUsableSampleCount | source/Slipper_Engine/src/GPU/Vulkan/internal/vk_Device.cpp:216-245 | the highest of e64..e2 that both the colour and the depth limits support, else e1 |
| Device.RateDeviceSuitability | source/Slipper_Engine/src/GPU/Vulkan/internal/vk_Device.cpp:282-302 | zero without geometry shaders; otherwise 1000 for a discrete GPU plus the largest 2D image size, as a 32-bit unsigned result |
| Device.DiscreteRatesHigher | source/Slipper_Engine/src/GPU/Vulkan/internal/vk_Device.cpp:286-290 | a discrete GPU outscores an integrated one with the same image size |
| Device.Clamp | source/Slipper_Engine/src/GPU/Vulkan/internal/vk_Device.cpp:196-199 | `std::clamp`: the result lies in the bounds and is the value itself when that already does |
| Device.CapabilitiesSwapChainImageCount | source/Slipper_Engine/src/GPU/Vulkan/internal/vk_Device.cpp:194-200 | the clamp always gives the minimum image count |
| Device.CheckExtensionSupport | source/Slipper_Engine/src/GPU/Vulkan/internal/vk_Device.cpp:304-318 | succeeds exactly when every required extension is among the available ones |
| Texture.Log2Floor | source/Slipper_Engine/src/GPU/Vulkan/internal/vk_Texture.cpp:38-40 | `floor(log2(n))`: the power of two at or below `n` whose double is above it |
| Texture.MipLevelCount | source/Slipper_Engine/src/GPU/Vulkan/internal/vk_Texture.cpp:35-45 | with mip-maps the count `r` has 2^(r-1) <= largest extent < 2^r, i.e. floor(log2(max(w, h, d))) + 1; without, 1 |
| Texture.TextureUsage | source/Slipper_Engine/src/GPU/Vulkan/internal/vk_Texture.cpp:35-37 | generating mip-maps adds the transfer source and destination usages and keeps the requested ones; otherwise the usage is kept |
| Texture.TextureUsageAddsNothingElse | source/Slipper_Engine/src/GPU/Vulkan/internal/vk_Texture.cpp:35-37 | the usage holds no bit beyond the requested ones and the two transfer usages |
| Texture.ImageSharingMode | source/Slipper_Engine/src/GPU/Vulkan/internal/vk_Texture.cpp:54-68 | the image is shared concurrently exactly when the graphics and transfer families differ |
| Texture.TransitionAspect | source/Slipper_Engine/src/GPU/Vulkan/internal/vk_Texture.cpp:231-239 | the aspect as written: depth, with stencil for a stencil format, only for a transition to the depth-stencil attachment layout; colour otherwise |
| Texture.TransitionBarrier | source/Slipper_Engine/src/GPU/Vulkan/internal/vk_Texture.cpp:215-288 | fails (invalid_argument) exactly when the old layout is not one of the four supported source layouts or the new one not one of the four destination layouts; otherwise the barrier goes from the old to the new layout over every mip level and layer, with that aspect and those scopes |
| Texture.DepthAspectUnreachable | source/Slipper_Engine/src/GPU/Vulkan/internal/vk_Texture.cpp:231-282 | as written no accepted transition has a depth aspect, and the transition to the depth attachment layout gets the colour aspect |
| Texture.TransitionAspectFixed | source/Slipper_Engine/src/GPU/Vulkan/internal/vk_Texture.cpp:231-236 | the intended aspect: depth, and stencil exactly for a stencil format, for either depth target layout; colour otherwise |
| Texture.TransitionBarrierFixed | source/Slipper_Engine/src/GPU/Vulkan/internal/vk_Texture.cpp:215-288 | the corrected barrier accepts the same layouts and differs only in its aspect |
| Texture.FixedDepthTransition | source/Slipper_Engine/src/GPU/Vulkan/internal/vk_Texture.cpp:231-236 | with the correction, a transition to the depth attachment layout covers depth, and stencil exactly when `HasStencilComponent` holds |
| Texture.ViewTypeFor | source/Slipper_Engine/src/GPU/Vulkan/internal/vk_Texture.cpp:424-449 | fewer than two layers keep the image's dimension; two or more give an array view, with 3D becoming a cube array |
| Texture.ViewTypeInjective | source/Slipper_Engine/src/GPU/Vulkan/internal/vk_Texture.cpp:424-449 | for layer counts on the same side of two, different image types give different view types |
| Texture.BlitTarget | source/Slipper_Engine/src/GPU/Vulkan/internal/vk_Texture.cpp:138 | the blit destination extent is half the source extent and never below 1 |
| Texture.MipDimShift | source/Slipper_Engine/src/GPU/Vulkan/internal/vk_Texture.cpp:169-172 | k + 1 halvings are one halving followed by k more |
| Texture.HalvingReachesOne | source/Slipper_Engine/src/GPU/Vulkan/internal/vk_Texture.cpp:169-172 | halving n floor(log2 n) times reaches one texel |
| Texture.LastLevelIsOneTexel | source/Slipper_Engine/src/GPU/Vulkan/internal/vk_Texture.cpp:38-41 | the largest extent, halved once per level, is a single texel at the last mip level |
| Texture.BlitHalves | source/Slipper_Engine/src/GPU/Vulkan/internal/vk_Texture.cpp:132-149 | every blit writes level k + 1 from level k with an extent of at least one texel, halving whatever is above one |
| Texture.ImageInfo.constructor | source/Slipper_Engine/src/GPU/Vulkan/internal/vk_Texture.cpp:10-45 | a texture starts undefined, with the mip-level count and usage that follow from the mip-map choice |
| Texture.ImageInfo.EnqueueTransitionImageLayout | source/Slipper_Engine/src/GPU/Vulkan/internal/vk_Texture.cpp:215-288 | records `TransitionBarrier` from the current layout and makes the new layout current; on failure the layout is kept |
| Texture.ImageInfo.CreateTransitionImageLayout | source/Slipper_Engine/src/GPU/Vulkan/internal/vk_Texture.cpp:290-316 | only undefined to transfer destination, transfer destination to shader read, and undefined to depth attachment are enqueued; every other pair fails and keeps the layout |
| Texture.ImageInfo.EnqueueGenerateMipMaps | source/Slipper_Engine/src/GPU/Vulkan/internal/vk_Texture.cpp:95-189 | fails without linear-blit support; otherwise one blit per level after the first, the k-th being `MipBlit(width, height, k)`, and the image ends ready for shaders |
| Texture.FirstSupportedIsFirst | source/Slipper_Engine/src/GPU/Vulkan/internal/vk_Texture.cpp:481-493 | the search finds a supporting candidate with none before it, and nothing only when no candidate supports the features with that tiling |
| Texture.FindSupportedFormat | source/Slipper_Engine/src/GPU/Vulkan/internal/vk_Texture.cpp:477-494 | the loop returns the first candidate whose features for the tiling cover the request, `None` for the runtime_error |
| Texture.FindDepthFormat | source/Slipper_Engine/src/GPU/Vulkan/internal/vk_Texture.cpp:496-502 | the first usable of the three candidates, in source order: D32Sfloat when usable, else D32SfloatS8Uint when usable, else D24UnormS8Uint when usable (each case an if and only if), never any other format; the result equals `FirstSupported` of the three, is always usable as an optimally tiled depth attachment, and there is none exactly when no candidate is |
| ShaderReflection.ProductAppend | source/Slipper_Engine/src/GPU/Vulkan/internal/vk_ShaderReflection.cpp:106-109 | the product of the array dimensions splits over concatenation |
| ShaderReflection.ProductSmall | source/Slipper_Engine/src/GPU/Vulkan/internal/vk_ShaderReflection.cpp:106-109 | a binding with no dimensions has one descriptor, a one-dimensional array its length |
| ShaderReflection.MakeLayoutBinding | source/Slipper_Engine/src/GPU/Vulkan/internal/vk_ShaderReflection.cpp:99-121 | the loop multiplying the dimensions in uint32 gives the binding `ToBinding` describes |
| ShaderReflection.ToBinding | source/Slipper_Engine/src/GPU/Vulkan/internal/vk_ShaderReflection.cpp:99-121 | the descriptor count is the product of the dimensions modulo 2^32, the stage flags are the module's stage alone, and name, binding and set are the reflected ones |
| ShaderReflection.ModuleSets | source/Slipper_Engine/src/GPU/Vulkan/internal/vk_ShaderReflection.cpp:90-124 | one intermediate set per reflected set, in reflection order, each binding made by `ToBinding` |
| ShaderReflection.GetDescriptorSetsLayoutData | source/Slipper_Engine/src/GPU/Vulkan/internal/vk_ShaderReflection.cpp:71-129 | the loops give `ModuleSets` of the module |
| ShaderReflection.Absorb | source/Slipper_Engine/src/GPU/Vulkan/internal/vk_ShaderReflection.cpp:40-47 | only the stage flags can change, and only for a same-name entry of equal type, size, binding and count; with OR such an entry keeps its stages and gains the incoming ones, with AND it keeps exactly the stages both share, and never gains one |
| ShaderReflection.MergeBinding | source/Slipper_Engine/src/GPU/Vulkan/internal/vk_ShaderReflection.cpp:37-59 | when some entry matches, the length is kept and every entry is the `Absorb` of its old self, so only matching entries' stages change; otherwise the bindings are kept and the incoming one is appended |
| ShaderReflection.SortedKeys | source/Slipper_Engine/src/GPU/Vulkan/internal/vk_ShaderReflection.cpp:64 | the iteration order of a `std::map`: strictly ascending, holding exactly the keys |
| ShaderReflection.Layouts | source/Slipper_Engine/src/GPU/Vulkan/internal/vk_ShaderReflection.cpp:63-68 | one layout per set number of the map, in ascending set order, with that set's bindings |
| ShaderReflection.GetMergedDescriptorSetsLayoutData | source/Slipper_Engine/src/GPU/Vulkan/internal/vk_ShaderReflection.cpp:15-70 | as written: the layouts of merging every module's sets in order with the stages ANDed, and the names of conflicting redefinitions reported on the way |
| ShaderReflection.ConcatenateModuleSets | source/Slipper_Engine/src/GPU/Vulkan/internal/vk_ShaderReflection.cpp:18-22 | the intermediate sets of every module, appended in module order |
| ShaderReflection.MergeIntoSets | source/Slipper_Engine/src/GPU/Vulkan/internal/vk_ShaderReflection.cpp:24-61 | the per-set-number map and the reported names are those of the merge specification `MergeSets` |
| ShaderReflection.OrderedLayouts | source/Slipper_Engine/src/GPU/Vulkan/internal/vk_ShaderReflection.cpp:63-68 | the loop over the map gives `Layouts` of it |
| ShaderReflection.MergeSetBindings | source/Slipper_Engine/src/GPU/Vulkan/internal/vk_ShaderReflection.cpp:37-60 | merging a set's bindings one after another gives `MergeAll` and the conflicts reported in order |
| ShaderReflection.ScanBinding | source/Slipper_Engine/src/GPU/Vulkan/internal/vk_ShaderReflection.cpp:38-59 | the scan over existing entries gives `MergeBinding` and reports the name once per same-name entry with another definition |
| ShaderReflection.MergeBindingKeeps | source/Slipper_Engine/src/GPU/Vulkan/internal/vk_ShaderReflection.cpp:37-59 | merging one binding changes existing entries only in their stages, keeps everything already described, and describes the binding |
| ShaderReflection.MergeAllKeeps | source/Slipper_Engine/src/GPU/Vulkan/internal/vk_ShaderReflection.cpp:57-59 | entries stay in place in order of first appearance, and every incoming binding ends up described |
| ShaderReflection.MergeAllDistinct | source/Slipper_Engine/src/GPU/Vulkan/internal/vk_ShaderReflection.cpp:40-47 | a binding of equal definition is not duplicated: merging never creates two entries for one binding |
| ShaderReflection.OrMergeBindingKeepsCover | source/Slipper_Engine/src/GPU/Vulkan/internal/vk_ShaderReflection.cpp:35-36 | with the stages ORed, as the comment asks, merging keeps every binding's stages covered |
| ShaderReflection.OrMergeBindingCovers | source/Slipper_Engine/src/GPU/Vulkan/internal/vk_ShaderReflection.cpp:35-36 | with the stages ORed, the merged binding is described with all its stages |
| ShaderReflection.OrMergeAllCovers | source/Slipper_Engine/src/GPU/Vulkan/internal/vk_ShaderReflection.cpp:35-59 | with the stages ORed, every incoming binding of a set is covered with all its stages, and earlier coverage is kept |
| ShaderReflection.OrMergeSetCovers | source/Slipper_Engine/src/GPU/Vulkan/internal/vk_ShaderReflection.cpp:26-60 | with the stages ORed, merging one more set keeps all coverage and covers that set |
| ShaderReflection.OrMergeSetsCovers | source/Slipper_Engine/src/GPU/Vulkan/internal/vk_ShaderReflection.cpp:26-61 | the corrected merge: every binding of every module is described, with all the stages that declare it, in its set's layout |
| ShaderReflection.AndMergeDropsStages | source/Slipper_Engine/src/GPU/Vulkan/internal/vk_ShaderReflection.cpp:46 | as written, one uniform seen by a vertex and a fragment module merges into an entry with no stage at all |
| ShaderReflection.MergeSetsKeys | source/Slipper_Engine/src/GPU/Vulkan/internal/vk_ShaderReflection.cpp:27-33 | the merged set numbers are exactly those of the inputs |
| ShaderReflection.MergedLayoutsPerSet | source/Slipper_Engine/src/GPU/Vulkan/internal/vk_ShaderReflection.cpp:24-33 | the output has exactly one layout per set number that occurs in any module, in strictly ascending order |
| ReflectionUtil.ShaderStageName | source/Slipper_Engine/src/GPU/Vulkan/internal/vk_ShaderReflectionUtil.cpp:8-42 | the short stage name; "???" exactly for a value that is none of the fourteen stages |
| ReflectionUtil.ShaderStageNamesDistinct | source/Slipper_Engine/src/GPU/Vulkan/internal/vk_ShaderReflectionUtil.cpp:8-42 | no two stages share a name |
| ReflectionUtil.ToShaderType | source/Slipper_Engine/src/GPU/Vulkan/internal/vk_ShaderReflectionUtil.cpp:145-178 | vertex, fragment and compute map to their engine types and every other stage to UNDEFINED (both directions) |
| ReflectionUtil.ToShaderStageFlag | source/Slipper_Engine/src/GPU/Vulkan/internal/vk_ShaderReflectionUtil.cpp:180-194 | each engine type maps to its Vulkan stage bit and UNDEFINED to MAX_ENUM (both directions) |
| ReflectionUtil.StageFlagRoundTrip | source/Slipper_Engine/src/GPU/Vulkan/internal/vk_ShaderReflectionUtil.cpp:145-194 | reflected stage to engine type to Vulkan bit gives back the same bit for the three supported stages and MAX_ENUM for every other |
| ReflectionUtil.ToVkDescriptorType | source/Slipper_Engine/src/GPU/Vulkan/internal/vk_ShaderReflectionUtil.cpp:44-73 | each reflected descriptor type keeps its code; any other value becomes MAX_ENUM |
| ReflectionUtil.ToVkDescriptorTypeIdempotent | source/Slipper_Engine/src/GPU/Vulkan/internal/vk_ShaderReflectionUtil.cpp:44-73 | converting twice is converting once |
| ReflectionUtil.ToShaderMemberType | source/Slipper_Engine/src/GPU/Vulkan/internal/vk_ShaderReflectionUtil.cpp:75-143 | an int type maps to INT or UINT by its signedness; a float type to FLOAT exactly at width 32 and DOUBLE exactly at width 64 |
| ReflectionUtil.VectorMemberTypeRecovers | source/Slipper_Engine/src/GPU/Vulkan/internal/vk_ShaderReflectionUtil.cpp:95-118 | a vector member type comes exactly from a vector of 32- or 64-bit components with 2, 3 or 4 of them, and gives back its length and width |
| ReflectionUtil.MatrixMemberTypeRecovers | source/Slipper_Engine/src/GPU/Vulkan/internal/vk_ShaderReflectionUtil.cpp:119-128 | a matrix member type comes exactly from a matrix with 2, 3 or 4 columns, and gives back the column count |
| ReflectionUtil.MemberTypeUndefinedIff | source/Slipper_Engine/src/GPU/Vulkan/internal/vk_ShaderReflectionUtil.cpp:87-142 | UNDEFINED exactly for an unknown opcode, a float or vector of another width, a vector of another length or a matrix of another column count; a float of odd width falls through into the vector case |
| ReflectionUtil.PrintAndClearTypeFlag | source/Slipper_Engine/src/GPU/Vulkan/internal/vk_ShaderReflectionUtil.cpp:606-610 | one test-print-and-clear step takes the printer's text and flags from one step of the specification to the next |
| ReflectionUtil.TypeFlagsToString | source/Slipper_Engine/src/GPU/Vulkan/internal/vk_ShaderReflectionUtil.cpp:600-631 | the printer gives `TypeFlagsString` of the flags (the lemmas below state its properties) |
| ReflectionUtil.PrintedInOrder | source/Slipper_Engine/src/GPU/Vulkan/internal/vk_ShaderReflectionUtil.cpp:612-624 | names are printed in the fixed test order, each at most once, and a name is printed exactly when all its bits are still set at its step |
| ReflectionUtil.WordsEndInSpace | source/Slipper_Engine/src/GPU/Vulkan/internal/vk_ShaderReflectionUtil.cpp:608 | every printed name is followed by a space |
| ReflectionUtil.TypeFlagsUndefinedIff | source/Slipper_Engine/src/GPU/Vulkan/internal/vk_ShaderReflectionUtil.cpp:602-604 | "UNDEFINED" is printed exactly for zero flags |
| ReflectionUtil.Remaining | source/Slipper_Engine/src/GPU/Vulkan/internal/vk_ShaderReflectionUtil.cpp:612-626 | the bits left after the tests: every named bit is cleared, and the rest of the external range only when the whole range was set |
| ReflectionUtil.UnknownMarkIff | source/Slipper_Engine/src/GPU/Vulkan/internal/vk_ShaderReflectionUtil.cpp:626-629 | "???" ends the text exactly when bits no printed name accounts for remain |
| ReflectionUtil.ComponentTypeString | source/Slipper_Engine/src/GPU/Vulkan/internal/vk_ShaderReflectionUtil.cpp:806-852 | the empty text when the low four type bits are zero; the unsupported-component assertion is reached exactly when those bits are not bool, int or float |
| ReflectionUtil.VectorComponentCountReadable | source/Slipper_Engine/src/GPU/Vulkan/internal/vk_ShaderReflectionUtil.cpp:847-849 | a vector's text is the scalar name followed by its component count, which reads back as that number |
| ReflectionUtil.MatrixDimensionsReadable | source/Slipper_Engine/src/GPU/Vulkan/internal/vk_ShaderReflectionUtil.cpp:816-846 | a matrix's text is the majorness prefix and scalar name, then rows, "x" and columns, and both dimensions read back |
| GraphicsEngine.CreateNewNameKeepsInverse | source/Slipper_Engine/src/GPU/internal/GraphicsEngine.cpp:127-135 | creating a pass under a name not yet in use keeps renderPassNames exactly the inverse of renderPasses and binds the name to the new pass |
| GraphicsEngine.DestroyKeepsInverse | source/Slipper_Engine/src/GPU/internal/GraphicsEngine.cpp:137-145 | destroying a pass removes its entries from both maps, keeps them inverse and keeps every other pass; a pass not registered changes nothing |
| GraphicsEngine.RecreateLeavesStaleName | source/Slipper_Engine/src/GPU/internal/GraphicsEngine.cpp:132-133 | creating a pass again under a name already in use rebinds the name but keeps the replaced pass's reverse entry, so the maps stop being inverse |
| GraphicsEngine.DestroyStaleRemovesLivePass | source/Slipper_Engine/src/GPU/internal/GraphicsEngine.cpp:137-145 | after such a re-creation, destroying the replaced pass unregisters the name of the live pass, whose reverse entry is left dangling |
| GraphicsEngine.CreateFixedKeepsInverse | source/Slipper_Engine/src/GPU/internal/GraphicsEngine.cpp:127-135 | with the replaced pass's reverse entry erased first, creating a pass under any name keeps the maps inverse and binds the name to the new pass |
| GraphicsEngine.NextFrame | source/Slipper_Engine/src/GPU/internal/GraphicsEngine.cpp:318 | the frame counter stays below the number of frames in flight and steps by one while it can |
| GraphicsEngine.FrameAfterIsModulo | source/Slipper_Engine/src/GPU/internal/GraphicsEngine.cpp:318 | after n frames from frame 0 the counter is n modulo the number of frames in flight |
| GraphicsEngine.Engine.constructor | source/Slipper_Engine/src/GPU/GraphicsEngine.h:91-108 | a new engine has no passes or stages, renders no stage and is at frame 0 |
| GraphicsEngine.Engine.CreateRenderPass | source/Slipper_Engine/src/GPU/internal/GraphicsEngine.cpp:127-135 | a fresh pass is registered under the name in both maps; under a new name the maps stay inverse |
| GraphicsEngine.Engine.DestroyRenderPass | source/Slipper_Engine/src/GPU/internal/GraphicsEngine.cpp:137-145 | the pass's entries are erased from both maps and inverse maps stay inverse |
| GraphicsEngine.Engine.AddRenderingStage | source/Slipper_Engine/src/GPU/internal/GraphicsEngine.cpp:166-178 | a name already in use is reported and nothing is added; otherwise a fresh stage is registered under it and returned |
| GraphicsEngine.Engine.BeginRenderingStage | source/Slipper_Engine/src/GPU/internal/GraphicsEngine.cpp:199-215 | while a stage is rendered the request is reported and ignored; a known stage becomes current and is begun; an unknown name is reported |
| GraphicsEngine.Engine.EndRenderingStage | source/Slipper_Engine/src/GPU/internal/GraphicsEngine.cpp:217-224 | the current stage, if any, is ended, and afterwards no stage is current |
| GraphicsEngine.Engine.EndFrame | source/Slipper_Engine/src/GPU/internal/GraphicsEngine.cpp:318 | the frame counter moves to the next frame modulo the number of frames in flight |
| CommandPool.IndexOf | source/Slipper_Engine/src/GPU/Vulkan/internal/vk_CommandPool.cpp:49-51 | the position of the first occurrence of a buffer, or the length exactly when the buffer is absent |
| CommandPool.RemoveFirstMultiset | source/Slipper_Engine/src/GPU/Vulkan/internal/vk_CommandPool.cpp:121-124 | erasing the first occurrence of a buffer removes exactly one copy of it from the list |
| CommandPool.RemoveFirstSubset | source/Slipper_Engine/src/GPU/Vulkan/internal/vk_CommandPool.cpp:121-124 | erasing a buffer adds none |
| CommandPool.RemoveEachMultiset | source/Slipper_Engine/src/GPU/Vulkan/internal/vk_CommandPool.cpp:48-53 | erasing each buffer of a list in turn removes exactly those buffers, counted with multiplicity, from the pool's list |
| CommandPool.Handles | source/Slipper_Engine/src/GPU/Vulkan/internal/vk_CommandPool.cpp:30 | the buffers the driver allocates are n consecutive fresh handles |
| CommandPool.IndexOfUnique | source/Slipper_Engine/src/GPU/Vulkan/internal/vk_CommandPool.cpp:49 | the first position holding a buffer, with none before it, is the one find returns |
| CommandPool.Pool.constructor | source/Slipper_Engine/src/GPU/Vulkan/internal/vk_CommandPool.cpp:7-15 | a pool made with a positive count holds that many per-frame buffers, and none otherwise; it has no single-use buffers |
| CommandPool.Pool.CreateCommandBuffers | source/Slipper_Engine/src/GPU/Vulkan/internal/vk_CommandPool.cpp:22-42 | a positive count appends that many fresh buffers and reports the old length as their start; any other count changes nothing and reports nothing |
| CommandPool.Pool.FindCommandBuffer | source/Slipper_Engine/src/GPU/Vulkan/internal/vk_CommandPool.cpp:49-51 | returns the position of the first occurrence, the length when absent |
| CommandPool.Pool.DestroyCommandBuffers | source/Slipper_Engine/src/GPU/Vulkan/internal/vk_CommandPool.cpp:44-54 | each given buffer's first occurrence is erased in turn, so exactly the given buffers leave the list |
| CommandPool.Pool.BeginCommandBuffer | source/Slipper_Engine/src/GPU/Vulkan/internal/vk_CommandPool.cpp:56-83 | a buffer of the pool, or a single-use one when asked, is reset if asked and begun; any other buffer is reported and nothing is recorded |
| CommandPool.Pool.EndCommandBuffer | source/Slipper_Engine/src/GPU/Vulkan/internal/vk_CommandPool.cpp:85-88 | the buffer is ended |
| CommandPool.Pool.ClearSingleUseCommands | source/Slipper_Engine/src/GPU/Vulkan/internal/vk_CommandPool.cpp:90-96 | no single-use buffer is left |
| CommandPool.Pool.GetCurrentCommandBuffer | source/Slipper_Engine/src/GPU/Vulkan/internal/vk_CommandPool.cpp:98-101 | the buffer at the current frame's position |
| CommandPool.Pool.BeginCurrentCommandBuffer | source/Slipper_Engine/src/GPU/Vulkan/vk_CommandPool.h:42-47 | the current frame's buffer is reset, begun and returned |
| CommandPool.Pool.EndCurrentCommandBuffer | source/Slipper_Engine/src/GPU/Vulkan/vk_CommandPool.h:49-54 | the current frame's buffer is ended and returned |
| CommandPool.Pool.CreateSingleUseCommandBuffer | source/Slipper_Engine/src/GPU/Vulkan/internal/vk_CommandPool.cpp:103-115 | one fresh single-use buffer, in neither list before, is appended and returned |
| CommandPool.Pool.DestroySingleUseCommandBuffer | source/Slipper_Engine/src/GPU/Vulkan/internal/vk_CommandPool.cpp:117-125 | the buffer's first occurrence is erased from the single-use list, removing exactly one copy |
| RenderingStage.Runs | source/Slipper_Engine/src/GPU/Vulkan/internal/vk_RenderingStage.cpp:69-87 | running a queue on a buffer runs each of its commands, in order, on that buffer and nothing else |
| RenderingStage.SingleComputeRunsOnDrawBuffer | source/Slipper_Engine/src/GPU/Vulkan/internal/vk_RenderingStage.cpp:73-76 | as written, each single-use compute command of a pass is run on the draw buffer, at its place after the repeated compute commands |
| RenderingStage.FixedRunsComputeOnComputeBuffer | source/Slipper_Engine/src/GPU/Vulkan/internal/vk_RenderingStage.cpp:68-88 | in the corrected pass work every compute command, single-use or repeated, runs on the compute buffer and every graphics command on the draw buffer |
| RenderingStage.QueuedGraphicsCommandRuns | source/Slipper_Engine/src/GPU/Vulkan/internal/vk_RenderingStage.cpp:80-87 | every graphics command queued for a pass the stage renders is run on the draw buffer during EndRender |
| RenderingStage.AfterPassStep | source/Slipper_Engine/src/GPU/Vulkan/internal/vk_RenderingStage.cpp:77-88 | visiting a pass not yet visited does that pass's original work and empties exactly its single-use queues |
| RenderingStage.ImageIndex | source/Slipper_Engine/src/GPU/Vulkan/internal/vk_RenderingStage.cpp:205-211 | the image index is the swap chain's own for a native swap chain, else the engine's current frame |
| RenderingStage.Stage.constructor | source/Slipper_Engine/src/GPU/Vulkan/internal/vk_RenderingStage.cpp:6-12 | a new stage has no passes, no queued commands and no recorded work; only an offscreen swap chain can have presentation textures |
| RenderingStage.Stage.BeginRender | source/Slipper_Engine/src/GPU/Vulkan/internal/vk_RenderingStage.cpp:34-59 | every acquire failure other than a suboptimal image stops with nothing begun, and an out-of-date image is reported as unreachable first; otherwise the draw buffer is begun, every pass in order is begun on it, then the compute buffer |
| RenderingStage.Stage.EndPassCommands | source/Slipper_Engine/src/GPU/Vulkan/internal/vk_RenderingStage.cpp:66-101 | one pass's four queues are run in the source's order, the pass is ended, the image is copied when there are presentation textures, and exactly its single-use queues are emptied |
| RenderingStage.Stage.RunPass | source/Slipper_Engine/src/GPU/Vulkan/internal/vk_RenderingStage.cpp:68-100 | the pass's work is its repeated and single compute commands, its repeated and single graphics commands, the end of the pass and the optional copy, in that order |
| RenderingStage.Stage.RunCommands | source/Slipper_Engine/src/GPU/Vulkan/internal/vk_RenderingStage.cpp:69-72 | each command runs on the buffer, in order |
| RenderingStage.Stage.EndRender | source/Slipper_Engine/src/GPU/Vulkan/internal/vk_RenderingStage.cpp:61-104 | every pass's work in the pass set's iteration order, then the compute and the draw buffer are ended; afterwards every single-use queue of a rendered pass is empty and every other queue is as before |
| RenderingStage.Stage.SubmitSingleComputeCommand | source/Slipper_Engine/src/GPU/Vulkan/internal/vk_RenderingStage.cpp:106-110 | the command is appended to the pass's single-use compute queue, which is created when missing |
| RenderingStage.Stage.SubmitRepeatedComputeCommand | source/Slipper_Engine/src/GPU/Vulkan/internal/vk_RenderingStage.cpp:112-116 | the command is appended to the pass's repeated compute queue, which is created when missing |
| RenderingStage.Stage.SubmitSingleDrawCommand | source/Slipper_Engine/src/GPU/Vulkan/internal/vk_RenderingStage.cpp:118-151 | the command is appended to the pass's single-use graphics queue, which is created when missing |
| RenderingStage.Stage.SubmitRepeatedDrawCommand | source/Slipper_Engine/src/GPU/Vulkan/internal/vk_RenderingStage.cpp:153-157 | the command is appended to the pass's repeated graphics queue, which is created when missing |
| RenderingStage.Stage.RegisterForRenderPass | source/Slipper_Engine/src/GPU/Vulkan/internal/vk_RenderingStage.cpp:159-166 | the pass joins the set; only a pass not yet registered has its framebuffers created |
| RenderingStage.Stage.UnregisterFromRenderPass | source/Slipper_Engine/src/GPU/Vulkan/internal/vk_RenderingStage.cpp:168-173 | the pass leaves the set and its framebuffers are destroyed whether or not it was registered |
| ShaderManager.StageKind | source/Slipper_Engine/src/Services/ShaderManager.cpp:54-60 | only the endings "vert" and "frag" name a stage, the vertex and the fragment stage; every other ending names none |
| ShaderManager.StagesFromFiles | source/Slipper_Engine/src/Services/ShaderManager.cpp:52-61 | every collected stage comes from one of the files and has the kind its ending names, and there are never more stages than files |
| ShaderManager.StagesCoverFiles | source/Slipper_Engine/src/Services/ShaderManager.cpp:53-58 | every vertex or fragment file gives a stage of its kind |
| ShaderManager.ComputeFilesOnlyComp | source/Slipper_Engine/src/Services/ShaderManager.cpp:59-60 | files none of which ends in "comp" are loaded without a report |
| ShaderManager.Registry.constructor | source/Slipper_Engine/src/Services/ShaderManager.h:24-26 | a new registry holds no shaders |
| ShaderManager.Registry.GetShader | source/Slipper_Engine/src/Services/ShaderManager.cpp:9-16 | the shader registered under the name, and nothing exactly when the name is unknown |
| ShaderManager.Registry.TryGetGraphicsShader | source/Slipper_Engine/src/Services/ShaderManager.cpp:18-24 | a graphics shader exactly when the name is registered to one |
| ShaderManager.Registry.TryGetComputeShader | source/Slipper_Engine/src/Services/ShaderManager.cpp:26-32 | a compute shader exactly when the name is registered to one |
| ShaderManager.Registry.CollectStages | source/Slipper_Engine/src/Services/ShaderManager.cpp:52-61 | the vertex and fragment stages of the files in file order, each compute file reported in order |
| ShaderManager.Registry.LoadGraphicsShader | source/Slipper_Engine/src/Services/ShaderManager.cpp:34-77 | a name already registered gives its graphics shader, or nothing when it names a compute shader, and changes nothing; any other name registers a new graphics shader of the files' stages under it and returns it |
| ShaderManager.Registry.LoadComputeShader | source/Slipper_Engine/src/Services/ShaderManager.cpp:79-104 | a name already registered gives its compute shader, or nothing when it names a graphics shader, and changes nothing; otherwise a file not ending in "comp" is reported and a new compute shader is registered under the name all the same |
| ShaderManager.Registry.Shutdown | source/Slipper_Engine/src/Services/ShaderManager.cpp:106-111 | no shader and no name is left |
| MaterialManager.StepEntry | source/Slipper_Engine/src/Services/MaterialManager.cpp:53-61 | an update is dropped exactly when it has been bound for every frame in flight; otherwise it is kept with its count one higher and its uniform unchanged |
| MaterialManager.StepBindings | source/Slipper_Engine/src/Services/MaterialManager.cpp:51-63 | a material's step keeps exactly the bindings whose update is still due, each counted one frame more |
| MaterialManager.StepAll | source/Slipper_Engine/src/Services/MaterialManager.cpp:49-64 | every material keeps its entry and has its bindings stepped |
| MaterialManager.FreshUpdateEarlyLife | source/Slipper_Engine/src/Services/MaterialManager.cpp:36-64 | a new update is bound once in each of its first frames in flight and is still pending after them |
| MaterialManager.FreshUpdateBoundMaxTimes | source/Slipper_Engine/src/Services/MaterialManager.cpp:36-64 | a new update is bound exactly once per frame in flight and is gone after that, however many frames follow |
| MaterialManager.Registry.constructor | source/Slipper_Engine/src/Services/MaterialManager.h:35-39 | a new registry holds no materials and no pending updates |
| MaterialManager.Registry.AddMaterial | source/Slipper_Engine/src/Services/MaterialManager.cpp:8-20 | a name in use gives nothing and changes nothing; a new name gets a fresh material bound to the shader |
| MaterialManager.Registry.GetMaterial | source/Slipper_Engine/src/Services/MaterialManager.cpp:22-25 | the material of the name, and an out-of-range error exactly when the name is unknown |
| MaterialManager.Registry.TryGetMaterial | source/Slipper_Engine/src/Services/MaterialManager.cpp:27-34 | the material of the name, and nothing exactly when the name is unknown |
| MaterialManager.Registry.AddUniformUpdate | source/Slipper_Engine/src/Services/MaterialManager.cpp:36-45 | the binding's pending update takes the new uniform and keeps its frame count, and a binding without one starts at zero frames; the material's entry is created when missing |
| MaterialManager.Registry.OnUpdate | source/Slipper_Engine/src/Services/MaterialManager.cpp:47-65 | every pending update is stepped, and each due update is bound exactly once with its uniform, whatever order the maps are visited in |
| MaterialManager.Registry.StepMaterial | source/Slipper_Engine/src/Services/MaterialManager.cpp:51-63 | one material's updates are stepped and each of its due updates is bound exactly once |
| TextureManager.Registry.constructor | source/Slipper_Engine/src/Services/TextureManager.h:21-22 | a new registry holds no textures |
| TextureManager.Registry.Get2D | source/Slipper_Engine/src/Services/TextureManager.cpp:51-62 | the texture of the name exactly when the name is registered to a 2D texture; nothing for an absent name or another type |
| TextureManager.Registry.Load2D | source/Slipper_Engine/src/Services/TextureManager.cpp:11-49 | a registered file name gives its texture when that is 2D and nothing otherwise, changing nothing; otherwise a path the engine-relative rule refuses or a file that does not decode is an error, and a decoded file is added as a new 2D texture under its file name |
| TextureManager.Registry.Shutdown | source/Slipper_Engine/src/Services/TextureManager.cpp:64-68 | no texture and no name is left |
| TextureManager.Registry.GetTextureName | source/Slipper_Engine/src/Services/TextureManager.cpp:75-84 | the name the texture is registered under, and an invalid-texture error exactly when no name maps to it |
| ModelManager.Registry.constructor | source/Slipper_Engine/src/Core/ModelManager.cpp:8-9 | a new registry holds no models |
| ModelManager.Registry.Load | source/Slipper_Engine/src/Core/ModelManager.cpp:11-24 | a model name already loaded gives its model and changes nothing; any other name registers a new model of the file under it; either way the name then maps to the returned model |
| ModelManager.Registry.GetModel | source/Slipper_Engine/src/Core/ModelManager.cpp:26-34 | the model of the name, and nothing exactly when the name is unknown |
| ModelManager.Registry.Shutdown | source/Slipper_Engine/src/Core/ModelManager.cpp:36-40 | no model and no name is left |
| ShaderLayout.SetEntries | source/Slipper_Engine/src/Rendering/GraphicsPipeline/Shader/ShaderLayout.cpp:17-20 | one entry per binding of a set layout, in binding order, each under the binding's name and naming its place |
| ShaderLayout.EntriesAreBindings | source/Slipper_Engine/src/Rendering/GraphicsPipeline/Shader/ShaderLayout.cpp:16-21 | every entry the loops visit names a binding of the layouts under that binding's name, and there is one entry per binding |
| ShaderLayout.EntriesCoverBindings | source/Slipper_Engine/src/Rendering/GraphicsPipeline/Shader/ShaderLayout.cpp:16-21 | every binding of every set layout is visited |
| ShaderLayout.IndexKeys | source/Slipper_Engine/src/Rendering/GraphicsPipeline/Shader/ShaderLayout.cpp:19 | the index's keys are exactly the lower-cased binding names, and each holds the place of a binding of that name |
| ShaderLayout.IndexKeepsLast | source/Slipper_Engine/src/Rendering/GraphicsPipeline/Shader/ShaderLayout.cpp:19 | of bindings whose names agree up to case, the one visited last is the one the index keeps |
| ShaderLayout.IndexKeysLowerCase | source/Slipper_Engine/src/Rendering/GraphicsPipeline/Shader/ShaderLayout.cpp:19 | no key of the index holds an ASCII upper-case letter |
| ShaderLayout.IndexSize | source/Slipper_Engine/src/Rendering/GraphicsPipeline/Shader/ShaderLayout.cpp:16-21 | the index has no more keys than there are bindings |
| ShaderLayout.BindingsReachable | source/Slipper_Engine/src/Rendering/GraphicsPipeline/Shader/ShaderLayout.cpp:16-21 | every binding of the merged layouts can be looked up under its lower-cased name |
| ShaderLayout.NamesFindBindings | source/Slipper_Engine/src/Rendering/GraphicsPipeline/Shader/ShaderLayout.cpp:19 | whatever the index holds under a name is a binding of the layouts with that name up to case |
| ShaderLayout.Layout.constructor | source/Slipper_Engine/src/Rendering/GraphicsPipeline/Shader/ShaderLayout.cpp:7-12 | the set layouts are the merged layouts of the modules, as written; the index is built from them, and every name in it finds a binding whose lower-cased name it is |
| ShaderLayout.Layout.PopulateNamesLayoutBindings | source/Slipper_Engine/src/Rendering/GraphicsPipeline/Shader/ShaderLayout.cpp:14-22 | every binding of every set layout is stored, in layout and binding order, under its lower-cased name over what the index held |
| ShaderLayout.StoreBindings | source/Slipper_Engine/src/Rendering/GraphicsPipeline/Shader/ShaderLayout.cpp:17-20 | the bindings of one set layout are stored in order under their lower-cased names |
| Shader.AllBindingsCount | source/Slipper_Engine/src/GPU/Vulkan/internal/vk_Shader.cpp:53-61 | the pool-size loop visits one binding per binding of the set layouts |
| Shader.SizesOf | source/Slipper_Engine/src/GPU/Vulkan/internal/vk_Shader.cpp:58-59 | one pool size per binding, in order, of the binding's type and of its count times the frames in flight modulo 2^32 |
| Shader.CollectPoolSizes | source/Slipper_Engine/src/GPU/Vulkan/internal/vk_Shader.cpp:52-61 | one pool size per binding of the layouts, in layout and binding order, each of the binding's type and of its count times the frames in flight, modulo 2^32 as a uint32_t product |
| Shader.LayoutHandlesPerSet | source/Slipper_Engine/src/GPU/Vulkan/internal/vk_Shader.cpp:126-132 | with ascending set numbers, the set numbers that get a layout handle are exactly those of the layouts, the i-th layout's being the i-th handle created |
| Shader.DuplicateLayouts | source/Slipper_Engine/src/GPU/Vulkan/internal/vk_Shader.cpp:136-144 | the allocation asks for each layout once per frame in flight, in set-number order: position p holds the layout of set number p divided by the frames in flight |
| Shader.WritesForFrames | source/Slipper_Engine/src/GPU/Vulkan/internal/vk_Shader.cpp:201-206 | one copy of the write per frame in flight, the f-th into that frame's descriptor set |
| Shader.CreateShaderStage | source/Slipper_Engine/src/GPU/Vulkan/internal/vk_Shader.cpp:89-111 | the stage bit of the shader type, zero exactly for an undefined type; the given module; the entry point "main" |
| Shader.FrameRunsDisjoint | source/Slipper_Engine/src/GPU/Vulkan/internal/vk_Shader.cpp:157-168 | two set numbers never share a descriptor set |
| Shader.BufferWrites | source/Slipper_Engine/src/GPU/Vulkan/internal/vk_Shader.cpp:118-121 | one write batch per frame in flight, the f-th binding the f-th new buffer to the binding in frame f's descriptor set |
| Shader.AppendRuns | source/Slipper_Engine/src/GPU/Vulkan/internal/vk_Shader.cpp:157-168 | the i-th set number in ascending order gains the i-th run of handed-out sets after those it had; other set numbers keep theirs |
| Shader.UniformOfStep | source/Slipper_Engine/src/GPU/Vulkan/internal/vk_Shader.cpp:115-116 | visiting one more name adds its binding exactly when that is a uniform buffer |
| Shader.DistinctNamesDistinctBindings | source/Slipper_Engine/src/GPU/Vulkan/internal/vk_Shader.cpp:115-117 | a binding reached under one name is not reached under another, so no binding gets buffers twice |
| Shader.CreatedStep | source/Slipper_Engine/src/GPU/Vulkan/internal/vk_Shader.cpp:117-121 | creating one binding's buffers keeps the buffers already created for the others |
| Shader.FrameRunSlice | source/Slipper_Engine/src/GPU/Vulkan/internal/vk_Shader.cpp:160-165 | the i-th run is exactly the slice from i times the frames in flight of the sets handed out |
| Shader.AllocatedRunsStep | source/Slipper_Engine/src/GPU/Vulkan/internal/vk_Shader.cpp:158-167 | appending one set number's run keeps the runs of the set numbers before it |
| Shader.SortedKeysCount | source/Slipper_Engine/src/GPU/Vulkan/internal/vk_Shader.cpp:158 | the set numbers are visited once each |
| Shader.Shader.constructor | source/Slipper_Engine/src/GPU/Vulkan/vk_Shader.h:174-180 | a shader over the merged layout of its modules whose name index finds bindings of the right name, with no pool, layouts, sets or buffers yet |
| Shader.Shader.GetNamedBinding | source/Slipper_Engine/src/GPU/Vulkan/vk_Shader.h:145-153 | the binding stored under the lower-cased name, nothing exactly when there is none, and a binding whose name matches up to case |
| Shader.Shader.CreateDescriptorPool | source/Slipper_Engine/src/GPU/Vulkan/internal/vk_Shader.cpp:50-71 | the pool holds each set layout once per frame in flight (modulo 2^32) and one size per binding for every frame in flight |
| Shader.Shader.CreateDescriptorSetLayouts | source/Slipper_Engine/src/GPU/Vulkan/internal/vk_Shader.cpp:126-132 | one new layout handle per set layout, stored under its set number |
| Shader.Shader.AllocateDescriptorSets | source/Slipper_Engine/src/GPU/Vulkan/internal/vk_Shader.cpp:134-169 | one new descriptor set per set layout and frame in flight; the i-th set number in ascending order has its run appended; other set numbers keep their sets |
| Shader.Shader.GetDescriptorSets | source/Slipper_Engine/src/GPU/Vulkan/internal/vk_Shader.cpp:39-48 | one descriptor set per set number, in ascending set-number order, each the one of the requested frame or else of the current frame |
| Shader.Shader.UpdateDescriptorSets | source/Slipper_Engine/src/GPU/Vulkan/internal/vk_Shader.cpp:191-209 | a set number without sets is an error; with a frame index, one write into that frame's set; without, one batch of a write into the set of every frame in flight |
| Shader.Shader.BindShaderUniformToBinding | source/Slipper_Engine/src/GPU/Vulkan/vk_Shader.h:114-125 | a binding of another descriptor type is reported, then the write goes to the binding's set as UpdateDescriptorSets states |
| Shader.Shader.BindShaderUniform | source/Slipper_Engine/src/GPU/Vulkan/vk_Shader.h:100-112 | an unknown name gives nothing and changes nothing; otherwise the binding found under the name is bound and returned |
| Shader.Shader.CreateUniformBuffers | source/Slipper_Engine/src/GPU/Vulkan/internal/vk_Shader.cpp:113-124 | every uniform-buffer binding gains one new buffer per frame in flight, each bound to its frame's descriptor set, and no other binding's buffers change; a binding whose set number has no sets is an error, and none other is |
| Shader.Shader.CreateBindingBuffers | source/Slipper_Engine/src/GPU/Vulkan/internal/vk_Shader.cpp:116-122 | the binding under the name, when a uniform buffer, gains one new buffer per frame in flight bound to its frame's set; any other binding changes nothing |
| Shader.Shader.GetUniformBuffer | source/Slipper_Engine/src/GPU/Vulkan/internal/vk_Shader.cpp:22-37 | the named binding's buffer for the requested or current frame; an unknown name and a binding without buffers are the two errors |
| SwapChain.FramebuffersForBuilt | source/Slipper_Engine/src/GPU/Vulkan/internal/vk_SwapChain.cpp:99-120 | the framebuffers made for a pass are one per image view, in view order, of the pass and the current size, attaching the render target, the depth buffer and the view with multisampling and the view and the depth buffer without, with consecutive fresh handles |
| SwapChain.PassHandlesStep | source/Slipper_Engine/src/GPU/Vulkan/internal/vk_SwapChain.cpp:27-29 | destroying one more pass's framebuffers adds exactly that pass's handles to those destroyed |
| SwapChain.SwapChain.constructor | source/Slipper_Engine/src/GPU/Vulkan/internal/vk_SwapChain.cpp:10-16 | a swap chain of the given size and rendering format in the sRGB non-linear colour space, with no images, views, attachments or framebuffers yet |
| SwapChain.SwapChain.NewHandle | source/Slipper_Engine/src/GPU/Vulkan/internal/vk_SwapChain.cpp:86-87 | a fresh handle, the counter one higher |
| SwapChain.SwapChain.CreateImageViews | source/Slipper_Engine/src/GPU/Vulkan/internal/vk_SwapChain.cpp:82-89 | one new image view per image, in image order |
| SwapChain.SwapChain.DestroyFramebuffers | source/Slipper_Engine/src/GPU/Vulkan/internal/vk_SwapChain.cpp:123-131 | a pass with an entry has all its framebuffers destroyed and keeps an empty entry; a pass without one changes nothing |
| SwapChain.SwapChain.CreateFramebuffers | source/Slipper_Engine/src/GPU/Vulkan/internal/vk_SwapChain.cpp:91-121 | the pass's old framebuffers are destroyed, and it gets one new framebuffer per image view built as FramebuffersForBuilt states |
| SwapChain.SwapChain.CleanupFramebuffersAndViews | source/Slipper_Engine/src/GPU/Vulkan/internal/vk_SwapChain.cpp:25-41 | every pass's framebuffers and every image view are destroyed, whatever order the passes are visited in; the passes keep empty entries only when asked to |
| SwapChain.SwapChain.CreateFromImages | source/Slipper_Engine/src/GPU/Vulkan/internal/vk_SwapChain.cpp:58-80 | one image view per image; a render target and a depth buffer of the current size with fresh views, the old views of both, when there were any, recorded as destroyed; for every pass with an entry, framebuffers built over the new views; nothing forgotten of what was destroyed |
| SurfaceSwapChain.Sharing | source/Slipper_Engine/src/Rendering/Presentation/SurfaceSwapChain.cpp:103-115 | the images are shared concurrently between the graphics and the present family, listed in that order, exactly when the two differ, and exclusively with no family list otherwise |
| SurfaceSwapChain.FirstTarget | source/Slipper_Engine/src/Rendering/Presentation/SurfaceSwapChain.cpp:49-55 | the first format that is the target format with the target colour space, or none exactly when no format is |
| SurfaceSwapChain.ChoseExtent | source/Slipper_Engine/src/Rendering/Presentation/SurfaceSwapChain.cpp:151-172 | the surface's current extent unless its width is the largest uint32_t; then the framebuffer size cast to uint32_t, kept when within the supported extents and clamped into them otherwise |
| SurfaceSwapChain.SurfaceSwapChain.constructor | source/Slipper_Engine/src/Rendering/Presentation/SurfaceSwapChain.cpp:9-21 | the extent is chosen, the target format is taken when the surface offers it and the first format otherwise, and the swap chain is created with its images, views and per-frame semaphores |
| SurfaceSwapChain.SurfaceSwapChain.ChoosePresentMode | source/Slipper_Engine/src/Rendering/Presentation/SurfaceSwapChain.cpp:36-45 | mailbox exactly when the surface offers it, FIFO otherwise |
| SurfaceSwapChain.SurfaceSwapChain.ChooseSurfaceFormat | source/Slipper_Engine/src/Rendering/Presentation/SurfaceSwapChain.cpp:47-59 | the first format that is the target format and colour space, else the first format the surface offers |
| SurfaceSwapChain.SurfaceSwapChain.ImplCreate | source/Slipper_Engine/src/Rendering/Presentation/SurfaceSwapChain.cpp:88-149 | the create info asks for the surface's minimum image count, the chain's format, colour space and size, the sharing of the families, the current transform and the chosen present mode, and names the replaced swap chain; the driver's images are taken; the semaphores are made on the first creation only |
| SurfaceSwapChain.SurfaceSwapChain.NewHandles | source/Slipper_Engine/src/Rendering/Presentation/SurfaceSwapChain.cpp:137-147 | n consecutive fresh handles |
| SurfaceSwapChain.SurfaceSwapChain.ImplCleanup | source/Slipper_Engine/src/Rendering/Presentation/SurfaceSwapChain.cpp:61-65 | the driver's swap chain is destroyed and forgotten |
| SurfaceSwapChain.SurfaceSwapChain.Create | source/Slipper_Engine/src/Rendering/Presentation/SurfaceSwapChain.cpp:88-149 | the driver's swap chain, its image views, attachments and every pass's framebuffers are made at the unchanged size and format |
| SurfaceSwapChain.SurfaceSwapChain.Recreate | source/Slipper_Engine/src/GPU/Vulkan/internal/vk_SwapChain.cpp:43-51 | at the new size, every old framebuffer, image view and the old swap chain are destroyed, every kept pass gets framebuffers over the new views, and the pass entries are kept |
| Application.Reached | source/Slipper_Engine/src/Core/Application.cpp:144-148 | an event reaches every component up to and including the first that marks it handled, and every component when none does |
| Application.ViewportCalls | source/Slipper_Engine/src/Core/Application.cpp:194-202 | the engine is told first, then every callback in the order added, each with the new size |
| Application.ReachedFirstHandled | source/Slipper_Engine/src/Core/Application.cpp:146-147 | the first component that marks the event handled is the last it reaches |
| Application.ReachedPastUnhandled | source/Slipper_Engine/src/Core/Application.cpp:144-148 | a component that does not mark the event handled, with none before it doing so, is followed by the next |
| Application.Application.constructor | source/Slipper_Engine/src/Core/Application.cpp:18-24 | an application of its name, running and not minimized, with nothing waiting; creating a second one is reported |
| Application.Application.Close | source/Slipper_Engine/src/Core/Application.cpp:74-77 | the application stops running |
| Application.Application.CloseWindow | source/Slipper_Engine/src/Core/Application.cpp:79-84 | the application's window is forgotten when it is the one closed; another window changes nothing |
| Application.Application.OnEvent | source/Slipper_Engine/src/Core/Application.cpp:132-151 | a window close forgets the window if it is the application's and then stops the application if it has no window; every event is then handed to the components in order up to the first that handles it |
| Application.Application.OnWindowResize | source/Slipper_Engine/src/Core/Application.cpp:153-165 | a zero width or height minimizes and leaves the waiting resize alone; any other size un-minimizes and leaves a resize of that window and size, cast to uint32_t, waiting |
| Application.Application.OnViewportResize | source/Slipper_Engine/src/Core/Application.cpp:167-172 | a viewport resize of that size waits, its context unchanged |
| Application.Application.AddViewportResizeCallback | source/Slipper_Engine/src/Core/Application.cpp:174-177 | the callback is appended |
| Application.Application.AddAdditionalRenderStageUpdate | source/Slipper_Engine/src/Core/Application.cpp:179-184 | the update is appended to the stage's list, which is created when missing |
| Application.Application.WindowResize | source/Slipper_Engine/src/Core/Application.cpp:186-192 | the waiting window resize goes to the engine and no longer waits |
| Application.Application.ViewportResize | source/Slipper_Engine/src/Core/Application.cpp:194-202 | the waiting viewport resize goes to the engine and then to every callback in order, and no longer waits |
| Application.Application.Frame | source/Slipper_Engine/src/Core/Application.cpp:93-102 | the waiting window and viewport resizes are handed on in that order, nothing waits afterwards, and a frame is counted exactly when not minimized |
| SceneObject.DefaultName | source/Slipper_Engine/src/Ecs/Components/SceneObjectComponent.h:9-11 | the default name is "SceneObject_" followed by the counter's value in decimal |
| SceneObject.DefaultNamesDistinct | source/Slipper_Engine/src/Ecs/Components/SceneObjectComponent.h:9-11 | different counter values give different default names |
| SceneObject.DefaultNameHasNoNul | source/Slipper_Engine/src/Ecs/Components/SceneObjectComponent.h:9-11 | a default name holds no terminator |
| SceneObject.BeforeNul | source/Slipper_Engine/src/Ecs/Components/SceneObjectComponent.h:24-27 | a C string is the prefix before the first terminator, or everything when there is none |
| SceneObject.Fitting | source/Slipper_Engine/src/Ecs/Components/SceneObjectComponent.h:20 | at most one less than the capacity, and the whole name when it is shorter |
| SceneObject.Stored | source/Slipper_Engine/src/Ecs/Components/SceneObjectComponent.h:18-22 | the buffer keeps its size: the characters that fit, a terminator, then what the buffer held |
| SceneObject.StoredReadsBack | source/Slipper_Engine/src/Ecs/Components/SceneObjectComponent.h:18-27 | a stored name reads back as the characters that fit, up to any terminator the name holds |
| SceneObject.BeforeNulPrefix | source/Slipper_Engine/src/Ecs/Components/SceneObjectComponent.h:24-27 | what follows a terminator does not change a C string |
| SceneObject.StoredNameRoundTrip | source/Slipper_Engine/src/Ecs/Components/SceneObjectComponent.h:18-27 | a name without a terminator reads back whole when shorter than the buffer and cut to one less than the capacity otherwise |
| SceneObject.AsWrittenFailsForLongNames | source/Slipper_Engine/src/Ecs/Components/SceneObjectComponent.h:20-21 | as written, storing is in bounds exactly when the name is shorter than the buffer, and then agrees with the corrected store |
| SceneObject.AsWrittenDefaultNameOverflows | source/Slipper_Engine/src/Ecs/Components/SceneObjectComponent.h:9-21 | as written, the first default name overflows a buffer of eight characters |
| SceneObject.ObjectCounter.constructor | source/Slipper_Engine/src/Ecs/Components/SceneObjectComponent.h:30 | the shared counter starts at zero |
| SceneObject.SceneObjectComponent.constructor | source/Slipper_Engine/src/Ecs/Components/SceneObjectComponent.h:7-16 | the default request takes the counter's default name and advances the counter; any other name is stored as given and leaves the counter alone |
| SceneObject.SceneObjectComponent.SetName | source/Slipper_Engine/src/Ecs/Components/SceneObjectComponent.h:18-22 | the characters that fit are copied and the terminator is put right after them, the corrected store of the Findings; the name reads back as those characters |
| SceneObject.SceneObjectComponent.GetName | source/Slipper_Engine/src/Ecs/Components/SceneObjectComponent.h:24-27 | the stored name fits the buffer and holds no terminator |

## Left out

- Vulkan, GLFW and ImGui calls, file reading, and the SPIR-V loader: their results are parameters of the model, and calls into them are recorded as call values.
- Floating point (mouse positions, clear colours, time): positions are integers; nothing the model proves depends on float arithmetic.
- The engine keys its maps by a hash of the name; the model keys them by the name itself, so two names never collide.
- `ASSERT` whose definition is not part of this model: the call sites disagree about which truth value fires it (`ASSERT(!m_graphicsInstance, "Graphics Engine allready created!")` at GraphicsEngine.cpp:27 and `ASSERT(!devices.empty(), ...)` at vk_Device.cpp:113 fire when the condition is false, `ASSERT(!file.is_open(), "Failed to open file!")` at File.cpp:13 fires when it is true), so each conditional `ASSERT` is read by its message: Application.Application.constructor reports `AlreadyCreated` when an instance already exists (Application.cpp:20, `ASSERT(instance, ...)`, is thus read as firing when its condition is true), and Shader.Shader.BindShaderUniformToBinding reports `TypeMismatch` when the descriptor types differ (vk_Shader.h:118 read as firing when its condition is false). If the macro fires on a false condition, as most call sites assume, Application.cpp:20 would report on the first construction and not on the second; the model does not capture that reading. Every `ASSERT` reached in an error position is recorded as a diagnostic, and the model then goes on as the code after it does.
- `MAX_FRAMES_IN_FLIGHT` is defined in a header that is not part of this model; `Settings.MaxFramesInFlight` is 2, and no proof depends on that value.
- Flag words: the Device and Texture modules keep Vulkan's flag words as `bv32` (queue operation flags, format features, image usages and aspects), while ShaderReflection and ReflectionUtil model the SPIR-V reflection flags and shader stages as sets of flag bits (`set<ShaderStage>`, `Bits = set<nat>` of bit positions), because the merge and printing proofs there reason about union, intersection and removal, which the verifier handles on sets far more cheaply than on bit-vectors; single stage and descriptor-type values (ReflectionUtil's `ToShaderStageFlag`, Shader's stage info) are plain numbers.
- Iteration over an unordered map visits its keys in an order the model leaves open (any key that is still to be visited may come next); order-dependent results are stated for every such order.
- RenderingStage: semaphores, fences and queue submits (the presentation hand-off), `ChangeResolution`, the presentation-texture accessors, and the body of the draw-submission lambda; a queued command is an opaque value and only which buffer it runs on is modelled.
- TextureManager.GetTextures: a plain accessor of the texture map, read directly from the class's field.
- `File::remove_file_type_from_name` and `File::get_shader_type_from_spirv_path` (File.h is not part of this model): callers pass the shader name and the file endings.
- SceneObject.ObjectCounter: the C++ counter is a signed 32-bit int; the model's counter does not wrap.
- Shader: on a failed step the C++ object keeps whatever it built before the failure; the model returns the error and makes no claim about the partial state.
- Shader: `AdditionalBindingChecks` only logs; it is not modelled.
- Driver allocation failures checked with `VK_ASSERT` are not modelled: allocations succeed.
- Destructors are modelled only where they are named operations (`Shutdown`, `ImplCleanup`, `DestroyFramebuffers`, `CleanupFramebuffersAndViews`).
- `CreateShaderModule` is a driver call; a shader stage holds the module handle given to it.
- Shader.Shader.GetUniformBuffer: the C++ function falls off its end when the name is unknown (undefined behaviour); the model returns an error there.
- `AcquireNextImageKhr` and `GetCurrentSwapChainImageIndex`: the image index is a parameter.
- Application's run loop: the window title, frame timing, ImGui's `NewFrame` and the loop over rendering stages are left out; `Application.Application.Frame` models the resize hand-off and the frame count.
- Application's `Init`: creating the window is a driver call; the window handle is given to the constructor.
- Application.Application.constructor: the C++ application starts with no app components and gains them through `Init` and `AddComponent` (Application.h:37, whose body is not part of this model); the model's constructor takes the resulting component list as a parameter instead of modelling `AddComponent`.
- SurfaceSwapChain: the preferred surface format and colour space are parameters, since their values come from headers that are not part of this model.
- `MAX_SCENE_OBJECT_NAME_LENGTH` is defined in a header that is not part of this model: the buffer's capacity is a constructor parameter.
- Texture resizing (`renderTarget->Resize` and `depthBuffer->Resize` in vk_SwapChain.cpp:63-75) is modelled as the old view being recorded as destroyed and a fresh view handle taking its place; the image memory and the image handle behind each view are not modelled.
- Path.GetEnginePath: the executable's file name is a parameter, and the function-level cache is not modelled.
- Device.RateDeviceSuitability: the C++ score is a signed int to which the unsigned 32-bit image limit is added, and it is returned as a uint32_t; the model takes the sum modulo 2^32, and states the plain sum only when it stays below 2^32.
- `Path::replace_substring` duplicates `StringUtil::replace_substring` exactly and is modelled once, by StringUtil.ReplaceSubstring.
- Input.InputState.OnKey and Input.InputState.OnMouseButton require the key or button to lie in the state arrays; GLFW's unknown key (-1), which the C++ uses as an index without a check (undefined behaviour), is not modelled.
- SurfaceSwapChain.ChoseExtent: requires min <= max, which is the precondition of `std::clamp` that the C++ relies on.
- GraphicsEngine.Engine.EndFrame models only the frame counter; fences and submits are driver calls.
- `GraphicsShader::LoadShader` is not modelled: loading stages from files is modelled once, by ShaderManager.
- ShaderManager's log messages are not modelled.

## Findings

The operation members model each behaviour below as the code is written.
The corrected definition stands next to it, and the evidently intended property is proved about that definition.

| source | as written | input that shows it | evidently intended | confidence | as-written member | corrected member |
|---|---|---|---|---|---|---|
| source/Slipper_Engine/src/GPU/Vulkan/internal/vk_ShaderReflection.cpp:46 | when two stages declare the same binding, the merged binding's stage flags are intersected (`&=`) | a uniform buffer at set 0, binding 0 in both the vertex and the fragment stage merges to an empty set of stages | the merged binding is visible to every stage that declares it (bitwise or instead of bitwise and) | not executed | ShaderReflection.AndMergeDropsStages | ShaderReflection.OrMergeSetsCovers |
| source/Slipper_Engine/src/GPU/internal/GraphicsEngine.cpp:132-133 | creating a render pass under a name already in use replaces the pass but leaves the old pass's entry in the pass-to-name map | create "main" twice; the first pass still maps to "main" | the pass-to-name map stays the inverse of the name-to-pass map | not executed | GraphicsEngine.RecreateLeavesStaleName | GraphicsEngine.CreateFixedKeepsInverse |
| source/Slipper_Engine/src/GPU/Vulkan/internal/vk_Texture.cpp:231 | the depth aspect is chosen only for the depth-stencil layout, a transition the function then refuses | a transition to the depth-attachment layout gets the colour aspect | a transition to a depth layout uses the depth aspect (and the stencil aspect when the format has one) | not executed | Texture.DepthAspectUnreachable | Texture.FixedDepthTransition |
| source/Slipper_Engine/src/Ecs/Components/SceneObjectComponent.h:21 | the terminator is written at the name's full length, after the characters were cut to fit the buffer | the default name "SceneObject_0" stored in a buffer of 8 characters writes at index 13 | the terminator goes right after the copied characters | not executed | SceneObject.AsWrittenDefaultNameOverflows | SceneObject.StoredNameRoundTrip |
| source/Slipper_Engine/src/GPU/Vulkan/internal/vk_RenderingStage.cpp:75 | single-use compute commands are run on the draw command buffer | one single-use compute command queued for a pass runs on the draw buffer | single-use compute commands run on the compute buffer, like the repeated ones just before them | not executed | RenderingStage.SingleComputeRunsOnDrawBuffer | RenderingStage.FixedRunsComputeOnComputeBuffer |
| source/Slipper_Engine/src/Filesystem/Path.cpp:62 | a relative path is accepted when "./" occurs anywhere in it, tested before backslashes are converted | ".\\tex.png" is refused; "ab/./c" is accepted with only "a" dropped | accepted exactly when the path starts with "./" or ".\\", as the error message says | not executed | Path.InnerDotSlashAccepted | Path.FixedAgreesOnDotSlash |
