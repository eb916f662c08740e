# Blade engine core, modelled in Dafny

This project models the core of the Blade 2D game engine and its project
generator script. It covers these parts:

- **Project generator.** `BladeProjectGenerator.py` creates the directories and template
  files of an empty game project. It is modelled as functions over a file tree, which is a
  map from paths to directories and files. A `FileSystem` class performs the same steps one
  call at a time.
- **Input.** `Input` keeps key and mouse-button states. The window's callbacks and input
  tick change those states in place.
- **Buffers.** The engine's byte `Buffer` is modelled, and so is the Vulkan buffer wrapper
  with its usage and allocation flags.
- **Graphics values.** Meshes and their 16-bit index buffers, sprite sheets, colours and
  the audio source.
- **Current Vulkan back end** (`Graphics/Platform/Vulkan`):
  - memory-type search, image-layout barriers and buffer descriptions;
  - vertex input descriptions;
  - texture format and sampler translation;
  - queue-family scans;
  - swapchain decisions;
  - device selection;
  - the renderer's draw lists and frame ring.
- **Older Vulkan back end** (`Platform/Vulkan`): its queue-family finders, device
  set-up, image helpers and swapchain.

Driver answers are inputs to the model. These include the memory types, format
properties, queue families, surface capabilities and extension lists. GPU objects
are numbered handles. Calls into Vulkan or VMA are recorded as a log of calls
wherever their order matters.

## Model

| member | source | states |
|---|---|---|
| ProjectGenerator.DirNameOfJoin | BladeProjectGenerator.py:3-12 | The parent of os.path.join(dir, name) is dir whenever name holds no '/' |
| ProjectGenerator.MkdirEffect | BladeProjectGenerator.py:10-12 | os.mkdir succeeds exactly when the path is absent and its parent is an existing directory; on success it adds a directory, otherwise the tree is unchanged |
| ProjectGenerator.CreateExclusiveEffect | BladeProjectGenerator.py:20-22 | open(path, "x") succeeds exactly when the path is absent and its parent is a directory; on success it adds an empty file, otherwise the tree is unchanged |
| ProjectGenerator.AppendEffect | BladeProjectGenerator.py:62-64 | Appending succeeds on an existing file, or on an absent path with a directory parent; the file then holds its old contents followed by the text |
| ProjectGenerator.MkdirPreservesWellFormed | BladeProjectGenerator.py:10-12 | mkdir keeps every entry inside an existing directory |
| ProjectGenerator.CreateExclusivePreservesWellFormed | BladeProjectGenerator.py:14-22 | Exclusive creation keeps every entry inside an existing directory |
| ProjectGenerator.AppendPreservesWellFormed | BladeProjectGenerator.py:62-64 | Appending keeps every entry inside an existing directory |
| ProjectGenerator.AbsentParent | BladeProjectGenerator.py:3-12 | In a well-formed tree nothing lies below an absent directory |
| ProjectGenerator.OccursBetween | BladeProjectGenerator.py:66-85 | A piece placed between two texts occurs in the whole |
| ProjectGenerator.HppTextShape | BladeProjectGenerator.py:66-85 | The header declares the project's class deriving from Game, with its brace right after, and the Load, Unload and Setup overrides |
| ProjectGenerator.CMakeTextShape | BladeProjectGenerator.py:25-60 | CMakeLists.txt starts with the project's add_executable line, and the rest of the file is the same for every project name |
| ProjectGenerator.CppTextShape | BladeProjectGenerator.py:87-109 | The .cpp file starts with an unquoted include of the header and ends by creating the game object |
| ProjectGenerator.QuitChangesNothing | BladeProjectGenerator.py:147-148 | Selection "0" leaves the tree unchanged and prints only the quit message |
| ProjectGenerator.ExistingProjectFailsAtRoot | BladeProjectGenerator.py:140 | Any other selection on an existing project path fails at the first mkdir and changes nothing |
| ProjectGenerator.OtherSelectionCreatesOnlyRoot | BladeProjectGenerator.py:140-146 | A selection other than "0" or "1" creates the project directory and nothing else |
| ProjectGenerator.BaseDirectoriesCreateThree | BladeProjectGenerator.py:3-12 | GenerateBaseDirectories adds exactly src, src/components and src/systems; the assets directory is never created |
| ProjectGenerator.BaseFilesExclusive | BladeProjectGenerator.py:14-22 | GenerateBaseFiles succeeds exactly when none of its three files exists, and then adds exactly those three empty files |
| ProjectGenerator.FilePathFacts | BladeProjectGenerator.py:14-22 | The generated files sit in the project directory and in src, and all generated paths are pairwise distinct |
| ProjectGenerator.LoadTemplatesIntoEmptyFiles | BladeProjectGenerator.py:24-109 | Appending the templates to the three empty files leaves each one holding exactly its template |
| ProjectGenerator.AppendToEmpty | BladeProjectGenerator.py:62-64 | Appending to an empty file makes the text its whole contents |
| ProjectGenerator.FilesAfterDirectories | BladeProjectGenerator.py:14-109 | Creating the files and then loading them leaves the three templates in place |
| ProjectGenerator.FreshProjectGeneration | BladeProjectGenerator.py:135-146 | On a fresh project name, selection "1" succeeds and adds exactly the seven project entries, each file holding its full template |
| ProjectGenerator.FileSystem.constructor | BladeProjectGenerator.py:135-148 | The file system starts as the given tree |
| ProjectGenerator.FileSystem.Mkdir | BladeProjectGenerator.py:10-12 | The new tree and the error are those of MkdirEffect |
| ProjectGenerator.FileSystem.CreateExclusive | BladeProjectGenerator.py:20-22 | The new tree and the error are those of CreateExclusiveEffect |
| ProjectGenerator.FileSystem.AppendWrite | BladeProjectGenerator.py:62-64 | The new tree and the error are those of AppendEffect |
| ProjectGenerator.GenerateBaseDirectories | BladeProjectGenerator.py:3-12 | The three mkdir calls in order, stopping at the first error |
| ProjectGenerator.GenerateBaseFiles | BladeProjectGenerator.py:14-22 | The three exclusive creations in order, stopping at the first error |
| ProjectGenerator.LoadEmptyBaseFiles | BladeProjectGenerator.py:24-109 | The three appends in the order CMake, header, source, stopping at the first error |
| ProjectGenerator.RunGenerator | BladeProjectGenerator.py:135-148 | The whole script's effect on the tree, its error and its message, for a selection and a name |
| Input.GetKey | BladeEngine/src/Core/Input.cpp:23-28 | True exactly when the key has a state that is Down or Held |
| Input.GetMouseButton | BladeEngine/src/Core/Input.cpp:30-35 | True exactly when the button has a state that is Down or Held |
| Input.GetKeyDown | BladeEngine/src/Core/Input.cpp:37-42 | True exactly when the key's state is Down |
| Input.GetMouseButtonDown | BladeEngine/src/Core/Input.cpp:44-49 | True exactly when the button's state is Down |
| Input.GetKeyUp | BladeEngine/src/Core/Input.cpp:51-56 | True exactly when the key's state is Up |
| Input.GetMouseButtonUp | BladeEngine/src/Core/Input.cpp:58-63 | True exactly when the button's state is Up |
| Input.KeyQueriesConsistent | BladeEngine/src/Core/Input.cpp:23-56 | Down implies pressed, Up implies not pressed, never both, and an unknown key answers false to every query |
| Input.MouseQueriesConsistent | BladeEngine/src/Core/Input.cpp:30-63 | The mouse queries obey the same laws and agree with the key queries on the same state map |
| Window.Advance | BladeEngine/src/Core/Window.cpp:124-138 | The tick turns Down into Held and Up into Released: never Down or Up afterwards, with the pressed reading unchanged |
| Window.AdvanceAllIsAdvancedStates | BladeEngine/src/Core/Window.cpp:124-138 | The update loop over the pending keys equals advancing exactly the pending keys and leaving the rest unchanged |
| Window.TickOnKey | BladeEngine/src/Core/Window.cpp:124-138 | After the tick a key is known exactly when it was before; pending keys advance and the others keep their state |
| Window.TickKeepsPressedState | BladeEngine/src/Core/Window.cpp:122-155 | The tick never changes GetKey; a pending key stops reading as Down or Up |
| Window.PollKeyState | BladeEngine/src/Core/Window.cpp:79-94 | After polling, the last press makes a key Down and the last release makes it Up, and both mark it pending; a key with no such event keeps its state |
| Window.DownSurvivesUntilNextTick | BladeEngine/src/Core/Window.cpp:52-56 | A key pressed during a tick reads as Down until the next tick, which leaves it pressed but no longer Down |
| Window.InputSystem.constructor | BladeEngine/src/Core/Input.cpp:5-11 | Empty state maps and empty pending lists, and the cursor at (0, 0) as the zero-initialised statics give |
| Window.InputSystem.SetKeyState | BladeEngine/src/Core/Window.cpp:157-161 | Sets the key's state, appends the key to the pending list, and changes nothing else |
| Window.InputSystem.SetMouseButtonState | BladeEngine/src/Core/Window.cpp:163-167 | Sets the button's state, appends the button to the pending list, and changes nothing else |
| Window.InputSystem.SetCursorPos | BladeEngine/src/Core/Window.cpp:169-173 | Only the cursor position changes |
| Window.InputSystem.UpdateKeyStates | BladeEngine/src/Core/Window.cpp:122-155 | The new state is TickData of the old: pending keys and buttons advance and both pending lists empty |
| Window.InputSystem.HandleEvent | BladeEngine/src/Core/Window.cpp:79-114 | A key, mouse or cursor callback maps the old state to OnEvent |
| Window.InputSystem.PollEvents | BladeEngine/src/Core/Window.cpp:47-50 | Delivering the polled events in order gives PollData of the old state |
| Window.InputSystem.InputTick | BladeEngine/src/Core/Window.cpp:52-56 | The input tick is UpdateKeyStates followed by PollEvents |
| CoreBuffer.Buffer.constructor | BladeEngine/src/Core/Buffer.hpp:13 | No storage and size 0 |
| CoreBuffer.Buffer.Sized | BladeEngine/src/Core/Buffer.hpp:15-18 | Fresh storage of exactly the given size |
| CoreBuffer.Buffer.Allocate | BladeEngine/src/Core/Buffer.hpp:20-26 | The old storage is released and fresh storage of the new size replaces it |
| CoreBuffer.Buffer.Release | BladeEngine/src/Core/Buffer.hpp:28-33 | No storage and size 0 |
| CoreBuffer.Buffer.CopyBuffer | BladeEngine/src/Core/Buffer.hpp:41-46 | A buffer with its own fresh storage, holding the same size and the same bytes |
| CoreBuffer.Buffer.CopyBytes | BladeEngine/src/Core/Buffer.hpp:48-53 | A buffer with fresh storage holding exactly the first size bytes of the source |
| Mesh.EncodeIndices | BladeEngine/src/Graphics/Mesh.cpp:19-22 | Two bytes per 16-bit index |
| Mesh.DecodeIndices | BladeEngine/src/Graphics/Mesh.cpp:57-68 | One index per pair of bytes |
| Mesh.DecodeEncodeIndices | BladeEngine/src/Graphics/Mesh.cpp:19-22 | Reading the stored bytes back gives the indices that SetIndices was given |
| Mesh.InterleaveVertices | BladeEngine/src/Graphics/Mesh.cpp:41-52 | One record per vertex, holding its position, white and its UV |
| Mesh.CopyIndices | BladeEngine/src/Graphics/Mesh.cpp:57-68 | Index i is the little-endian value of bytes 2i and 2i+1 |
| Mesh.Mesh.constructor | BladeEngine/src/Graphics/Mesh.cpp:19-32 | No indices, vertices or UVs, and no GPU mesh |
| Mesh.Mesh.SetIndices | BladeEngine/src/Graphics/Mesh.cpp:19-22 | The stored bytes encode the first count indices; the other fields are unchanged |
| Mesh.Mesh.SetVertices | BladeEngine/src/Graphics/Mesh.cpp:24-27 | The vertices become the first count positions; the other fields are unchanged |
| Mesh.Mesh.SetUVs | BladeEngine/src/Graphics/Mesh.cpp:29-32 | The UVs become the first count coordinates; the other fields are unchanged |
| Mesh.Mesh.Create | BladeEngine/src/Graphics/Mesh.cpp:34-71 | The GPU mesh is uploaded from the interleaved vertices and the decoded indices |
| Mesh.Mesh.Release | BladeEngine/src/Graphics/Mesh.cpp:73-77 | The GPU mesh is gone and the CPU data is kept |
| Mesh.CreateQuad | BladeEngine/src/Graphics/Mesh.cpp:79-104 | A fresh mesh with the four corners of a width-by-height quad centred on the origin, its UVs, and the indices 0,1,2,2,3,0 |
| Mesh.StoredIndicesInRange | BladeEngine/src/Graphics/Mesh.cpp:19-22 | Storing indices keeps each one below the vertex count |
| Mesh.QuadIndicesInRange | BladeEngine/src/Graphics/Mesh.cpp:79-104 | Every stored quad index names one of its four vertices |
| Mesh.QuadTextureOrientation | BladeEngine/src/Graphics/Mesh.cpp:79-104 | U is 0 exactly on the left corners and V is 0 exactly on the top corners |
| Mesh.DefaultMeshes.constructor | BladeEngine/src/Graphics/Mesh.cpp:106-111 | No default quad before loading |
| Mesh.DefaultMeshes.LoadDefaultMeshes | BladeEngine/src/Graphics/Mesh.cpp:106-111 | A fresh unit quad, uploaded to the GPU |
| Mesh.DefaultMeshes.UnloadDefaultMeshes | BladeEngine/src/Graphics/Mesh.cpp:113-119 | The quad's GPU mesh is released and the quad is dropped |
| SpriteSheet.CellBeforeRow | BladeEngine/src/Graphics/SpriteSheet.cpp:29-37 | A cell of an earlier row comes before every cell of a later row |
| SpriteSheet.FrameFor | BladeEngine/src/Graphics/SpriteSheet.cpp:57-75 | A valid index gives the sheet's texture and that section's region; any other index gives a default sprite |
| SpriteSheet.RangeWithinSheet | BladeEngine/src/Graphics/SpriteSheet.cpp:45-55 | An ordered range inside the sheet gives last - first + 1 frames, frame k being section first + k |
| SpriteSheet.ReversedRange | BladeEngine/src/Graphics/SpriteSheet.cpp:45-55 | With first > last the uint32 count wraps: first = last + 1 gives no frames, and in general the count is 2^32 − (first − last − 1), so first = 2^32 − 1 and last = 0 give 2 frames |
| SpriteSheet.FillSections | BladeEngine/src/Graphics/SpriteSheet.cpp:27-37 | The sections form the rows-by-columns grid of sprite-sized cells, in row-major order |
| SpriteSheet.SpriteSheet.constructor | BladeEngine/src/Graphics/SpriteSheet.cpp:7-11 | Stores the texture and subdivides it into the grid |
| SpriteSheet.SpriteSheet.Subdivide | BladeEngine/src/Graphics/SpriteSheet.cpp:18-38 | The counts are the texture size divided by the sprite size, and the sections are that grid |
| SpriteSheet.SpriteSheet.GetFramesOf | BladeEngine/src/Graphics/SpriteSheet.cpp:57-75 | One frame per requested index, each being FrameFor that index |
| SpriteSheet.SpriteSheet.GetFramesInRange | BladeEngine/src/Graphics/SpriteSheet.cpp:45-55 | The frame count is the uint32 range count, and frame k is FrameFor index first + k |
| SpriteSheet.SpriteSheet.GetFrames | BladeEngine/src/Graphics/SpriteSheet.cpp:40-43 | One frame per section, in order, each showing that section |
| SpriteSheet.SectionsInsideTexture | BladeEngine/src/Graphics/SpriteSheet.cpp:18-38 | Every section of the grid lies inside the texture |
| Color.ClampComponent | BladeEngine/src/Graphics/Color.cpp:29-44 | The result lies in [0, 255], equals the input when the input is in range, and is the nearest bound otherwise |
| Color.CorrectColorClamps | BladeEngine/src/Graphics/Color.cpp:29-44 | CorrectColor puts every component in byte range, leaves in-range colours alone, and is idempotent |
| Color.DefaultColor | BladeEngine/src/Graphics/Color.cpp:6-10 | Opaque black |
| Color.ColorRGB | BladeEngine/src/Graphics/Color.cpp:12-16 | Components in [0, 1] that scale back to the given bytes, with alpha 1 |
| Color.ColorRGBA | BladeEngine/src/Graphics/Color.cpp:18-21 | Components in [0, 1] that scale back to the given bytes |
| Color.GetValues | BladeEngine/src/Graphics/Color.cpp:23-26 | The stored components |
| Color.ColorRGBAInjective | BladeEngine/src/Graphics/Color.cpp:12-26 | Different bytes give different colours, and RGBA with alpha 255 is RGB |
| AudioSource.Accept | BladeEngine/src/Audio/AudioSource.cpp:24-38 | A candidate in range is taken; any other candidate leaves the current value, which stays in range |
| AudioSource.LoopingOf | BladeEngine/src/Audio/AudioSource.cpp:40-43 | The float argument converted to bool: looping exactly when it is nonzero |
| AudioSource.AudioSource.constructor | BladeEngine/src/Audio/AudioSource.cpp:10-16 | Volume 1, pitch 0, not looping, and those values pushed to the sound |
| AudioSource.AudioSource.Play | BladeEngine/src/Audio/AudioSource.cpp:20 | Starts the sound; the settings are unchanged |
| AudioSource.AudioSource.Stop | BladeEngine/src/Audio/AudioSource.cpp:22 | Stops the sound; the settings are unchanged |
| AudioSource.AudioSource.SetVolume | BladeEngine/src/Audio/AudioSource.cpp:24-30 | A volume in [0, 2] (MinVolume to MaxVolume) is stored and pushed; any other volume changes nothing |
| AudioSource.AudioSource.SetPitch | BladeEngine/src/Audio/AudioSource.cpp:32-38 | A pitch in range is stored and pushed; any other pitch changes nothing |
| AudioSource.AudioSource.SetLooping | BladeEngine/src/Audio/AudioSource.cpp:40-43 | Looping becomes LoopingOf(state) and all values are pushed |
| AudioSource.AudioSource.UpdateValues | BladeEngine/src/Audio/AudioSource.cpp:45-49 | Pushes volume, pitch and looping to the sound |
| AudioSource.AcceptAllKeepsRange | BladeEngine/src/Audio/AudioSource.cpp:24-38 | After any sequence of setter calls the value is in range, and it is the last in-range candidate (or the start value) |
| AudioSource.LastAcceptedOfFirst | BladeEngine/src/Audio/AudioSource.cpp:24-38 | The last accepted value can be computed by accepting the first candidate and then the rest |
| VulkanBuffer.AllocationFlagsOf | BladeEngine/src/Graphics/Platform/Vulkan/VulkanBuffer.cpp:54-78 | Mapped exactly when kept mapped; dedicated memory exactly for DeviceLocal; sequential write for HostWrite and random access for HostRead, only without DeviceLocal and never both |
| VulkanBuffer.UsageFlagsOf | BladeEngine/src/Graphics/Platform/Vulkan/VulkanBuffer.cpp:80-116 | Vertex, index, uniform and storage are exclusive in that order of precedence; transfer source, transfer destination and indirect are independent; no other bit is set |
| VulkanBuffer.AllocationFlagsFor | BladeEngine/src/Graphics/Platform/Vulkan/VulkanBuffer.cpp:54-78 | The if-chain computes AllocationFlagsOf |
| VulkanBuffer.UsageFlagsFor | BladeEngine/src/Graphics/Platform/Vulkan/VulkanBuffer.cpp:80-116 | The if-chain computes UsageFlagsOf |
| VulkanBuffer.VulkanBuffer.constructor | BladeEngine/src/Graphics/Platform/Vulkan/VulkanBuffer.cpp:9-15 | Stores the description and creates handle 0 with the translated flags; initial data is mapped, copied and unmapped |
| VulkanBuffer.VulkanBuffer.CreateBuffer | BladeEngine/src/Graphics/Platform/Vulkan/VulkanBuffer.cpp:50-156 | A create call with the translated flags, the data copy when there is data, and destruction of the previous buffer, appended to the call log |
| VulkanBuffer.VulkanBuffer.Map | BladeEngine/src/Graphics/Platform/Vulkan/VulkanBuffer.cpp:22-32 | A kept-mapped buffer returns its mapping with no call; otherwise it maps the memory |
| VulkanBuffer.VulkanBuffer.Unmap | BladeEngine/src/Graphics/Platform/Vulkan/VulkanBuffer.cpp:34-42 | A kept-mapped buffer does nothing; otherwise it unmaps the memory |
| VulkanBuffer.VulkanBuffer.Resize | BladeEngine/src/Graphics/Platform/Vulkan/VulkanBuffer.cpp:44-48 | A new buffer of the new size is created from the member's own usage, allocation usage and mapping flags, and then the old one is destroyed |
| VulkanUtils.FindMemoryType | BladeEngine/src/Graphics/Platform/Vulkan/BladeVulkanUtils.cpp:93-106 | The smallest memory type allowed by the filter that has every requested property; an error exactly when none fits |
| VulkanUtils.TransitionBarrier | BladeEngine/src/Graphics/Platform/Vulkan/BladeVulkanUtils.cpp:108-156 | A barrier exactly for the two supported layout pairs, carrying those layouts and nonzero stages; any other pair is an error |
| VulkanUtils.UploadTransitionsChain | BladeEngine/src/Graphics/Platform/Vulkan/BladeVulkanUtils.cpp:132-150 | The second upload barrier waits on exactly the transfer write that the first makes wait, and fragment reads wait for it |
| VulkanUtils.StagingDescription | BladeEngine/src/Graphics/Platform/Vulkan/BladeVulkanUtils.cpp:235-241 | A host-writable, kept-mapped transfer source holding the data |
| VulkanUtils.VertexDestinationDescription | BladeEngine/src/Graphics/Platform/Vulkan/BladeVulkanUtils.cpp:243-248 | A device-local vertex buffer that can receive a transfer, with no data and not kept mapped |
| VulkanUtils.IndexDestinationDescription | BladeEngine/src/Graphics/Platform/Vulkan/BladeVulkanUtils.cpp:266-279 | A device-local index buffer that can receive a transfer, with no data and not kept mapped |
| VulkanUtils.UniformDescription | BladeEngine/src/Graphics/Platform/Vulkan/BladeVulkanUtils.cpp:288-300 | A host-writable, kept-mapped uniform buffer of the given size |
| VulkanUtils.AttributeDescriptions | BladeEngine/src/Graphics/Platform/Vulkan/BladeVulkanUtils.cpp:335-393 | Attributes in the shader's binding, each with its location's format, packed one after another from offset 0 up to the vertex size |
| VulkanUtils.GetBindingDescription | BladeEngine/src/Graphics/Platform/Vulkan/BladeVulkanUtils.cpp:303-330 | A per-vertex binding whose stride is where the attributes end |
| VulkanTexture.GetVulkanFormat | BladeEngine/src/Graphics/Platform/Vulkan/BladeVulkanTexture.cpp:10-28 | A listed format maps to a Vulkan format with the same channel count; any other value falls back to R8_SRGB |
| VulkanTexture.GetVulkanFormatCollisions | BladeEngine/src/Graphics/Platform/Vulkan/BladeVulkanTexture.cpp:10-28 | Listed formats map one-to-one, but RGBA32F shares R8's fallback |
| VulkanTexture.GetVulkanFilter | BladeEngine/src/Graphics/Platform/Vulkan/BladeVulkanTexture.cpp:31-44 | NEAREST exactly for Nearest, LINEAR otherwise |
| VulkanTexture.GetVulkanSamplerAddressMode | BladeEngine/src/Graphics/Platform/Vulkan/BladeVulkanTexture.cpp:46-63 | ClampToBorder gives CLAMP_TO_BORDER, ClampToEdges CLAMP_TO_EDGE, Repeat REPEAT and MirroredRepeat MIRRORED_REPEAT; an unlisted value falls back to MIRRORED_REPEAT |
| VulkanTexture.AddressModesOneToOne | BladeEngine/src/Graphics/Platform/Vulkan/BladeVulkanTexture.cpp:46-63 | The listed address modes map one-to-one |
| VulkanTexture.SamplerFor | BladeEngine/src/Graphics/Platform/Vulkan/BladeVulkanTexture.cpp:161-192 | Both filters and all three address modes come from the texture's settings, with anisotropy at the device maximum |
| QueueFamilies.LastOffering | BladeEngine/src/Graphics/Platform/Vulkan/BladeVulkanQueueFamily.cpp:81-101 | The last family before n that offers the capability, or none exactly when no family before n offers it |
| QueueFamilies.FirstOfferingFrom | BladeEngine/src/Graphics/Platform/Vulkan/BladeVulkanQueueFamily.cpp:25-37 | The first family from n on that offers the capability, or none exactly when none does |
| QueueFamilies.PairScanLength | BladeEngine/src/Graphics/Platform/Vulkan/BladeVulkanQueueFamily.cpp:81-101 | The scan stops at the first prefix that has seen both graphics and present, or at the end |
| QueueFamilies.GraphicsFamilyOf | BladeEngine/src/Graphics/Platform/Vulkan/BladeVulkanQueueFamily.cpp:69-103 | Each index found offers its capability; complete exactly when some family offers graphics and some family can present |
| QueueFamilies.GetGraphicsFamily | BladeEngine/src/Graphics/Platform/Vulkan/BladeVulkanQueueFamily.cpp:69-103 | The loop with its early exit computes GraphicsFamilyOf |
| QueueFamilies.FirstFamilyWith | BladeEngine/src/Graphics/Platform/Vulkan/BladeVulkanQueueFamily.cpp:25-37 | The loop computes the first family offering the capability |
| QueueFamilies.GetComputeFamily | BladeEngine/src/Graphics/Platform/Vulkan/BladeVulkanQueueFamily.cpp:41-67 | The first COMPUTE family; incomplete exactly when there is none |
| QueueFamilies.GetTransferFamily | BladeEngine/src/Graphics/Platform/Vulkan/BladeVulkanQueueFamily.cpp:13-39 | The first TRANSFER family; incomplete exactly when there is none |
| SwapchainRules.SurfaceFormatChoice | BladeEngine/src/Graphics/Platform/Vulkan/BladeVulkanSwapchain.cpp:80-90 | One of the offered formats; it is B8G8R8A8_SRGB/SRGB_NONLINEAR exactly when that pair is offered, and otherwise the first offered format |
| SwapchainRules.ChooseSwapSurfaceFormat | BladeEngine/src/Graphics/Platform/Vulkan/BladeVulkanSwapchain.cpp:80-90 | The loop computes SurfaceFormatChoice |
| SwapchainRules.PresentModeChoice | BladeEngine/src/Graphics/Platform/Vulkan/BladeVulkanSwapchain.cpp:92-101 | MAILBOX exactly when it is offered, FIFO otherwise |
| SwapchainRules.ChooseSwapPresentMode | BladeEngine/src/Graphics/Platform/Vulkan/BladeVulkanSwapchain.cpp:92-101 | The loop computes PresentModeChoice |
| SwapchainRules.Clamp | BladeEngine/src/Graphics/Platform/Vulkan/BladeVulkanSwapchain.cpp:113-118 | std::clamp: lo when the value is below lo, hi when it is above hi (and not below lo), the value itself when it is in range, and within the bounds when they are ordered |
| SwapchainRules.ChooseSwapExtent | BladeEngine/src/Graphics/Platform/Vulkan/BladeVulkanSwapchain.cpp:103-122 | The surface's current extent unless its width is the uint32 maximum; otherwise exactly the window width and height each clamped to the supported range, hence within it, and the window size itself when it already fits |
| SwapchainRules.ImageCount | BladeEngine/src/Graphics/Platform/Vulkan/BladeVulkanSwapchain.cpp:148-152 | One more than the minimum, capped by a nonzero maximum, and wrapping to 0 when the minimum is the uint32 maximum |
| SwapchainRules.SharingFor | BladeEngine/src/Graphics/Platform/Vulkan/BladeVulkanSwapchain.cpp:165-177 | Concurrent with both families exactly when they differ; exclusive with no family list otherwise |
| SwapchainRules.FirstSupportedFrom | BladeEngine/src/Graphics/Platform/Vulkan/BladeVulkanSwapchain.cpp:39-57 | The first candidate from n on whose tiling features include the requested ones, or none exactly when none does |
| SwapchainRules.FindSupportedFormat | BladeEngine/src/Graphics/Platform/Vulkan/BladeVulkanSwapchain.cpp:39-57 | The first supported candidate, or an error exactly when none is supported |
| SwapchainRules.FindDepthFormat | BladeEngine/src/Graphics/Platform/Vulkan/BladeVulkanSwapchain.cpp:59-65 | The first of D32_SFLOAT, D32_SFLOAT_S8_UINT and D24_UNORM_S8_UINT that can be an optimal-tiling depth attachment, or an error when none can |
| SwapchainRules.Swapchain.constructor | BladeEngine/src/Graphics/Platform/Vulkan/BladeVulkanSwapchain.cpp:124-130 | Runs CreateSwapchain, CreateImageViews and CreateDepthResources in order: the chosen format, extent and create info, the driver's images, one colour view per image, the depth view in the first supported depth format (the placeholder when none is), and no framebuffers yet |
| SwapchainRules.Swapchain.CreateSwapchain | BladeEngine/src/Graphics/Platform/Vulkan/BladeVulkanSwapchain.cpp:132-192 | The create info combines the chosen count, format, extent, sharing and present mode; the driver's images and the chosen format and extent are kept |
| SwapchainRules.Swapchain.CreateImageViews | BladeEngine/src/Graphics/Platform/Vulkan/BladeVulkanSwapchain.cpp:216-224 | One colour view per image, in the swapchain format, in image order |
| SwapchainRules.Swapchain.CreateDepthResources | BladeEngine/src/Graphics/Platform/Vulkan/BladeVulkanSwapchain.cpp:67-78 | A depth view in the chosen depth format, or an error (with the view unchanged) when no depth format is supported |
| SwapchainRules.Swapchain.CreateFramebuffers | BladeEngine/src/Graphics/Platform/Vulkan/BladeVulkanSwapchain.cpp:14-36 | For the render pass, one framebuffer per image view with the depth view and the extent; other render passes keep theirs |
| Device.CheckDeviceExtensionSupport | BladeEngine/src/Graphics/Platform/Vulkan/BladeVulkanDevice.cpp:59-79 | Erasing the available names from the required set leaves it empty exactly when every required extension is available |
| Device.IsDeviceSuitable | BladeEngine/src/Graphics/Platform/Vulkan/BladeVulkanDevice.cpp:81-105 | Suitable exactly when the scan is complete, the extensions are present, the swapchain has formats and present modes, and anisotropy is supported; swapchain support is queried only when the extensions are present |
| Device.UniqueQueueCreateInfos | BladeEngine/src/Graphics/Platform/Vulkan/BladeVulkanDevice.cpp:132-145 | One single-queue info per distinct family, covering graphics and present, in increasing family order |
| Device.VulkanDevice.constructor | BladeEngine/src/Graphics/Platform/Vulkan/BladeVulkanDevice.cpp:15-21 | Picks the first suitable device and creates the logical device on it with the given extensions |
| Device.VulkanDevice.PickPhysicalDevice | BladeEngine/src/Graphics/Platform/Vulkan/BladeVulkanDevice.cpp:107-126 | The first suitable device in enumeration order; with none, the member is unchanged |
| Device.VulkanDevice.CreateLogicalDevice | BladeEngine/src/Graphics/Platform/Vulkan/BladeVulkanDevice.cpp:128-183 | Distinct single-queue infos for the graphics and present families, anisotropy on, the given extensions, and queue 0 of each family |
| Renderer.TextVertexDescription | BladeEngine/src/Graphics/Platform/Vulkan/BladeVulkanRenderer.cpp:86-90 | A kept-mapped, host-writable vertex buffer with room for 1000 characters of four vertices |
| Renderer.TextIndexDescription | BladeEngine/src/Graphics/Platform/Vulkan/BladeVulkanRenderer.cpp:92-96 | A kept-mapped, host-writable index buffer with room for 1000 characters of six 16-bit indices |
| Renderer.InitBufferSlots | BladeEngine/src/Graphics/Platform/Vulkan/BladeVulkanRenderer.cpp:98-113 | For each of the three frames in flight: 200 MVP uniform buffers, 100 text vertex buffers and 100 text index buffers |
| Renderer.QuadCountOf | BladeEngine/src/Graphics/Platform/Vulkan/BladeVulkanRenderer.cpp:266-357 | A string's bytes give one quad each except CR, LF, space and tab, so never more quads than bytes |
| Renderer.QuadIndicesFor | BladeEngine/src/Graphics/Platform/Vulkan/BladeVulkanRenderer.cpp:345-357 | Six indices per quad |
| Renderer.TextIndices | BladeEngine/src/Graphics/Platform/Vulkan/BladeVulkanRenderer.cpp:345-357 | Six indices for each of the string's quads |
| Renderer.TextIndicesAt | BladeEngine/src/Graphics/Platform/Vulkan/BladeVulkanRenderer.cpp:345-357 | Entry 6p+m is pattern entry m plus 4p, truncated to 16 bits |
| Renderer.TextIndicesInRange | BladeEngine/src/Graphics/Platform/Vulkan/BladeVulkanRenderer.cpp:345-357 | Within 1000 characters no index wraps, and every index names one of the 4q vertices written |
| Renderer.BuildTextIndices | BladeEngine/src/Graphics/Platform/Vulkan/BladeVulkanRenderer.cpp:266-357 | Walks the std::string byte by byte: completes exactly when every drawn byte's signed-char codepoint has a glyph or '?' exists; the quad count and indices are then those of the string |
| Renderer.GlyphCodepoint | BladeEngine/src/Graphics/Platform/Vulkan/BladeVulkanRenderer.cpp:268-302 | The codepoint getGlyph is asked for: a byte below 0x80 itself, a byte from 0x80 up sign-extended to 2^32 − 0x100 + byte |
| Renderer.HighBytesHaveNoGlyph | BladeEngine/src/Graphics/Font.cpp:50-60 | With the font's 0x20–0xFF charset, a byte from 0x80 up never finds its own glyph |
| Renderer.Utf8CharacterIsTwoQuads | BladeEngine/src/Graphics/Platform/Vulkan/BladeVulkanRenderer.cpp:266-304 | The UTF-8 bytes C3 A9 of U+00E9 make two quads, and without '?' the string returns early |
| Renderer.DrawList | BladeEngine/src/Graphics/Platform/Vulkan/BladeVulkanRenderer.cpp:513-548 | The frame clears to the background colour with alpha 1; sprite i is drawn with texture, mesh, model and push constant i; string j with slot \|meshes\|+j and 6 indices per quad of text slot j |
| Renderer.Renderer.constructor | BladeEngine/src/Graphics/Platform/Vulkan/BladeVulkanRenderer.cpp:33-114 | Empty lists, frame 0, zero quad counts, the default (opaque black) background colour and the per-frame buffer slots |
| Renderer.Renderer.BeginDrawing | BladeEngine/src/Graphics/Platform/Vulkan/BladeVulkanRenderer.cpp:116-121 | The text and uniform-buffer counters restart at 0 and nothing else changes |
| Renderer.Renderer.DrawSprite | BladeEngine/src/Graphics/Platform/Vulkan/BladeVulkanRenderer.cpp:123-143 | Exactly one entry more in each of the four parallel lists |
| Renderer.Renderer.DrawString | BladeEngine/src/Graphics/Platform/Vulkan/BladeVulkanRenderer.cpp:230-386 | The atlas is pushed; a complete string fills the next text slot of the current frame and records its quad count and model; an early return changes nothing more |
| Renderer.Renderer.EndDrawingAsWritten | BladeEngine/src/Graphics/Platform/Vulkan/BladeVulkanRenderer.cpp:151-228 | Presents the draw list, clears three lists but not the push constants, and advances the frame ring |
| Renderer.Renderer.EndDrawing | BladeEngine/src/Graphics/Platform/Vulkan/BladeVulkanRenderer.cpp:151-228 | Presents the draw list, clears all four lists (keeping push constants aligned with sprites), and advances the frame ring |
| Renderer.Renderer.Clear | BladeEngine/src/Graphics/Platform/Vulkan/BladeVulkanRenderer.cpp:558-672 | Stores the colour as the background colour, presents a frame cleared to all four of its components, and advances the frame ring |
| Renderer.OpaqueClearColor | BladeEngine/src/Graphics/Platform/Vulkan/BladeVulkanRenderer.cpp:482-486 | A drawn frame's clear value is the background's red, green and blue with alpha 1 |
| Renderer.ClearThenDrawScenario | BladeEngine/src/Graphics/Platform/Vulkan/BladeVulkanRenderer.cpp:482-486 | After Clear with a colour, the next drawn frame clears to that colour with alpha 1 |
| Renderer.AtlasShiftScenario | BladeEngine/src/Graphics/Platform/Vulkan/BladeVulkanRenderer.cpp:164-221 | With a font holding only the space glyph, a string "A" returns early after pushing its atlas, then a sprite: the sprite is drawn with the atlas texture, since sprites read texture slot i |
| Renderer.StaleUVTransformScenario | BladeEngine/src/Graphics/Platform/Vulkan/BladeVulkanRenderer.cpp:225-227 | Through EndDrawing as written, the second frame's sprite is drawn with the first frame's UV transform |
| Renderer.FreshUVTransformScenario | BladeEngine/src/Graphics/Platform/Vulkan/BladeVulkanRenderer.cpp:225-227 | Through the corrected EndDrawing, each frame's sprite uses its own UV transform |
| LegacyQueue.FindQueueFamilies | BladeEngine/src/Platform/Vulkan/VulkanQueue.cpp:7-39 | The same result as the current graphics/present scan: each index offers its capability, and both are set exactly when some family offers each |
| LegacyQueueFamilies.FindGraphicsPresentQueueFamilyIndices | BladeEngine/src/Platform/Vulkan/QueueFamily.cpp:23-60 | The current scan's indices, each stored with its family's queue count; with no families the result is incomplete rather than an exception |
| LegacyQueueFamilies.FindFirst | BladeEngine/src/Platform/Vulkan/QueueFamily.cpp:62-120 | The first family with the bit, with its queue count; incomplete exactly when there is none |
| LegacyQueueFamilies.FindComputeQueueFamilyIndices | BladeEngine/src/Platform/Vulkan/QueueFamily.cpp:62-90 | The first COMPUTE family with its queue count |
| LegacyQueueFamilies.FindTransferQueueFamilyIndices | BladeEngine/src/Platform/Vulkan/QueueFamily.cpp:92-120 | The first TRANSFER family with its queue count |
| LegacyQueueFamilies.FindProtectedQueueFamilyIndicesAsWritten | BladeEngine/src/Platform/Vulkan/QueueFamily.cpp:122-150 | Tests the COMPUTE bit, so it returns exactly what the compute finder returns |
| LegacyQueueFamilies.FindProtectedQueueFamilyIndices | BladeEngine/src/Platform/Vulkan/QueueFamily.cpp:122-150 | With the PROTECTED bit: the first family with protected memory; incomplete exactly when there is none |
| LegacyQueueFamilies.ProtectedFinderAsWrittenPicksUnprotectedFamily | BladeEngine/src/Platform/Vulkan/QueueFamily.cpp:139 | On a graphics+compute family followed by a compute+protected family, the finder as written returns family 0, which lacks protected memory |
| LegacyInit.CheckDeviceExtensionSupport | BladeEngine/src/Platform/Vulkan/Init.cpp:30-47 | Supported exactly when VK_KHR_swapchain is available |
| LegacyInit.DeviceIsSuitable | BladeEngine/src/Platform/Vulkan/Init.cpp:50-71 | The same answer as the current back end's suitability for the swapchain extension; the swapchain is queried only when the extension is there |
| LegacyInit.InitState.constructor | BladeEngine/src/Platform/Vulkan/Init.hpp:15-23 | No device picked and no queues |
| LegacyInit.InitState.PickPhysicalDevice | BladeEngine/src/Platform/Vulkan/Init.cpp:73-93 | The first suitable device; with none, the error is built but not thrown and nothing changes |
| LegacyInit.InitState.CreateLogicalDeviceAsWritten | BladeEngine/src/Platform/Vulkan/Init.cpp:95-142 | Two infos, graphics then present, each asking for the family's full queue count |
| LegacyInit.InitState.CreateLogicalDevice | BladeEngine/src/Platform/Vulkan/Init.cpp:95-142 | Single-queue infos, one per distinct family, that obey the valid-usage rules and cover graphics and present |
| LegacyInit.DuplicateQueueInfosScenario | BladeEngine/src/Platform/Vulkan/Init.cpp:101-117 | On a single-family device with four queues, the set-up as written names family 0 twice with four queues: invalid infos |
| LegacyInit.UniqueQueueInfosScenario | BladeEngine/src/Platform/Vulkan/Init.cpp:101-117 | On the same device the corrected set-up asks for family 0 once with one queue |
| LegacyImage.FindMemoryType | BladeEngine/src/Platform/Vulkan/VulkanImage.cpp:112-126 | The smallest fitting memory type, or 0xFFFFFFFF exactly when none fits |
| LegacyImage.VulkanImage.constructor | BladeEngine/src/Platform/Vulkan/VulkanImage.cpp:8-18 | Stores size, mip levels, format and tiling but not the aspect flags, then creates the image and its view |
| LegacyImage.VulkanImage.CreateImage | BladeEngine/src/Platform/Vulkan/VulkanImage.cpp:27-69 | The memory type index is the fitting type, or the 0xFFFFFFFF marker with an error logged exactly then |
| LegacyImage.VulkanImage.CreateImageView | BladeEngine/src/Platform/Vulkan/VulkanImage.cpp:71-110 | A view in the image's format over all its mip levels, with the aspect member that was never set |
| LegacyImage.TryFindSupportedFormat | BladeEngine/src/Platform/Vulkan/VulkanImage.cpp:128-154 | True with the first supported candidate written out; false with the output untouched |
| LegacyImage.TryFindDepthFormat | BladeEngine/src/Platform/Vulkan/VulkanImage.cpp:156-165 | Succeeds exactly when some depth candidate supports an optimal-tiling depth attachment, and writes the first such candidate |
| LegacySwapchain.QuerySwapchainSupport | BladeEngine/src/Platform/Vulkan/VulkanSwapchain.cpp:9-36 | The reported capabilities, and the format and present-mode lists with exactly the reported entries |
| LegacySwapchain.LegacyVulkanSwapchain.constructor | BladeEngine/src/Platform/Vulkan/VulkanSwapchain.cpp:38-41 | The source constructor takes no arguments and leaves m_Width and m_Height uninitialised; the parameters stand for those unknown values, and no step has run |
| LegacySwapchain.LegacyVulkanSwapchain.CreateSwapchain | BladeEngine/src/Platform/Vulkan/VulkanSwapchain.cpp:61-133 | The current back end's create info, with the extent chosen from the unchanged width and height members |
| LegacySwapchain.LegacyVulkanSwapchain.RecreateSwapchain | BladeEngine/src/Platform/Vulkan/VulkanSwapchain.cpp:48-59 | Wait, clean up, create the swapchain, then the views; the new size is ignored and the extent still comes from the old members |

## Left out

- I/O, windowing and drivers are left out. GLFW, Vulkan, VMA, miniaudio and msdf-atlas-gen are represented by their results as inputs, or by a log of calls. Thrown runtime errors become `Result` errors, and logging is a boolean where it matters.
- Floating point is modelled as `real`, so there are no NaNs and no rounding. This covers colours, audio volume and pitch, mesh positions and UVs, and the text pen position and glyph quads of DrawString. DrawString's vertex contents are not modelled; only its indices and quad counts are.
- 64-bit sizes (`VkDeviceSize`, `size_t`) are unbounded naturals. Only the uint32 arithmetic that can wrap is written out: SpriteSheet's range count and the swapchain's image count.
- The BITWISE_ENUM operators of VulkanBuffer.hpp are the plain `bv32` operators.
- GPU command recording, descriptor sets, fences and semaphores are not modelled. The renderer records what each frame draws instead.
- VulkanBuffer destructor: not modelled. It only destroys the buffer.
- VulkanBuffer.VulkanBuffer.CreateBuffer: requires that the description's keep-mapped flag equals the member's. Every caller in the source passes the member's own description.
- SpriteSheet.SpriteSheet.constructor and SpriteSheet.SpriteSheet.Subdivide: require a nonzero sprite size, because the source divides by it. They also require a sprite count below 2^32, because the source stores it as uint32.
- Device.VulkanDevice.constructor: requires a suitable device. The source asserts that one was found before it creates the logical device.
- Mesh: vertex positions and UVs are kept as typed sequences, not as raw bytes. Only the index buffer's byte encoding is modelled.
- The current back end's QuerySwapChainSupport (BladeVulkanDevice.cpp:31-57) is the driver's report, kept as a field of `PhysicalDevice`. The older back end's copy, which has the same shape, is modelled as LegacySwapchain.QuerySwapchainSupport.
- LegacyImage.VulkanImage.constructor: the header's `isDepthBuffer` default parameter is not modelled, because the .cpp never uses it. The device pointer is never stored, and the free CreateImageView function is folded into the method.
- LegacySwapchain.LegacyVulkanSwapchain.RecreateSwapchain: the older back end's CreateImageViews is declared nowhere in its files. It is recorded as a step.
- Renderer.Renderer.DrawString and Renderer.BuildTextIndices: the text is its bytes, one `char` per byte, read as a signed char as on x86 compilers. On a target where `char` is unsigned, a byte from 0x80 up would look up its own value instead. Glyph positions, kerning and the pen are not modelled.
- SpriteSheet: sections are kept in pixel units. SpriteSheet.cpp stores the same rectangles divided by the texture size, as texture coordinates; the division is floating point and is not modelled.
- Renderer.Renderer.DrawString: requires the font to have a space glyph. The source dereferences getGlyph(' ') before its character loop (BladeVulkanRenderer.cpp:262), whatever the string holds, so a font without one fails there.
- SwapchainRules.Swapchain.constructor: when no depth format is supported, the source throws runtime_error (BladeVulkanSwapchain.cpp:56) out of the constructor. The model returns that error as a `Result` from CreateDepthResources, and the constructor finishes with the depth view left as a placeholder.
- Renderer.Renderer.DrawString: requires a free text slot (fewer than 100 strings per frame) and at most 1000 quads. The source writes past its buffers otherwise.
- Renderer.Renderer.EndDrawing: requires the sprites and strings of a frame to fit the 200 uniform buffers, which the source indexes without a check.
- ProjectGenerator.MkdirEffect, ProjectGenerator.CreateExclusiveEffect, ProjectGenerator.AppendEffect, ProjectGenerator.RunGenerator: paths are compared as plain strings. A trailing "/", a doubled "//", "." and ".." are not normalised. So a project name of "proj/" fails at the first mkdir in the model, where Python creates proj and the sub-directories and fails only at the .cpp file. A project name of "." generates a "." project in the model, where Python raises FileExistsError at the first mkdir. The generation lemmas require a name with no "/" and are not affected by the first case.
- VulkanTexture.GetVulkanFormat, VulkanTexture.GetVulkanFilter, VulkanTexture.GetVulkanSamplerAddressMode, Device.VulkanDevice.PickPhysicalDevice, VulkanBuffer.UsageFlagsOf, VulkanBuffer.VulkanBuffer.CreateBuffer: BLD_CORE_ASSERT is modelled as compiled out, which is the release-build behaviour. The texture translations take the fallback after each switch (BladeVulkanTexture.cpp:26, 41, 60). PickPhysicalDevice leaves its member unchanged when there is no device or none is suitable (BladeVulkanDevice.cpp:113, 125). An empty buffer usage goes on to create the buffer (VulkanBuffer.cpp:118). A debug build stops at each of these asserts instead.
- The engine's Texture2D loading, fonts and the audio engine are not part of this model.

## Findings

| source | as written | input that shows it | evidently intended | confidence | as-written member | corrected member |
|---|---|---|---|---|---|---|
| BladeEngine/src/Graphics/Platform/Vulkan/BladeVulkanRenderer.cpp:225-227 | EndDrawing clears textures, meshes and model data but not the push constants, so sprite i of a later frame reads the UV transform of sprite i of the first frame | Two frames with one sprite each, with UV transforms A and then B: the second frame draws with A | Clear the push-constant list with the other three | not executed | Renderer.Renderer.EndDrawingAsWritten, Renderer.StaleUVTransformScenario | Renderer.Renderer.EndDrawing, Renderer.FreshUVTransformScenario |
| BladeEngine/src/Platform/Vulkan/QueueFamily.cpp:139 | The protected-memory finder tests VK_QUEUE_COMPUTE_BIT | Families [graphics+compute, compute+protected]: it returns family 0, which has no protected memory | Test VK_QUEUE_PROTECTED_BIT | not executed | LegacyQueueFamilies.FindProtectedQueueFamilyIndicesAsWritten, LegacyQueueFamilies.ProtectedFinderAsWrittenPicksUnprotectedFamily | LegacyQueueFamilies.FindProtectedQueueFamilyIndices |
| BladeEngine/src/Platform/Vulkan/Init.cpp:101-117 | Two queue infos, graphics then present, each with the family's full queue count and one priority | One family doing graphics and present with 4 queues: infos (0,4) and (0,4), which name a family twice and ask for more queues than priorities | One single-queue info per distinct family, as the current back end does | not executed | LegacyInit.InitState.CreateLogicalDeviceAsWritten, LegacyInit.DuplicateQueueInfosScenario | LegacyInit.InitState.CreateLogicalDevice, LegacyInit.UniqueQueueInfosScenario |
