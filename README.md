# IGL core, modelled in Dafny

This project models the sequential core of IGL, Meta's Intermediate Graphics
Library, together with the OpenXR shell that hosts IGL render sessions on
headsets. Each component gets one file and one module:

- **Vulkan staging device** (`staging_device.dfy`). This is the allocator behind
  every upload and download.
  - It keeps a deque of memory regions over one staging buffer.
  - Sizes are aligned to 16, and the buffer grows up to a device-dependent cap.
  - A free block is found first-fit, then by a largest-ready fallback, then by
    waiting for everything.
  - Uploads and downloads are split into chunks.
- **OpenXR hosts**:
  - the mobile host (`xr_app_mobile.dfy`) and the desktop host (`xr_app_desktop.dfy`);
  - the pieces they share: view configurations and the session lifecycle
    (`xr_shell.dfy`), extension negotiation (`xr_extensions.dfy`), and record
    types (`xr_types.dfy`).
- **OpenXR helpers**:
  - the quad composition (`xr_composition_quad.dfy`);
  - the swapchain provider (`xr_swapchain_provider.dfy`);
  - the OpenGL ES swapchain-texture cache (`xr_swapchain_gles.dfy`).
- **Mapping tables and validators**:
  - the Vulkan helpers of `Common.cpp` (`common.dfy`);
  - the channel-order predicates of the two `TextureFormat.h` headers (`texture_format.dfy`);
  - the Android hardware-buffer mapping and the Vulkan hardware-buffer
    texture's `createHWBuffer` (`native_hw_buffer.dfy`).
- **Small stateful utilities**:
  - the set-once resource tracker (`tracked_resource.dfy`);
  - the Drawable pipeline cache (`drawable.dfy`);
  - the JNI renderer registry (`jni_registry.dfy`);
  - the GPU stress session's settings and cube replication (`gpu_stress.dfy`);
  - the BMP header writer (`bitmap_writer.dfy`).
- `core.dfy` holds the shared `Result` codes, texture enums and an `Option` type.

**How calls out of the core are modelled.** Every call into the OpenXR
runtime, Vulkan, EGL/GL, the Android allocator or the platform becomes a
parameter: a result code, a handle or a list it reports.

- Methods whose outcome depends on such a call take a value recording the outcome.
- Handles are naturals, or are modelled only by whether they are null.
- In the staging device, a submit handle is a natural. `isReady` is
  membership in a set of pending handles, and `wait` removes a handle from
  that set.
- Copies (`vkCmdCopyBuffer`, `memcpy`) are recorded as transfer records
  rather than performed.

Fixed-width integer behaviour is written out where the source relies on it:
- uint16_t casts of cube indices;
- the uint32_t BMP fields and staging counter;
- the 64-bit `VkDeviceSize` alignment;
- C++'s truncating `%`.

**Where the code, its headers and its tests disagree, the model follows the code:**

- `getNativeHWFormat(YUV_NV12)` returns 0 in `src/igl/android/NativeHWBuffer.cpp:49-51`,
  although `src/igl/tests/android/NativeHWBuffer.cpp:53-54` expects the VENUS NV12 code.
- The mobile `XrApp.cpp` uses members that `shell/openxr/XrApp.h` does not declare:
  `passthrough_` as a pointer, `hands_`, `supportedOptionalXrExtensions_` and
  `quadLayersParams_.blendModes_`. The model gives the class the fields the .cpp uses.
- `XrSwapchainProvider.h` declares a constructor and fields that differ from
  `XrSwapchainProvider.cpp`. The model follows the .cpp: `swapchainImageInfo_`, and
  `numViews_` as a uint8_t.
- The desktop `XrApp.cpp` never enumerates blend modes, so `additiveBlendingSupported_`
  keeps its initial false. It also has no refresh-rate or sharpening code: those fields
  keep their header defaults.
- The desktop header leaves `handActive` uninitialised. The model starts it
  arbitrary, and `pollActions` resets it.
- Both hosts' `enumerateViewConfigurations` return true when no primary-stereo
  configuration is listed: the viewports are then left as they were.
  `XrShell.FirstStereo` and `EnumerateViewConfigurations` state this case.

## Model

| member | source | states |
|---|---|---|
| IglCore.Wrap | src/igl/vulkan/VulkanStagingDevice.cpp:53 | A C cast to an unsigned width lands below the modulus and keeps every value that already fits. |
| VulkanCommon.GetResultFromVkResult | src/igl/vulkan/Common.cpp:39-66 | Ok exactly for VK_SUCCESS. Unimplemented exactly for a missing layer, extension or feature. Unsupported exactly for an incompatible driver or unsupported format. ArgumentOutOfRange exactly for host, device or pool exhaustion and too many objects. RuntimeError exactly for every other value. The VkResult is kept. |
| VulkanCommon.NonSuccessStatusIsRuntimeError | src/igl/vulkan/Common.cpp:39-66 | Positive status codes such as VK_NOT_READY are not Ok; they fall into RuntimeError. |
| VulkanCommon.SetResultFrom | src/igl/vulkan/Common.cpp:68-74 | A null out-pointer is left alone. Otherwise the mapped result is stored, and it is Ok iff the VkResult is VK_SUCCESS. |
| VulkanCommon.StencilOperationToVkStencilOp | src/igl/vulkan/Common.cpp:76-97 | Every stencil operation maps into the VkStencilOp range 0..7. |
| VulkanCommon.StencilOperationRoundTrip | src/igl/vulkan/Common.cpp:76-97 | The reverse table recovers every stencil operation from its VkStencilOp. |
| VulkanCommon.StencilOperationInjective | src/igl/vulkan/Common.cpp:76-97 | Distinct stencil operations get distinct VkStencilOp values. |
| VulkanCommon.CompareFunctionToVkCompareOp | src/igl/vulkan/Common.cpp:123-144 | Every compare function maps into the VkCompareOp range 0..7. |
| VulkanCommon.CompareFunctionPreservesMeaning | src/igl/vulkan/Common.cpp:123-144 | For all operands, the Vulkan comparison passes exactly when the IGL compare function does. |
| VulkanCommon.CompareFunctionInjective | src/igl/vulkan/Common.cpp:123-144 | Distinct compare functions get distinct VkCompareOp values. |
| VulkanCommon.ResourceStorageToVkMemoryPropertyFlags | src/igl/vulkan/Common.cpp:99-121 | DEVICE_LOCAL iff Private or Memoryless. HOST_VISIBLE and HOST_COHERENT iff Shared or Managed. LAZILY_ALLOCATED iff Memoryless. No other bit is set. No flags iff the storage is Invalid. |
| VulkanCommon.SampleCountIsSmallestPowerOfTwo | src/igl/vulkan/Common.cpp:146-166 | GetVulkanSampleCountFlags returns a power of two that is at least the request, capped at 64. No power of two up to 64 that holds the request is smaller. |
| VulkanCommon.SampleCountKeepsPowersOfTwo | src/igl/vulkan/Common.cpp:146-166 | A request of 1, 2, 4, ..., 64 is returned unchanged. |
| VulkanCommon.GetVkLayer | src/igl/vulkan/Common.cpp:168-170 | The Vulkan layer index of a texture range: its face for cube maps, its array layer otherwise. |
| VulkanCommon.AtVkLayer | src/igl/vulkan/Common.cpp:172-174 | A cube range is narrowed to one face, and any other range to one array layer; the other coordinate is kept. |
| VulkanCommon.VkLayerRoundTrip | src/igl/vulkan/Common.cpp:168-174 | getVkLayer of the range atVkLayer selects is the requested Vulkan layer. |
| VulkanCommon.AtOwnVkLayer | src/igl/vulkan/Common.cpp:168-174 | A range that covers one Vulkan layer is unchanged by atVkLayer at its own getVkLayer. |
| VulkanCommon.AtVkLayerInjective | src/igl/vulkan/Common.cpp:172-174 | Different Vulkan layers select different ranges. |
| VulkanCommon.GetNumImagePlanes | src/igl/vulkan/Common.cpp:339-350 | 0 planes iff UNDEFINED, 2 iff the 2-plane 420 format, 3 iff the 3-plane 420 format, and 1 for every other format. |
| VulkanTextureFormat.ChannelOrderSets | src/igl/vulkan/TextureFormat.h:25-34 | isTextureFormatRGB holds exactly for the three red-first formats; isTextureFormatBGR holds exactly for the three blue-first formats. |
| VulkanTextureFormat.ChannelOrdersDisjoint | src/igl/vulkan/TextureFormat.h:25-34 | No format is both RGB- and BGR-ordered. |
| VulkanTextureFormat.OtherFormatsHaveNoOrder | src/igl/vulkan/TextureFormat.h:25-34 | A format outside the six satisfies neither predicate. |
| VulkanTextureFormat.UndefinedHasNoOrder | src/igl/vulkan/TextureFormat.h:25-34 | VK_FORMAT_UNDEFINED satisfies neither predicate. |
| VulkanUtilTextureFormat.ChannelOrderSets | src/igl/vulkan/util/TextureFormat.h:28-37 | The util copies hold for the same three RGB-order and three BGR-order formats. |
| VulkanUtilTextureFormat.ChannelOrdersDisjoint | src/igl/vulkan/util/TextureFormat.h:28-37 | The util predicates are disjoint. |
| VulkanUtilTextureFormat.AgreesWithVulkanNamespace | src/igl/vulkan/util/TextureFormat.h:28-37 | The util copies answer exactly as the igl::vulkan ones for every format. |
| AndroidNativeHWBuffer.GetNativeHWFormat | src/igl/android/NativeHWBuffer.cpp:16-52 | A format has a non-zero AHardwareBuffer code iff it is one of the ten mapped formats. |
| AndroidNativeHWBuffer.NativeHWFormatRoundTrip | src/igl/android/NativeHWBuffer.cpp:18-47 | Every mapped format is recovered from its native code. |
| AndroidNativeHWBuffer.NativeHWFormatInjective | src/igl/android/NativeHWBuffer.cpp:18-47 | Mapped formats get pairwise distinct codes. |
| AndroidNativeHWBuffer.UnsupportedFormatsMapToZero | src/igl/android/NativeHWBuffer.cpp:49-51 | YUV_NV12, Invalid and every unnamed format map to 0. |
| AndroidNativeHWBuffer.GetNativeHWBufferUsage | src/igl/android/NativeHWBuffer.cpp:54-68 | Sampled sets GPU_SAMPLED_IMAGE. Storage sets CPU_READ_OFTEN and CPU_WRITE_OFTEN. Attachment sets GPU_COLOR_OUTPUT. Each native bit is set only for its IGL bit, usage 0 gives 0, and the value fits 32 bits. |
| AndroidNativeHWBuffer.AllocationDescriptor | src/igl/android/NativeHWBuffer.cpp:73-86 | One layer, and the size copied to uint32. The format and usage come from the two mappers. COMPOSER_OVERLAY is set iff API level 33 or later and a surface composite are both requested. Reserved fields and stride are 0. |
| AndroidNativeHWBuffer.AllocationResult | src/igl/android/NativeHWBuffer.cpp:88-92 | Ok iff the allocator returns 0, RuntimeError otherwise. |
| AndroidNativeHWBuffer.LockHWBuffer | src/igl/android/NativeHWBuffer.cpp:102-123 | A failed lock gives RuntimeError and leaves the range. A successful lock gives Ok and a range with the buffer's width, height and stride, layer 1 and mip level 1. |
| AndroidNativeHWBuffer.UnlockHWBuffer | src/igl/android/NativeHWBuffer.cpp:125-131 | Ok iff the unlock returns 0. |
| VulkanNativeHWBuffer.ValidRequestNeedsNativeFormat | src/igl/vulkan/android/NativeHWBuffer.cpp:36-43 | Every accepted request has a native format, so a YUV_NV12 request is never accepted. |
| VulkanNativeHWBuffer.NativeHWTextureBuffer.CreateHWBuffer | src/igl/vulkan/android/NativeHWBuffer.cpp:29-96 | Errors are checked in order. An existing texture gives RuntimeError and an invalid request gives Unsupported; neither changes anything. A valid request asks the allocator exactly once, with the descriptor allocateNativeHWBuffer builds from the request and the surface-composite flag. An allocator failure passes its result through and leaves the buffer, texture and description alone. After allocation the buffer is kept. Ok iff the image and the texture are both created, and only then are desc_ and texture_ set. |
| VulkanNativeHWBuffer.NativeHWTextureBuffer.Create | src/igl/vulkan/android/NativeHWBuffer.cpp:98-100 | Every outcome of createHWBuffer with no storage and no surface composite: the existing-texture and invalid-request errors, the allocator request without COMPOSER_OVERLAY, the allocator-failure pass-through, the image and texture failures, and full success. |
| VulkanNativeHWBuffer.NativeHWTextureBuffer.Destroy | src/igl/android/NativeHWBuffer.cpp:95-100 | A buffer that is not external is released once and cleared; an external one is left untouched. |
| BitmapWriter.HeaderRoundTrip | IGLU/bitmap/BitmapWriter.cpp:15-35 | The packed header serializes to 54 bytes, and parsing any file that starts with it gives the header back. |
| BitmapWriter.LayoutSize | IGLU/bitmap/BitmapWriter.cpp:15-35 | Sixteen fields: a 14-byte file header and a 40-byte DIB header, 54 bytes in all. |
| BitmapWriter.DecodeEncodeLE | IGLU/bitmap/BitmapWriter.cpp:15-35 | Little-endian decoding inverts encoding for every value that fits the width. |
| BitmapWriter.ImageSize | IGLU/bitmap/BitmapWriter.cpp:46 | width * height * 3, reduced modulo 2^32, and exact when it fits. |
| BitmapWriter.MakeHeader | IGLU/bitmap/BitmapWriter.cpp:48-53 | Signature 0x4D42 and data offset 54. 40-byte DIB header, one plane, 24 bits, no compression, and zeroed reserved, colour and resolution fields. The image size is ImageSize; the file size is 54 + ImageSize in uint32. Width and height are stored as their int32 bit patterns. |
| BitmapWriter.SignatureBytes | IGLU/bitmap/BitmapWriter.cpp:17 | The file starts with the bytes "BM". |
| BitmapWriter.WriteBitmap | IGLU/bitmap/BitmapWriter.cpp:39-58 | Nothing is written iff the file cannot be opened. Otherwise the output is the serialized header followed by exactly imageSize pixel bytes. |
| BitmapWriter.FileSizeMatches | IGLU/bitmap/BitmapWriter.cpp:48-56 | When 54 + imageSize fits in 32 bits, the file's length equals the header's fileSize, which reads back from the file. |
| TrackedResource.ITrackedResource.InitResourceTracker | src/igl/ITrackedResource.h:36-43 | Takes effect only while no tracker is stored. didCreate is sent iff a non-null tracker is stored. A null tracker leaves the slot unset. |
| TrackedResource.ITrackedResource.Destroy | src/igl/ITrackedResource.h:26-30 | willDelete is sent iff a tracker is stored. |
| Drawable.Drawable.constructor | IGLU/simple_renderer/Drawable.cpp:15 | A new Drawable has no cached pipeline and a zero descriptor hash, and has created no pipeline. |
| Drawable.DrawCalls | IGLU/simple_renderer/Drawable.cpp:35-43 | The pipeline is bound first and the material second. Push constants come next only when there is data of non-zero size. The draw comes last. |
| Drawable.PushConstantsBoundIff | IGLU/simple_renderer/Drawable.cpp:39-41 | Push constants are bound, exactly once, iff the data pointer is non-null and the size is not 0. |
| Drawable.Drawable.Draw | IGLU/simple_renderer/Drawable.cpp:19-44 | A pipeline is requested iff none exists or the descriptor hash changed; otherwise the cached one is kept. Afterwards the hash is recorded and the cache is fresh. The encoder calls are DrawCalls of that pipeline. |
| JniRegistry.SampleLib.FindRendererIndex | shell/android/jni/Jni.cpp:89-101 | No index for an absent version. Otherwise the first renderer of that version, or no index iff none has it. |
| JniRegistry.SampleLib.Init | shell/android/jni/Jni.cpp:144-167 | A new version appends one renderer, and versions stay unique. A registered Vulkan version recreates its swapchain. Every other case changes nothing. The active version is set in every branch. |
| JniRegistry.SampleLib.SetActiveBackendVersion | shell/android/jni/Jni.cpp:189-197 | Replaces the active version and nothing else. |
| JniRegistry.SampleLib.Dispatch | shell/android/jni/Jni.cpp:199-258 | render, touchEvent, surfaceChanged and setClearColorValue reach the renderer of the active version. They do nothing iff no renderer has that version. |
| JniRegistry.IsBackendVersionSupported | shell/android/jni/Jni.cpp:169-187 | True exactly for a present OpenGL ES or Vulkan version whose backend is compiled in. |
| JniRegistry.DecimalRoundTrip | shell/android/jni/Jni.cpp:23-61 | The decimal text of a number reads back as that number. |
| JniRegistry.VersionToString | shell/android/jni/Jni.cpp:23-53 | "{}" iff the optional is empty; otherwise the text starts with the flavour's name. |
| JniRegistry.IndexToString | shell/android/jni/Jni.cpp:55-61 | "{}" iff the optional is empty; otherwise decimal digits that read back as the index. |
| GPUStressSession.IsDeviceCompatible | shell/renderSessions/GPUStressSession.cpp:280-293 | True for Vulkan. For OpenGL, true iff the shader major version is at least 3 or the minor version at least 30. False for every other backend. |
| GPUStressSession.CRem | shell/renderSessions/GPUStressSession.cpp:1026-1028 | C++'s truncating remainder: it has the dividend's sign, is smaller in magnitude than the divisor, and differs from the dividend by a multiple of the divisor. This fixes its value. For a non-negative dividend and a positive divisor it equals the Euclidean remainder. |
| GPUStressSession.VertexData0 | shell/renderSessions/GPUStressSession.cpp:89-98 | The base cube has eight vertices, vertex v at corner v, with no normal yet. |
| GPUStressSession.CornerOfIndex | shell/renderSessions/GPUStressSession.cpp:101-104 | indexData0 has 36 entries, and each is one of its face's four corners. |
| GPUStressSession.ReplicatedLengths | shell/renderSessions/GPUStressSession.cpp:554-581 | n copies give n times the vertices and n times the indices of one cube. |
| GPUStressSession.ReplicatedVertexAt | shell/renderSessions/GPUStressSession.cpp:554-566 | Vertex j of cube c is the cube's vertex j, moved to cube c. |
| GPUStressSession.ReplicatedIndexAt | shell/renderSessions/GPUStressSession.cpp:568-581 | Index j of cube c is the cube's index j plus c times the vertex count, cast to uint16_t. |
| GPUStressSession.ReplicateStep | shell/renderSessions/GPUStressSession.cpp:554-581 | One pass of the outer loop turns i replicated cubes into i + 1. |
| GPUStressSession.ReplicatedPrefix | shell/renderSessions/GPUStressSession.cpp:542-581 | Cube 0 comes first, unchanged. |
| GPUStressSession.CubeUsesOwnVertices | shell/renderSessions/GPUStressSession.cpp:568-581 | While the vertex buffer is addressable by uint16_t, every index of cube c names a vertex of cube c: cube c's copy of the vertex the original index names. |
| GPUStressSession.IndexCastWrapsPastSixteenBits | shell/renderSessions/GPUStressSession.cpp:573 | With 8193 unlit cubes, the first index of cube 8192 wraps to vertex 0 of cube 0. |
| GPUStressSession.BuiltMeshCorners | shell/renderSessions/GPUStressSession.cpp:532-622 | In the mesh createCubes builds, index j of cube c names a vertex of cube c at indexData0's corner. With lights, that vertex carries the normal of face j / 6. |
| GPUStressSession.Resize | shell/renderSessions/GPUStressSession.cpp:632-633 | std::vector::resize: the new length, old entries kept, new entries zero. |
| GPUStressSession.Session.ShadeCorner | shell/renderSessions/GPUStressSession.cpp:259-276 | One index of the face loop keeps the in-face invariant: it is remapped, lit in place, or lit on a fresh copy. |
| GPUStressSession.ShadingEnds | shell/renderSessions/GPUStressSession.cpp:242-278 | After a face's six indices, the face is flat-shaded in the invariant of the face loop. |
| GPUStressSession.ShadedVertexCount | shell/renderSessions/GPUStressSession.cpp:242-278 | Once all six faces are shaded, the cube has exactly 24 vertices: each of the 8 corners is lit in place and the other 16 corner uses get a copy. |
| GPUStressSession.FaceCornersCovered | shell/renderSessions/GPUStressSession.cpp:242-278 | The six indices of a face name all four of its corners. |
| GPUStressSession.StepRemapped | shell/renderSessions/GPUStressSession.cpp:260-262 | A corner this face already gave a vertex: the index is redirected to that vertex, and the loop invariant holds. |
| GPUStressSession.StepFirstUse | shell/renderSessions/GPUStressSession.cpp:263-266 | A corner no face has lit yet: its vertex takes this face's normal in place. |
| GPUStressSession.StepDuplicate | shell/renderSessions/GPUStressSession.cpp:267-275 | A corner an earlier face lit: a copy of it is appended with this face's normal, and the index points to the copy. |
| GPUStressSession.DefaultQuads | shell/renderSessions/GPUStressSession.cpp:1115-1125 | n quads, each at the origin and of size 1 x 1, with a 1024 x 1024 image. |
| GPUStressSession.Session.constructor | shell/renderSessions/GPUStressSession.cpp:55-104 | Load-time state: default settings, eight thread slots of -1, indexData = indexData0, an empty vertex buffer and no reset pending. |
| GPUStressSession.Session.SetDrawCount | shell/renderSessions/GPUStressSession.cpp:998-1000 | Stores the count; GetDrawCount returns it; forceReset_ is untouched. |
| GPUStressSession.Session.SetNumThreads | shell/renderSessions/GPUStressSession.cpp:970-972 | Stores the value without touching forceReset_; GetNumThreads returns it. |
| GPUStressSession.Session.SetThrashMemory | shell/renderSessions/GPUStressSession.cpp:974-976 | Stores the value without touching forceReset_; GetThrashMemory returns it. |
| GPUStressSession.Session.SetMemoryReads | shell/renderSessions/GPUStressSession.cpp:983-985 | Stores the value without touching forceReset_; GetMemoryReads returns it. |
| GPUStressSession.Session.SetMemoryWrites | shell/renderSessions/GPUStressSession.cpp:986-988 | Stores the value without touching forceReset_; GetMemoryWrites returns it. |
| GPUStressSession.Session.SetGoSlowOnCpu | shell/renderSessions/GPUStressSession.cpp:989-991 | Stores the value; GetGoSlowOnCpu returns whether it is non-zero. |
| GPUStressSession.Session.SetDropFrameInterval | shell/renderSessions/GPUStressSession.cpp:1070-1076 | Stores the interval; GetDropFrameInterval returns it. |
| GPUStressSession.Session.SetDropFrameCount | shell/renderSessions/GPUStressSession.cpp:1078-1084 | Stores the count; GetDropFrameCount returns it. |
| GPUStressSession.Session.SetRotateCubes | shell/renderSessions/GPUStressSession.cpp:1086-1092 | Stores the flag; GetRotateCubes returns it. |
| GPUStressSession.Session.SetMemorySize | shell/renderSessions/GPUStressSession.cpp:977-982 | Stores the size. GetMemorySize returns it. forceReset_ becomes set iff the size changed, and a pending reset is kept. |
| GPUStressSession.Session.SetCubeCount | shell/renderSessions/GPUStressSession.cpp:992-997 | Stores the count. GetCubeCount returns it. forceReset_ becomes set iff it changed. |
| GPUStressSession.Session.SetTestOverdraw | shell/renderSessions/GPUStressSession.cpp:1001-1006 | Stores the flag. GetTestOverdraw returns it. forceReset_ becomes set iff it changed. |
| GPUStressSession.Session.SetEnableBlending | shell/renderSessions/GPUStressSession.cpp:1007-1012 | Stores the flag. GetEnableBlending returns it. forceReset_ becomes set iff it changed. |
| GPUStressSession.Session.SetUseMSAA | shell/renderSessions/GPUStressSession.cpp:1013-1018 | Stores the flag. GetUseMSAA returns it. forceReset_ becomes set iff it changed. |
| GPUStressSession.Session.SetLightCount | shell/renderSessions/GPUStressSession.cpp:1019-1024 | Stores the count. GetLightCount returns it. forceReset_ becomes set iff it changed. |
| GPUStressSession.Session.SetThreadCore | shell/renderSessions/GPUStressSession.cpp:1026-1028 | Writes the core to slot thread % threadCount, using C++'s remainder, and leaves every other slot; GetThreadsCores returns the slots. |
| GPUStressSession.Session.AddNormalsToCube | shell/renderSessions/GPUStressSession.cpp:242-278 | Without lights the cube is unchanged. With lights every index names a vertex of its own corner carrying its face's normal. The cube ends with exactly 24 vertices: each of the 8 corners is lit in place by its first face, and each of its other 16 face uses gets a fresh copy. |
| GPUStressSession.Session.ReplicateCubes | shell/renderSessions/GPUStressSession.cpp:554-581 | The buffers become the replicated vertices and shifted uint16_t indices of kCubeCount cubes, or of one cube when the count is below 1. |
| GPUStressSession.Session.AppendCubeVertices | shell/renderSessions/GPUStressSession.cpp:557-566 | Appends one copy of the base vertices, placed in the given cube. |
| GPUStressSession.Session.AppendCubeIndices | shell/renderSessions/GPUStressSession.cpp:568-581 | Appends the base indices plus the offset, cast to uint16_t. |
| GPUStressSession.Session.CreateCubes | shell/renderSessions/GPUStressSession.cpp:532-622 | Leaves the mesh built from one (optionally flat-shaded) cube for the current settings. |
| GPUStressSession.Session.Initialize | shell/renderSessions/GPUStressSession.cpp:624-681 | Clears vertexData and resizes indexData to 36 entries. On a compatible device it builds the cubes; otherwise it stops there. |
| GPUStressSession.Session.Update | shell/renderSessions/GPUStressSession.cpp:900-913 | Nothing on an incompatible device or with no reset pending. Otherwise the flag is cleared and the mesh rebuilt for the current settings. |
| GPUStressSession.Session.SetNumLayers | shell/renderSessions/GPUStressSession.cpp:1115-1125 | The app's quad parameters become numLayers default quads, so their NumQuads (numQuads(), the number of positions) is numLayers. |
| VulkanStagingDevice.AlignedSizeBounds | src/igl/vulkan/VulkanStagingDevice.cpp:512-515 | GetAlignedSize returns a multiple of 16, at least the size and less than 16 above it. |
| VulkanStagingDevice.AlignedSizeIsSmallest | src/igl/vulkan/VulkanStagingDevice.cpp:512-515 | No multiple of 16 that holds the size is smaller than GetAlignedSize's result. |
| VulkanStagingDevice.AlignedSizeWrapsAtTheTop | src/igl/vulkan/VulkanStagingDevice.cpp:512-515 | On a 64-bit VkDeviceSize, the largest sizes wrap around and align to 0. |
| VulkanStagingDevice.NextSize | src/igl/vulkan/VulkanStagingDevice.cpp:534-536 | The aligned request capped at the maximum size. It is at least the request whenever the request is within the maximum. |
| VulkanStagingDevice.MaxStagingBufferSizeFor | src/igl/vulkan/VulkanStagingDevice.cpp:26-41 | min(maxStorageBufferRange, 256 MB). |
| VulkanStagingDevice.RemoveKeepsInvariant | src/igl/vulkan/VulkanStagingDevice.cpp:106-155 | Erasing a region keeps the deque pairwise disjoint and inside the buffer, and the erased region overlaps none that stay. |
| VulkanStagingDevice.PushFrontKeepsInvariant | src/igl/vulkan/VulkanStagingDevice.cpp:120-126 | Pushing a fitting, disjoint region to the front keeps the deque disjoint and inside the buffer. |
| VulkanStagingDevice.PushBackKeepsInvariant | src/igl/vulkan/VulkanStagingDevice.cpp:80-82 | Pushing a fitting, disjoint region to the back keeps the deque disjoint and inside the buffer. |
| VulkanStagingDevice.BestIsLargestReady | src/igl/vulkan/VulkanStagingDevice.cpp:130-155 | The candidate is the front region or a ready one. No ready region is larger, and every ready region before it is strictly smaller. |
| VulkanStagingDevice.BusyFrontRegionKeepsCandidate | src/igl/vulkan/VulkanStagingDevice.cpp:104-155 | A busy front region at least as large as every ready region keeps the candidate, so the search falls through to the full wait. |
| VulkanStagingDevice.FirstFit | src/igl/vulkan/VulkanStagingDevice.cpp:106-128 | The first ready region of at least the aligned size. When there is none, no ready region is large enough. |
| VulkanStagingDevice.HandlesOf | src/igl/vulkan/VulkanStagingDevice.cpp:517-528 | Exactly the submit handles of the regions. |
| VulkanStagingDevice.TilesAppend | src/igl/vulkan/VulkanStagingDevice.cpp:60-84 | A non-empty chunk that starts where the tiling ends extends it by its size. |
| VulkanStagingDevice.TilesCoverEachByteOnce | src/igl/vulkan/VulkanStagingDevice.cpp:60-84 | Every byte of the range is moved by exactly one chunk, to the matching buffer offset. |
| VulkanStagingDevice.TilesStartAbove | src/igl/vulkan/VulkanStagingDevice.cpp:60-84 | Chunks are in increasing, non-overlapping order. |
| VulkanStagingDevice.DownloadMemcpy | src/igl/vulkan/VulkanStagingDevice.cpp:221 | The corrected copy: the capacity is what is left of the destination, and the count, the chunk's share, never exceeds it. |
| VulkanStagingDevice.ChunkDstOffsetAsWritten | src/igl/vulkan/VulkanStagingDevice.cpp:53 | As written: the uint32_t destination offset is always below 2^32, and is the true offset only while start plus consumed bytes fits in 32 bits. |
| VulkanStagingDevice.ChunkDstOffsetTruncatesLargeOffsets | src/igl/vulkan/VulkanStagingDevice.cpp:53 | A destination offset of exactly 4 GiB sends the first chunk to offset 0. |
| VulkanStagingDevice.ChunkDstOffsetAgreesBelow4GiB | src/igl/vulkan/VulkanStagingDevice.cpp:53 | Below 4 GiB the corrected and the as-written offsets agree. |
| VulkanStagingDevice.DownloadMemcpyAsWritten | src/igl/vulkan/VulkanStagingDevice.cpp:221 | As written: the capacity passed to memcpy is size minus the source offset in size_t, and the count is the whole chunk. |
| VulkanStagingDevice.DownloadCapacityMixesInSourceOffset | src/igl/vulkan/VulkanStagingDevice.cpp:221 | With a 16-byte destination, source offset 8 and one 16-byte chunk, the capacity 8 is below the count 16. |
| VulkanStagingDevice.Remove | src/igl/vulkan/VulkanStagingDevice.cpp:106-155 | Erasing region i keeps the regions before it and shifts the ones after it down by one. |
| VulkanStagingDevice.StagingDevice.FindFreeBlock | src/igl/vulkan/VulkanStagingDevice.cpp:96-184 | After any growth: the block fits the buffer, is disjoint from the regions left, and is the specified first-fit, best-fit or reset outcome. No new work is left pending. |
| VulkanStagingDevice.StagingDevice.CompleteWork | src/igl/vulkan/VulkanStagingDevice.h:25-34 | The GPU finishing submitted work: the finished handles become ready, and nothing else changes. |
| VulkanStagingDevice.ChunkDstOffset | src/igl/vulkan/VulkanStagingDevice.cpp:53 | The corrected offset: each chunk's destination is the start offset plus the bytes already consumed, at full width. |
| VulkanStagingDevice.FirstFitOutcome | src/igl/vulkan/VulkanStagingDevice.cpp:106-128 | When a first fit exists, the first-fit split is the specified outcome. |
| VulkanStagingDevice.BestFitOutcome | src/igl/vulkan/VulkanStagingDevice.cpp:130-155 | When the candidate is ready, handing it out whole is the specified outcome. |
| VulkanStagingDevice.ResetOutcome | src/igl/vulkan/VulkanStagingDevice.cpp:163-183 | Otherwise, waiting for everything and taking the front of the buffer is the specified outcome. |
| VulkanStagingDevice.WholeBufferOutcome | src/igl/vulkan/VulkanStagingDevice.h:99-107 | On a freshly reset buffer, the block holds min(size, buffer size) and nothing is waited for. |
| VulkanStagingDevice.StagingDevice.constructor | src/igl/vulkan/VulkanStagingDevice.cpp:26-41 | The maximum is the device limit capped at 256 MB. The size and counter start at 0, there is no buffer, and the deque is empty. |
| VulkanStagingDevice.StagingDevice.GetCurrentStagingBufferSize | src/igl/vulkan/VulkanStagingDevice.h:82-84 | Under the invariant, the current size is at most the maximum, and 0 exactly when there is no staging buffer. |
| VulkanStagingDevice.StagingDevice.GetMaxStagingBufferSize | src/igl/vulkan/VulkanStagingDevice.h:87-89 | Under the invariant, the maximum is positive and at most 256 MB. |
| VulkanStagingDevice.StagingDevice.Submit | src/igl/vulkan/VulkanStagingDevice.cpp:79-82 | A fresh, non-empty handle whose commands are in flight. |
| VulkanStagingDevice.StagingDevice.Wait | src/igl/vulkan/VulkanStagingDevice.cpp:217-219 | The waited handle is ready on return. |
| VulkanStagingDevice.StagingDevice.WaitAndReset | src/igl/vulkan/VulkanStagingDevice.cpp:517-528 | Every region's handle is waited on. The deque becomes the single region {0, size, size}. |
| VulkanStagingDevice.StagingDevice.GrowStagingBuffer | src/igl/vulkan/VulkanStagingDevice.cpp:538-579 | The buffer size becomes the minimum size, and the counter grows by one in uint32. Deferred tasks are waited for when size + old size exceeds the maximum. Every region is waited for. The deque is one full-buffer region. |
| VulkanStagingDevice.StagingDevice.NextFreeBlock | src/igl/vulkan/VulkanStagingDevice.cpp:87-184 | Grows the buffer iff ShouldGrowStagingBuffer holds (there is no buffer yet, or the aligned size exceeds it), then searches: first fit, then the ready candidate, then reset. The block lies in the buffer, disjoint from the regions left. The buffer holds at least nextSize. |
| VulkanStagingDevice.StagingDevice.TakeFirstFit | src/igl/vulkan/VulkanStagingDevice.cpp:106-128 | The block is {offset, size, aligned size} of the first fit. The region is erased, and a non-empty remainder is pushed to the front. |
| VulkanStagingDevice.StagingDevice.TakeBest | src/igl/vulkan/VulkanStagingDevice.cpp:130-155 | The ready candidate is returned whole and erased. |
| VulkanStagingDevice.StagingDevice.ResetAndTakeFront | src/igl/vulkan/VulkanStagingDevice.cpp:163-183 | Everything is waited for. The block is {0, min(size, bufSize), min(aligned, bufSize)}. Only a non-empty unused tail stays in the deque. |
| VulkanStagingDevice.StagingDevice.ScanRegions | src/igl/vulkan/VulkanStagingDevice.cpp:106-155 | The scan finds the first fit; failing that, the largest-ready candidate. |
| VulkanStagingDevice.StagingDevice.BufferSubData | src/igl/vulkan/VulkanStagingDevice.cpp:43-85 | A mapped buffer is written directly and the deque is left alone. Otherwise the chunks tile [dstOffset, dstOffset + size) in order. Chunk k is staged in its own region, submitted under the k-th new handle, and fills that region unless it is the last chunk. One handle is used per chunk. After a non-empty upload, the last chunk is still busy at the back of the deque. An empty upload changes nothing. |
| VulkanStagingDevice.StagingDevice.UploadChunk | src/igl/vulkan/VulkanStagingDevice.cpp:60-84 | One chunk copies min(remaining, chunk size) bytes, at least one, from the chunk's staging offset to the next destination offset. The chunk is pushed to the back of the deque under the next submit handle and stays pending. |
| VulkanStagingDevice.StagingDevice.SubmitUpload | src/igl/vulkan/VulkanStagingDevice.cpp:79-82 | The copy is submitted; the chunk goes to the back of the deque with the new handle. |
| VulkanStagingDevice.StagingDevice.GetBufferSubData | src/igl/vulkan/VulkanStagingDevice.cpp:186-229 | A mapped buffer is read directly. Otherwise the chunks tile the source range in order, and every copy is waited for, so the data is complete on return. |
| VulkanStagingDevice.StagingDevice.DownloadChunk | src/igl/vulkan/VulkanStagingDevice.cpp:196-228 | One chunk copies min(remaining, chunk size) bytes, at least one, from the next source offset into the chunk. It is waited for and pushed back to the front of the deque with no handle. The memcpy uses the corrected bounds, so it stays inside the destination. |
| VulkanStagingDevice.StagingDevice.SubmitDownload | src/igl/vulkan/VulkanStagingDevice.cpp:213-226 | The copy is submitted and waited for; the chunk goes back to the front of the deque. |
| VulkanStagingDevice.StagingDevice.ImageData | src/igl/vulkan/VulkanStagingDevice.cpp:231-397 | The image goes up in one block of at least the storage size, found on the second try after a full reset if needed. The block returns to the front of the deque with its pending handle. |
| VulkanStagingDevice.StagingDevice.GetImageData2D | src/igl/vulkan/VulkanStagingDevice.cpp:399-510 | The same single-block retry, with every copy waited for. Without a mapped pointer the block does not return to the deque. |
| VulkanStagingDevice.StagingDevice.AcquireWholeBlock | src/igl/vulkan/VulkanStagingDevice.cpp:252-263 | The retry yields a fitting block, disjoint from the deque, of at least the storage size. |
| XrShell.FirstStereo | shell/openxr/mobile/XrApp.cpp:288-368 | The first primary-stereo configuration at or after an index; None iff there is none. |
| XrShell.StateChange | shell/openxr/mobile/XrApp.cpp:1277-1301 | READY: active iff xrBeginSession succeeds. STOPPING: inactive. Every other state: unchanged. |
| XrShell.LastLifecycle | shell/openxr/mobile/XrApp.cpp:1202-1266 | The last READY or STOPPING event, or None iff there is none. |
| XrShell.ActiveAfterAppend | shell/openxr/mobile/XrApp.cpp:1202-1266 | One more polled event applies its own effect after the earlier ones. |
| XrShell.ActiveAfterIsLastLifecycle | shell/openxr/mobile/XrApp.cpp:1202-1266 | After a run of events, sessionActive_ is decided by the last READY or STOPPING event alone; with none it is unchanged. |
| XrExtensions.Supported | shell/openxr/mobile/XrApp.cpp:185-200 | The names both listed and reported by the runtime, in order. |
| XrExtensions.CheckRequired | shell/openxr/mobile/XrApp.cpp:141-148 | True iff every required name is in the runtime's list. |
| XrExtensions.EnableRequired | shell/openxr/mobile/XrApp.cpp:150-164 | The enabled list after the loop is AppendMissing of the required names. |
| XrExtensions.SupportedAppend | shell/openxr/mobile/XrApp.cpp:188-200 | Filtering a list extended by one name extends the filtered list by that name iff the runtime lists it. |
| XrExtensions.AppendMissingSpec | shell/openxr/mobile/XrApp.cpp:149-164 | Pushing the names not yet enabled keeps the old list as a prefix, adds exactly the new names, and keeps a duplicate-free list duplicate-free. |
| XrExtensions.AppendMissingNothingNew | shell/openxr/mobile/XrApp.cpp:149-164 | Pushing names that are all enabled already changes nothing. |
| XrExtensions.NegotiatedExtensions | shell/openxr/mobile/XrApp.cpp:141-203 | The enabled list is the old list, then the required names, then the supported optional ones. It contains exactly those and none twice. |
| XrAppMobile.EnableOptional | shell/openxr/mobile/XrApp.cpp:188-200 | Each optional name the runtime lists is enabled once, if new, in order, and recorded as supported. |
| XrAppMobile.OptionalExtensionList | shell/openxr/mobile/XrApp.cpp:166-184 | The optional list: the implementation's, passthrough's, hands' and the three added names. |
| XrAppMobile.XrApp.constructor | shell/openxr/XrApp.h:136-351 | Initial state: not initialized, resumed or active. Main-thread polling on and async polling off. No SPS, one quad layer, quad composition as configured. No handles. Rate 0 and no rates. |
| XrAppMobile.XrApp.SetResumed | shell/openxr/XrApp.h:163-172 | Writes resumed_ only, and resumed() reads it back. |
| XrAppMobile.XrApp.PassthroughEnabled | shell/openxr/mobile/XrApp.cpp:1725-1731 | Needs a render session and a passthrough object. The app's answer decides; without one, quad composition does. |
| XrAppMobile.XrApp.CheckExtensions | shell/openxr/mobile/XrApp.cpp:110-204 | Fails, enabling nothing, iff the enumeration function is missing or a required extension is unsupported. On success the enabled and supported sets are as NegotiatedExtensions says. PassthroughSupported and the other capability predicates, and so passthroughSupported() through alphaBlendCompositionSupported(), test membership in that supported set. |
| XrAppMobile.XrApp.EnumerateViewConfigurations | shell/openxr/mobile/XrApp.cpp:288-368 | Succeeds exactly when the view counts check out. The viewports come from the first primary-stereo configuration, and are unchanged when there is none. |
| XrAppMobile.XrApp.UpdateSwapchainProviders | shell/openxr/mobile/XrApp.cpp:408-432 | n providers with SPS, else 2n. The list is rebuilt only when its size differs, and then provider k is made from viewport k mod the views per provider. |
| XrAppMobile.ProjectionViewsUseTheirProviders | shell/openxr/mobile/XrApp.cpp:1414-1457 | Every projection view names an existing provider. With SPS, layer 2i+v uses provider i at sub-image v; otherwise provider 2i+v at sub-image 0. |
| XrAppMobile.XrApp.BeginFrame | shell/openxr/mobile/XrApp.cpp:1303-1365 | The quad parameters come from the session, or the default. numQuadLayersPerView_ is numQuads() when positive, else 1. The providers are resized to match. The frame time is the predicted one. |
| XrAppMobile.XrApp.Render | shell/openxr/mobile/XrApp.cpp:1376-1412 | One pass per provider, in order. With SPS, all views of quad layer k. Otherwise view k mod 2 of quad layer k / 2. The quad layer is passed only under quad composition. |
| XrAppMobile.XrApp.SetupProjectionAndDepth | shell/openxr/mobile/XrApp.cpp:1414-1457 | 2n projection views, view 2i+v at ProjectionViewAt. |
| XrAppMobile.XrApp.EnvironmentBlend | shell/openxr/mobile/XrApp.cpp:1490-1491 | ADDITIVE iff additive blending is supported, else OPAQUE. |
| XrAppMobile.XrApp.EndFrameProjectionComposition | shell/openxr/mobile/XrApp.cpp:1459-1496 | The passthrough layer first if enabled, then one projection layer with view count kNumViews (2) carrying all 2n projection views. Chromatic-aberration correction, plus source alpha under passthrough. The predicted display time and the environment blend. |
| XrAppMobile.XrApp.EndFrameQuadLayerComposition | shell/openxr/mobile/XrApp.cpp:1498-1589 | The passthrough layer first if enabled, then 2n quad layers. Layer 2i+v is quad i's eye v with projection view 2i+v's sub-image. The predicted display time and the environment blend. |
| XrAppMobile.XrApp.QuadLayers | shell/openxr/mobile/XrApp.cpp:1518-1568 | The quad loop yields QuadLayerAt for every layer, with the corrected blend-record index. |
| XrAppMobile.QuadEyesAgree | shell/openxr/mobile/XrApp.cpp:1518-1568 | Corrected: both eyes of a quad share blend record, flags, pose and size, and are left then right. |
| XrAppMobile.QuadEyesDisagreeAsWritten | shell/openxr/mobile/XrApp.cpp:1536 | As written, two eyes of one quad can get different blend records, and one quad's right eye reads past blendModes_. |
| XrAppMobile.XrApp.EndFrame | shell/openxr/mobile/XrApp.cpp:1591-1597 | Quad layers under quad composition, one projection layer otherwise. Passthrough first if enabled. |
| XrAppMobile.XrApp.Update | shell/openxr/mobile/XrApp.cpp:1599-1611 | Nothing unless initialized, resumed and active. Otherwise the frame is begun: the quad parameters come from the getter, or the defaults, with one quad layer per quad and at least one. Then one pass per provider is rendered, in provider order. The frame ends at the predicted time with the environment blend mode, an optional passthrough layer first, and then the 2n quad layers or the one projection layer that endFrame builds. |
| XrAppMobile.XrApp.HandleSessionStateChanges | shell/openxr/mobile/XrApp.cpp:1277-1301 | Requires READY only while inactive and STOPPING only while active. READY sets active iff xrBeginSession succeeds; STOPPING clears it. |
| XrAppMobile.XrApp.HandleXrEvents | shell/openxr/mobile/XrApp.cpp:1202-1266 | Events are handled in order until the poll fails. Only READY and STOPPING state changes reach the handler. |
| XrAppMobile.XrApp.QueryCurrentRefreshRate | shell/openxr/mobile/XrApp.cpp:1622-1627 | The reported rate when the call succeeds, else unchanged. |
| XrAppMobile.XrApp.GetCurrentRefreshRate | shell/openxr/mobile/XrApp.cpp:1613-1620 | The cached rate. The runtime is queried only with a session, the extension, and no rate yet. |
| XrAppMobile.XrApp.QuerySupportedRefreshRates | shell/openxr/mobile/XrApp.cpp:1697-1719 | Fills the cache once, sorted, when both enumeration calls succeed. |
| XrAppMobile.SortRatesSpec | shell/openxr/mobile/XrApp.cpp:1711 | SortRates, the model of std::sort, returns the rates ordered, each as often as before. |
| XrAppMobile.LastIsLargest | shell/openxr/mobile/XrApp.cpp:1629-1643 | The last of a sorted list is its largest element. |
| XrAppMobile.XrApp.GetSupportedRefreshRates | shell/openxr/mobile/XrApp.cpp:1685-1695 | The cache, filled on first use. |
| XrAppMobile.XrApp.GetMaxRefreshRate | shell/openxr/mobile/XrApp.cpp:1629-1643 | 0 without a session, the extension or any rate; otherwise the last sorted rate. |
| XrAppMobile.XrApp.IsRefreshRateSupported | shell/openxr/mobile/XrApp.cpp:1675-1683 | True iff there is a session, the extension is supported and the rate is in the list. |
| XrAppMobile.XrApp.SetRefreshRate | shell/openxr/mobile/XrApp.cpp:1645-1661 | True iff there is a session, the rate differs from the current one, it is supported, and the runtime accepts it. Only then is currentRefreshRate_ updated. |
| XrAppMobile.XrApp.SetMaxRefreshRate | shell/openxr/mobile/XrApp.cpp:1663-1673 | The supported-rate cache is filled as by getSupportedRefreshRates. The rate becomes the last supported rate exactly when there is a session, the extension is supported, and that rate is above 0, differs from the current rate and is accepted by the runtime. Otherwise the current rate is unchanged. |
| XrAppMobile.XrApp.SetSharpeningEnabled | shell/openxr/mobile/XrApp.cpp:1760-1776 | Where layer settings are supported, IsSharpeningEnabled (layer settings supported and the sharpening bit set) becomes the argument. Elsewhere the flags are unchanged. No other bit changes. |
| XrAppMobile.XrApp.Initialize | shell/openxr/mobile/XrApp.cpp:434-532 | False if already initialized, changing nothing. Otherwise true iff every step succeeds in order, and initialized_ is set only then. On success: every handle, the providers, SPS iff multiview, and the negotiated extensions. |
| XrAppMobile.XrApp.CreateSession | shell/openxr/mobile/XrApp.cpp:434-495 | Extensions, instance, system, stereo views, device and session in order; true iff all succeed. |
| XrAppMobile.XrApp.CreateInstanceAndSystem | shell/openxr/mobile/XrApp.cpp:458-469 | Succeeds iff the extension check, the instance and the system all succeed; the negotiated extensions are recorded. |
| XrAppMobile.XrApp.CreateSessionResources | shell/openxr/mobile/XrApp.cpp:496-499 | Records stage-space and additive-blend support, builds the providers, and creates both spaces. |
| XrAppMobile.XrApp.AfterSession | shell/openxr/mobile/XrApp.cpp:496-532 | Sets initialized_ iff passthrough and hands initialise wherever they are supported. |
| XrAppMobile.XrApp.InitFeatures | shell/openxr/mobile/XrApp.cpp:500-511 | Each feature is created when its extension is supported. Fails iff a created one fails to initialise. |
| XrAppMobile.XrApp.InitRefreshRate | shell/openxr/mobile/XrApp.cpp:512-519 | Without the extension nothing changes. With it, the current rate is first queried. UseDefault keeps the queried rate. UseMaxRefreshRate fills the cache and moves to the maximum under setMaxRefreshRate's condition. UseSpecificRefreshRate moves to the requested rate iff there is a session, the rate differs from the queried one, and it is supported and accepted. In every other case the queried rate stays. |
| XrAppMobile.XrApp.Teardown | shell/openxr/mobile/XrApp.cpp:77-100 | Nothing before initialization. Afterwards each non-null handle is destroyed, spaces first, then the session and the instance. |
| XrAppDesktop.DesktopXrApp.constructor | shell/openxr/src/XrApp.h:138-280 | Initial state: not initialized, resumed or active. Main-thread polling on and async off. No SPS. Refresh and sharpening defaults. Hand scales 1. |
| XrAppDesktop.DesktopXrApp.SetResumed | shell/openxr/src/XrApp.h:149-157 | Writes resumed_ only, and resumed() reads it back. |
| XrAppDesktop.DesktopXrApp.CheckExtensions | shell/openxr/desktop/XrApp.cpp:81-124 | The implementation's required list is added. The call fails iff the enumeration function is missing or a required extension is unsupported. |
| XrAppDesktop.DesktopXrApp.CreateInstance | shell/openxr/desktop/XrApp.cpp:126-159 | On success the instance enables exactly the required list; on failure nothing changes. |
| XrAppDesktop.DesktopXrApp.EnumerateViewConfigurations | shell/openxr/desktop/XrApp.cpp:188-256 | As on mobile: the view counts decide, and the first stereo configuration gives the viewports. |
| XrAppDesktop.DesktopXrApp.CreateSwapchainProviders | shell/openxr/desktop/XrApp.cpp:275-289 | With SPS, one provider of two views; otherwise one provider per view, made from its viewport. Earlier providers are kept. |
| XrAppDesktop.DesktopViewsUseTheirProviders | shell/openxr/desktop/XrApp.cpp:729-800 | Every projection view names an existing provider and one of its sub-images. |
| XrAppDesktop.DesktopXrApp.Initialize | shell/openxr/desktop/XrApp.cpp:291-338 | False if already initialized. Otherwise true iff every step succeeds, with initialized_ set last. On success the handles and stage support are recorded, and the appended providers are DesktopProviderAt of the negotiated viewports, one per view or one for both under SPS. |
| XrAppDesktop.DesktopXrApp.CreateSession | shell/openxr/desktop/XrApp.cpp:291-330 | The bootstrap up to the session in order; true iff every step succeeds. |
| XrAppDesktop.DesktopXrApp.CreateSessionResources | shell/openxr/desktop/XrApp.cpp:329-335 | Records stage-space support, appends the providers (DesktopProviderAt of each view's viewport, keeping the earlier ones), creates the spaces and actions, and sets initialized_. |
| XrAppDesktop.DesktopXrApp.HandleSessionStateChanges | shell/openxr/desktop/XrApp.cpp:618-641 | READY requires resumed and inactive, and sets active iff xrBeginSession succeeds. STOPPING requires paused and active, and clears it. |
| XrAppDesktop.StoppingNeedsPause | shell/openxr/desktop/XrApp.cpp:634-640 | A STOPPING right after READY while still resumed breaks the handler's assertion. |
| XrAppDesktop.DesktopXrApp.HandleXrEvents | shell/openxr/desktop/XrApp.cpp:553-616 | The polled events in order; only READY and STOPPING reach the handler. |
| XrAppDesktop.DesktopXrApp.Render | shell/openxr/desktop/XrApp.cpp:699-727 | With SPS, one pass of provider 0 for all views; otherwise provider i for view i. |
| XrAppDesktop.DesktopXrApp.EndFrame | shell/openxr/desktop/XrApp.cpp:729-827 | Two quad layers, or one projection layer of two views, at the predicted display time, with OPAQUE unless additive blending is supported. |
| XrAppDesktop.HapticControllersSpec | shell/openxr/desktop/XrApp.cpp:860-884 | The controllers pulsed are exactly those with an active grab above 0.9, each once, in order. |
| XrAppDesktop.PollControllers | shell/openxr/desktop/XrApp.cpp:852-891 | handActive starts false and then takes each pose's activity. An active grab rescales its hand. |
| XrAppDesktop.DesktopXrApp.PollActions | shell/openxr/desktop/XrApp.cpp:840-901 | Nothing unless all three flags hold and the thread's polling flag is on. Otherwise actions are synced and the controllers polled. Exit is requested iff the quit action is active, changed and true. |
| XrAppDesktop.DesktopXrApp.Update | shell/openxr/desktop/XrApp.cpp:829-838 | Nothing unless initialized, resumed and active. Otherwise pollActions runs on the main thread: with main-thread polling enabled, each hand's active flag and scale follow its controller; without it, nothing changes. Then the per-view or single render passes run, and the frame ends with the two quad layers or the projection layer that endFrame builds. |
| XrAppDesktop.DesktopXrApp.Teardown | shell/openxr/desktop/XrApp.cpp:61-71 | Nothing before initialization. Afterwards the providers are cleared and both spaces, the session and the instance are destroyed. |
| XrCompositionQuad.QuadRecordsSpec | shell/openxr/XrCompositionQuad.cpp:50-97 | The two eye records share flags, blend chain, pose and size. Left comes before right. With SPS provider 0 at sub-image v, else provider v at sub-image 0. Each rect covers its view's whole image. The blend record is chained iff supported and additive. |
| XrCompositionQuad.QuadFlagsKeepOtherBits | shell/openxr/XrCompositionQuad.cpp:57-81 | Every caller flag other than SOURCE_ALPHA is kept. |
| XrCompositionQuad.QuadFlagsSourceAlpha | shell/openxr/XrCompositionQuad.cpp:57-81 | SOURCE_ALPHA is set iff the caller set it or the quad is alpha-blended. |
| XrCompositionQuad.CompositionQuad.constructor | shell/openxr/XrCompositionQuad.cpp:14-35 | Stores the SPS flag, alpha-blend support, sizes, position, size and blend mode, with two zeroed records. |
| XrCompositionQuad.CompositionQuad.UpdatePosition | shell/openxr/XrCompositionQuad.cpp:37-39 | Replaces the position only. |
| XrCompositionQuad.CompositionQuad.UpdateSize | shell/openxr/XrCompositionQuad.cpp:41-43 | Replaces the size only. |
| XrCompositionQuad.CompositionQuad.UpdateBlendMode | shell/openxr/XrCompositionQuad.cpp:45-47 | Replaces the blend mode only. |
| XrCompositionQuad.CompositionQuad.DoComposition | shell/openxr/XrCompositionQuad.cpp:50-97 | Rewrites both eye records from the current state and appends them, left then right, after the caller's layers, which are kept. |
| XrSwapchain.CreateInfoSpec | shell/openxr/XrSwapchainProvider.cpp:83-93 | Usage has SAMPLED and the extra bits. One sample, face and mip, the provider's size, and one layer per view. |
| XrSwapchain.DestroyedSwapchains | shell/openxr/XrSwapchainProvider.cpp:28-35 | Exactly the non-null swapchains, colour first. |
| XrSwapchain.SwapchainProvider.constructor | shell/openxr/XrSwapchainProvider.cpp:17-26 | Stores the image info and views; no swapchain yet. |
| XrSwapchain.SwapchainProvider.Initialize | shell/openxr/XrSwapchainProvider.cpp:37-79 | True iff both chosen formats are listed. A format not requested is the back end's preferred one; for GLES, GlesSwapchainImpl.PreferredColorFormat is GL_SRGB8_ALPHA8 and PreferredDepthFormat is GL_DEPTH_COMPONENT16. An unlisted colour format stops before anything is created. An unlisted depth format stops after the colour swapchain. On success both are created with their formats and the images are enumerated. |
| XrSwapchain.SwapchainProvider.CreateXrSwapchain | shell/openxr/XrSwapchainProvider.cpp:81-102 | One xrCreateSwapchain with CreateInfo; the runtime's handle is returned. |
| XrSwapchain.SwapchainProvider.ReleaseSwapchainImages | shell/openxr/XrSwapchainProvider.cpp:109-113 | Releases the colour image, then the depth image. |
| XrSwapchain.SwapchainProvider.Destroy | shell/openxr/XrSwapchainProvider.cpp:28-35 | Destroys exactly DestroyedSwapchains. |
| XrSwapchainGles.Grow | shell/openxr/mobile/opengl/XrSwapchainProviderImplGLES.cpp:62-64 | Growth makes the cache long enough, keeps every slot and appends null ones. |
| XrSwapchainGles.SurfaceTexture | shell/openxr/mobile/opengl/XrSwapchainProviderImplGLES.cpp:44-86 | The cache becomes long enough, and other slots are kept. A matching texture is reused. Otherwise a new one is created and stored, or on failure none is returned and the slot is left. |
| XrSwapchainGles.SurfaceTextureReuse | shell/openxr/mobile/opengl/XrSwapchainProviderImplGLES.cpp:66-85 | A returned texture has the view's size. Asking again returns it without creating one, and the cache is unchanged. |
| XrSwapchainGles.GlesSwapchainImpl.EnumerateImages | shell/openxr/mobile/opengl/XrSwapchainProviderImplGLES.cpp:89-98 | Each image list becomes exactly what the runtime reports for its swapchain. |
| XrSwapchainGles.GlesSwapchainImpl.GetSurfaceTextures | shell/openxr/mobile/opengl/XrSwapchainProviderImplGLES.cpp:100-119 | Colour, then depth, each through its own cache, as SurfaceTexture says. |
| XrSwapchainGles.EnumerateSwapchainImages | shell/openxr/mobile/opengl/XrSwapchainProviderImplGLES.cpp:20-42 | The output holds exactly the enumerated images, in order. |

## Left out

- Calls into the OpenXR runtime, Vulkan, EGL/GL and the Android allocator are not modelled. Their results are parameters.
- Instance, session, space and action creation are modelled by whether their handles are null, and action binding tables are not modelled.
- Poses, fields of view, matrices and other floating-point work are not modelled: view locating, projection matrices, animation and lighting in the stress session.
- Refresh rates and grab values are copied and compared only.
- Concurrency is not modelled: the futures, atomics and thread affinity of the stress session, and pollActions called from an auxiliary thread.
- Fences are replaced by the pending-handle set, and the GPU finishing work is an explicit `CompleteWork` step.
- Platform bootstrap is not modelled. The Android main loop, window creation and render-session factories only call setResumed or supply a surface.
- Image barriers, command buffers and debug labels in imageData/getImageData2D are not modelled; only their use of the staging deque is.
- File I/O in BitmapWriter is not modelled. The output is the byte sequence written, and a failed open is a parameter.
- XR_CHECK has no definition in this model. A result it wraps is treated as ignored.
- The int32 casts of image widths and heights stored into OpenXR rects are not modelled.
- kSwapchainImageInvalidFormat has no definition in this model. Nothing proved depends on its value.
- The swapchain provider's getSurfaceTextures delegation to its back end, and the header-only currentImageIndex and colour/depth accessors, are not modelled: the header does not match the .cpp.
- `XrAppMobile.XrApp.EndFrameQuadLayerComposition` requires the quad parameters to have a size and blend mode for each quad. The source indexes them without a check, and a shorter list is undefined behaviour. `EndFrame` and `Update` ask for this only under quad composition, so projection composition also accepts parameters with no blend modes, such as the stress session's.
- `XrAppMobile.XrApp.HandleSessionStateChanges` and `XrAppDesktop.DesktopXrApp.HandleSessionStateChanges` take the handler's plain `assert`s on the session state (mobile `XrApp.cpp:1280-1282`) as preconditions.
- `VulkanStagingDevice.StagingDevice.GrowStagingBuffer` takes the IGL_ASSERT `minimumSize <= maxStagingBufferSize_` as a precondition.
- `VulkanStagingDevice.StagingDevice.NextFreeBlock` and `GrowStagingBuffer` also require a nonzero size, which no assertion in the source checks. The chunk loops call `nextFreeBlock` only while bytes remain (`VulkanStagingDevice.cpp:59-61`, `203-205`); an image upload of zero bytes, and the zero-sized staging buffer it would create, are not modelled.
- `NextFreeBlock` models requests below 2^64 - 15, the range where getAlignedSize does not wrap. `AlignedSizeWrapsAtTheTop` shows the wrap itself.
- `VulkanStagingDevice.StagingDevice.BufferSubData` uses the corrected full-width destination offset. The uint32 truncation is under Findings.
- `VulkanStagingDevice.StagingDevice.DownloadChunk` uses the corrected memcpy bounds. The code as written is under Findings.
- `XrAppMobile.XrApp.QuadLayers` uses the corrected blend-record index. The code as written is under Findings.
- `GPUStressSession.Session.SetThreadCore` requires a non-zero thread count and a slot in range. The source would divide by zero or write out of bounds otherwise.
- `AndroidNativeHWBuffer.GetNativeHWBufferUsage` has the 64-bit accumulator truncated to the 32-bit return type. Only bits that fit are defined.
- `VulkanCommon.ResourceStorageToVkMemoryPropertyFlags` returns no flags for Invalid storage, as a release build does. The debug assertion is not modelled.
- `XrAppDesktop.DesktopXrApp.constructor` does not state handActive's initial value, because the header leaves it uninitialised.
- `VulkanNativeHWBuffer.NativeHWTextureBuffer.CreateHWBuffer` and `Create` take the build's `__ANDROID_MIN_SDK_VERSION__ >= 33` setting as the `apiLevel33` parameter.
- TextureRangeDesc's atFace and atLayer are not part of this model. `VulkanCommon.AtVkLayer` takes them as selecting one face or one layer and keeping the rest of the range.
- Texture-format conversions and the other test-only helpers whose implementations lie outside the files this model covers are not modelled.
- `JniRegistry.SampleLib.SetActiveBackendVersion` does not model the log call. That call dereferences the optional even when a null Java object left it empty (`Jni.cpp:193-196`, `74-76`), which is undefined behaviour; the model just stores None. Logging elsewhere is not modelled either.

## Findings

| source | as written | input that shows it | evidently intended | confidence | as-written member | corrected member |
|---|---|---|---|---|---|---|
| src/igl/vulkan/VulkanStagingDevice.cpp:53 | `chunkDstOffset` is a uint32_t initialised from the size_t destination offset and then advanced, so offsets of 4 GiB or more are truncated | dstOffset = 2^32: the first chunk is copied to offset 0 | the offset keeps the width of VkDeviceSize | not executed | VulkanStagingDevice.ChunkDstOffsetAsWritten, VulkanStagingDevice.ChunkDstOffsetTruncatesLargeOffsets | VulkanStagingDevice.ChunkDstOffset, VulkanStagingDevice.ChunkDstOffsetAgreesBelow4GiB |
| src/igl/vulkan/VulkanStagingDevice.cpp:221 | memcpy's destination capacity is computed as `size - chunkSrcOffset`, which mixes the buffer's source offset into the destination's remaining size, and the count is the whole `memoryChunk.size` rather than `copySize`, so the last, partial chunk reads past the bytes it was meant to copy | size 16, srcOffset 8, one 16-byte chunk: capacity 8 < count 16 | capacity = bytes left in the destination (size - consumed) | not executed | VulkanStagingDevice.DownloadMemcpyAsWritten, VulkanStagingDevice.DownloadCapacityMixesInSourceOffset | VulkanStagingDevice.DownloadMemcpy |
| shell/openxr/mobile/XrApp.cpp:1536 | the alpha-blend record of quad layer `layer` = 2i+view is chosen by `blendModes_[layer]`, while the flags two lines below use `blendModes_[i]` | blend modes [AlphaAdditive, Opaque]: quad 0's left eye gets the additive record and its right eye does not; with one quad, layer 1 reads past a one-entry list | index by the quad, `blendModes_[i]`, so both eyes agree | not executed | XrAppMobile.QuadAlphaBlendNextAsWritten, XrAppMobile.QuadEyesDisagreeAsWritten | XrAppMobile.QuadAlphaBlendNext, XrAppMobile.QuadEyesAgree |
