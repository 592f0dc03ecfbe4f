# Swapchain core of bigwheels, modelled in Dafny

This project models the API-independent swapchain layer of the bigwheels
graphics framework (`ppx::grfx`). That layer covers:

- the abstract `grfx::Swapchain`, with its create info, its seven per-image
  lists (color images, depth images, CLEAR and LOAD render-target views,
  depth-stencil views, CLEAR and LOAD render passes) and its current image index;
- the phased `Create` and the fixed-order `Destroy`;
- the three concrete swapchains:
  - `VirtualSwapchain`: headless; owns its images, hands them out in a ring,
    and keeps one command buffer per image;
  - `SurfaceSwapchain`: images come from a presentation surface; acquire and
    present go to API-specific hooks;
  - `XRSwapchain`: images come from the OpenXR compositor, which also chooses
    the image index.

The layout follows the program:

- `grfx_types.dfy`: result codes, `uint32_t` arithmetic, the swapchain type
  tag, formats, load ops and handles.
- `grfx_device.dfy`: the collaborators.
  - `Device` is a fallible allocator. Request k succeeds when `outcome(k)` is
    SUCCESS, and `objects[k]` records what it made.
  - `Queue` allocates command buffers and logs submissions.
  - `Compositor` answers acquires from an oracle and logs every OpenXR call.
- `swapchain.dfy`: the `Swapchain` class and the generic phases.
  - The C++ subclasses become one class. Its `kind` field says which subclass
    it is, and it also holds the subclasses' own fields.
  - Each subclass's overrides live in its own module: `virtual_swapchain.dfy`,
    `surface_swapchain.dfy` and `xr_swapchain.dfy`.
- `swapchain_protocol.dfy`: the virtual dispatch of `Create`, `Destroy`,
  `GetType` and `ShouldSkipExternalSynchronization`, plus five concrete runs
  (`SurfaceCountScenario`, `SurfacePassFailureScenario`, `VirtualTeardownScenario`,
  `XrIndexMismatchScenario` and `VirtualRingScenario`).

Creation is modelled request by request. The contracts say three things:

- A phase stops at the first failed device request, and its result is that
  request's code.
- What a phase made before it stopped stays in its list.
- Entry i of every view and pass list was built from entry i of the lists it
  depends on (`Wired`).

Destroy is modelled by the order in which handles reach the device.

## Model

| member | source | states |
|---|---|---|
| GrfxTypes.TypeValue | include/ppx/grfx/grfx_swapchain.h:43-49 | The four tags have values below 4; the value is 0 exactly for UNKNOWN |
| GrfxTypes.TypeFromValue | include/ppx/grfx/grfx_swapchain.h:43-49 | A tag exists exactly for the values below 4, and it maps back to that value |
| GrfxTypes.TypeValueRoundTrip | include/ppx/grfx/grfx_swapchain.h:43-49 | Every tag is recovered from its value, and distinct tags have distinct values |
| GrfxTypes.SubU32 | src/ppx/grfx/grfx_virtual_swapchain.cpp:58 | `imageCount - 1` in `uint32_t`: exact when no underflow, otherwise wraps by 2^32 |
| GrfxTypes.AddU32 | src/ppx/grfx/grfx_virtual_swapchain.cpp:82 | `mCurrentImageIndex + 1u`: exact below 2^32, otherwise wraps to 0 |
| Swapchain.Swapchain.constructor | include/ppx/grfx/grfx_swapchain.h:147-156 | A new swapchain holds no per-image object and no XR handle; its current index is 0; its create info has the member defaults |
| Swapchain.Swapchain.GetWidth | include/ppx/grfx/grfx_swapchain.h:90 | The stored width |
| Swapchain.Swapchain.GetHeight | include/ppx/grfx/grfx_swapchain.h:91 | The stored height |
| Swapchain.Swapchain.GetImageCount | include/ppx/grfx/grfx_swapchain.h:92 | After a successful create, equals the number of color images and of CLEAR and LOAD passes, and with depth the number of depth images and views |
| Swapchain.Swapchain.GetColorFormat | include/ppx/grfx/grfx_swapchain.h:93 | The stored color format |
| Swapchain.Swapchain.GetDepthFormat | include/ppx/grfx/grfx_swapchain.h:94 | The stored depth format |
| Swapchain.Swapchain.GetCurrentImageIndex | include/ppx/grfx/grfx_swapchain.h:108 | The index the last acquire stored |
| Swapchain.Swapchain.ShouldSkipExternalSynchronization | include/ppx/grfx/grfx_swapchain.h:125-128 | The base answer is false |
| Swapchain.Swapchain.GetColorImage | src/ppx/grfx/grfx_swapchain.cpp:225-232 | SUCCESS iff the index is in range, and then the image at that index; otherwise ERROR_OUT_OF_RANGE with the out-parameter untouched |
| Swapchain.Swapchain.GetDepthImage | src/ppx/grfx/grfx_swapchain.cpp:234-241 | The same rule for the depth images |
| Swapchain.Swapchain.GetRenderPass | src/ppx/grfx/grfx_swapchain.cpp:243-255 | The range check is against the CLEAR list only; CLEAR picks the CLEAR pass, every other op the LOAD pass; out of range leaves the out-parameter untouched |
| Swapchain.Swapchain.GetRenderTargetView | src/ppx/grfx/grfx_swapchain.cpp:257-269 | The same selection rule for the render-target views |
| Swapchain.Swapchain.GetDepthStencilView | src/ppx/grfx/grfx_swapchain.cpp:271-278 | SUCCESS iff the index is in range, and then that view; otherwise ERROR_OUT_OF_RANGE with the out-parameter untouched |
| Swapchain.Swapchain.GetColorImageOrNull | src/ppx/grfx/grfx_swapchain.cpp:280-285 | Null exactly when the index is out of range, otherwise the image at that index |
| Swapchain.Swapchain.GetDepthImageOrNull | src/ppx/grfx/grfx_swapchain.cpp:287-292 | Null exactly when the index is out of range, otherwise the depth image |
| Swapchain.Swapchain.GetRenderPassOrNull | src/ppx/grfx/grfx_swapchain.cpp:294-299 | Null exactly when out of the CLEAR range; the load op defaults to CLEAR |
| Swapchain.Swapchain.GetRenderTargetViewOrNull | src/ppx/grfx/grfx_swapchain.cpp:301-306 | Null exactly when out of the CLEAR range; the load op defaults to CLEAR |
| Swapchain.Swapchain.GetDepthStencilViewOrNull | src/ppx/grfx/grfx_swapchain.cpp:308-313 | Null exactly when the index is out of range, otherwise that view |
| Swapchain.ConvenienceGettersAgree | src/ppx/grfx/grfx_swapchain.cpp:280-313 | Each of the five convenience getters returns what its checked getter writes on success, and null otherwise (for a LOAD lookup, whenever the LOAD list covers the CLEAR range) |
| Swapchain.CreateImageViews | src/ppx/grfx/grfx_swapchain.cpp:97-134 | For one image: the CLEAR view, then the LOAD view, then the depth view of the same index when there are depth images; it stops at the first failed request; SUCCESS iff every view was made |
| Swapchain.CreateViewLists | src/ppx/grfx/grfx_swapchain.cpp:95-137 | View i is of color image i (or depth image i); it stops at the first failure; on success it makes one CLEAR and one LOAD view per color image, and one depth view per image exactly when there are depth images |
| Swapchain.Swapchain.CreateRenderTargets | src/ppx/grfx/grfx_swapchain.cpp:93-138 | It appends the views to the three lists and changes no other field; the result is the first failed request's code; the views made before a failure are kept |
| Swapchain.CreatePassList | src/ppx/grfx/grfx_swapchain.cpp:146-165 | Pass i is width x height over target i, plus depth view i when there is depth; it stops at the first failure; on success there are n passes |
| Swapchain.Swapchain.CreateRenderPasses | src/ppx/grfx/grfx_swapchain.cpp:140-190 | All CLEAR passes come first; LOAD passes are started only after every CLEAR pass exists; pass i is wired to view i; on success both lists have one pass per color image |
| Swapchain.CreateImageList | src/ppx/grfx/grfx_virtual_swapchain.cpp:128-140 | n images of the same description, in request order; it stops at the first failure, keeping the images already made |
| Swapchain.Swapchain.CreateDepthImages | src/ppx/grfx/grfx_virtual_swapchain.cpp:118-143 | With no depth format: SUCCESS and nothing made. Existing depth images: ERROR_GRFX_OPERATION_NOT_PERMITTED and nothing made. Otherwise one depth-stencil target per counted image, stopping at the first failure |
| Swapchain.Swapchain.DestroyColorImages | src/ppx/grfx/grfx_swapchain.cpp:73-81 | Every color image is destroyed in order, and the list ends empty |
| Swapchain.Swapchain.DestroyDepthImages | src/ppx/grfx/grfx_swapchain.cpp:83-91 | Every depth image is destroyed in order, and the list ends empty |
| Swapchain.Swapchain.DestroyRenderTargets | src/ppx/grfx/grfx_swapchain.cpp:192-206 | The CLEAR views, then the LOAD views, then the depth views are destroyed; all three lists end empty |
| Swapchain.Swapchain.DestroyRenderPasses | src/ppx/grfx/grfx_swapchain.cpp:208-223 | The CLEAR passes, then the LOAD passes are destroyed; both lists end empty |
| Swapchain.NonNull | src/ppx/grfx/grfx_virtual_swapchain.cpp:72-76 | The command buffers that the destroy loop hands back are exactly the non-null entries, never more than the list holds |
| Swapchain.NonNullKeepsAll | src/ppx/grfx/grfx_virtual_swapchain.cpp:72-76 | Every command buffer is handed back iff none of them is null |
| Swapchain.UnbuiltIsWired | src/ppx/grfx/grfx_swapchain.cpp:23-56 | A swapchain with no views and no passes is trivially wired, so a create that fails before the views keeps the wiring invariant |
| VirtualSwapchain.GetType | include/ppx/grfx/grfx_virtual_swapchain.h:28 | VIRTUAL |
| VirtualSwapchain.Resize | include/ppx/grfx/grfx_virtual_swapchain.h:40 | ERROR_FAILED for every size |
| VirtualSwapchain.CreateApiObjects | include/ppx/grfx/grfx_virtual_swapchain.h:43 | Never fails |
| VirtualSwapchain.NextImageIndex | src/ppx/grfx/grfx_virtual_swapchain.cpp:82-83 | Always inside the ring; equals `(cur + 1) % n` when `cur + 1` does not wrap; the successor below n-1, and 0 after n-1 or when `cur + 1` wraps |
| VirtualSwapchain.AcquireRun | src/ppx/grfx/grfx_virtual_swapchain.cpp:82-83 | k acquires in a row yield k indices, each inside the ring |
| VirtualSwapchain.AcquireRunIsRing | src/ppx/grfx/grfx_virtual_swapchain.cpp:82-83 | From an index inside the ring, the j-th acquire returns `(cur + 1 + j) % n` |
| VirtualSwapchain.FirstAcquiresFromLast | src/ppx/grfx/grfx_virtual_swapchain.cpp:56-58 | Starting from n-1, the j-th acquire returns `j % n`, so the first acquire returns 0 |
| VirtualSwapchain.CreateCommandBuffers | src/ppx/grfx/grfx_virtual_swapchain.cpp:62-66 | One request per image, results ignored; entry i is request i's buffer, or null when that request failed |
| VirtualSwapchain.CreateImages | src/ppx/grfx/grfx_virtual_swapchain.cpp:30-54 | imageCount color targets are appended in request order, then the depth images; it stops at the first failed request, keeps what was made, and makes one device request per image it stores plus one for the failure |
| VirtualSwapchain.CreateInternal | src/ppx/grfx/grfx_virtual_swapchain.cpp:23-68 | A null queue gives ERROR_UNEXPECTED_NULL_ARGUMENT and changes nothing. Otherwise: imageCount color targets, then the depth images, stopping at the first failure. On success the current index is imageCount-1 (in `uint32_t`) and one command-buffer slot is appended per image |
| VirtualSwapchain.DestroyEachCommandBuffer | src/ppx/grfx/grfx_virtual_swapchain.cpp:72-76 | Every non-null buffer goes back to the queue in order, and nothing else |
| VirtualSwapchain.AllCommandBuffersReturned | src/ppx/grfx/grfx_virtual_swapchain.cpp:62-76 | Destroy hands every command buffer back iff every `CreateCommandBuffer` request of the create succeeded |
| VirtualSwapchain.DestroyInternal | src/ppx/grfx/grfx_virtual_swapchain.cpp:70-78 | Non-null buffers go back to the queue in order; the list ends empty; no other field changes |
| VirtualSwapchain.AcquireNextImage | src/ppx/grfx/grfx_virtual_swapchain.cpp:80-99 | The index is NextImageIndex of the old current index and becomes the current one; exactly one submission of that image's buffer, signalling the given semaphore and fence; SUCCESS |
| VirtualSwapchain.Present | src/ppx/grfx/grfx_virtual_swapchain.cpp:101-116 | The index argument is ignored and the swapchain is unchanged; it submits the current image's buffer waiting on the given semaphores; SUCCESS |
| SurfaceSwapchain.GetCurrentImageWidth | include/ppx/grfx/grfx_surface_swapchain.h:78 | kInvalidExtent, the largest `uint32_t` |
| SurfaceSwapchain.GetCurrentImageHeight | include/ppx/grfx/grfx_surface_swapchain.h:79 | kInvalidExtent, the largest `uint32_t` |
| SurfaceSwapchain.GetType | include/ppx/grfx/grfx_surface_swapchain.h:87 | SURFACE |
| SurfaceSwapchain.SurfaceHooks.AcquireNextImageImpl | include/ppx/grfx/grfx_surface_swapchain.h:104-108 | The hook receives the caller's timeout, semaphore and fence; its result and index come from outside the model |
| SurfaceSwapchain.SurfaceHooks.PresentImpl | include/ppx/grfx/grfx_surface_swapchain.h:110-113 | The hook receives the caller's index and wait semaphores |
| SurfaceSwapchain.CreateInternal | src/ppx/grfx/grfx_surface_swapchain.cpp:21-32 | imageCount becomes the number of color images, whatever was requested; then the depth images follow that count (none without a depth format; refused if some exist; otherwise stops at the first failure) |
| SurfaceSwapchain.DestroyInternal | src/ppx/grfx/grfx_surface_swapchain.cpp:34-37 | Nothing changes |
| SurfaceSwapchain.AcquireNextImage | src/ppx/grfx/grfx_surface_swapchain.cpp:39-46 | Exactly one hook call with the caller's arguments unchanged; returns the hook's result and index |
| SurfaceSwapchain.Present | src/ppx/grfx/grfx_surface_swapchain.cpp:48-54 | Exactly one hook call with the caller's arguments unchanged; returns the hook's result |
| XrSwapchain.GetType | include/ppx/grfx/grfx_xr_swapchain.h:31 | XR, in both build configurations |
| XrSwapchain.ShouldSkipExternalSynchronization | include/ppx/grfx/grfx_xr_swapchain.h:42-45 | True with XR support |
| XrSwapchain.CreateInternal | src/ppx/grfx/grfx_xr_swapchain.cpp:20-24 | imageCount becomes the number of color images; SUCCESS; nothing else changes |
| XrSwapchain.DestroyCalls | src/ppx/grfx/grfx_xr_swapchain.cpp:28-33 | A null handle gives no call; otherwise one `xrDestroySwapchain` of that handle |
| XrSwapchain.DestroyInternal | src/ppx/grfx/grfx_xr_swapchain.cpp:26-34 | The color, then the depth sub-swapchain are destroyed, each only if non-null |
| XrSwapchain.AcquireNextImage | src/ppx/grfx/grfx_xr_swapchain.cpp:36-65 | Acquire and wait on the color sub-swapchain, then on the depth one only if it exists, and no other compositor call; the index is the color acquire's without depth and the depth acquire's with depth, even when the two differ; it becomes the current one; SUCCESS |
| XrSwapchain.Present | src/ppx/grfx/grfx_xr_swapchain.cpp:67-73 | Never fails |
| XrSwapchain.StubAcquireNextImage | include/ppx/grfx/grfx_xr_swapchain.h:70-77 | Without XR support: SUCCESS, and the caller's index is left as passed |
| XrSwapchain.StubDestroyInternal | include/ppx/grfx/grfx_xr_swapchain.h:85 | Without XR support: nothing changes |
| XrSwapchain.StubPresent | include/ppx/grfx/grfx_xr_swapchain.h:78-81 | Without XR support: SUCCESS |
| SwapchainProtocol.FirstFailure | src/ppx/grfx/grfx_swapchain.cpp:23-55 | SUCCESS iff every phase succeeded; otherwise the code of a phase preceded only by successes |
| SwapchainProtocol.LastPhaseIsFirstFailure | src/ppx/grfx/grfx_swapchain.cpp:23-55 | When only the last phase may have failed, the first failure is that phase's code, so `Create`'s result is FirstFailure of its phases |
| SwapchainProtocol.InternalObjects | src/ppx/grfx/grfx_swapchain.cpp:34-37 | The device objects `CreateInternal` owns are at most the color and depth images, and none for XR, whose images the backend makes as device objects while creating its API objects, not in `CreateInternal` |
| SwapchainProtocol.GenericObjects | src/ppx/grfx/grfx_swapchain.cpp:39-47 | No generic object exists exactly when all five view and pass lists are empty |
| SwapchainProtocol.Installed | src/ppx/grfx/vk/vk_xr_swapchain.cpp:42-137 | The backend's color and depth images are installed whatever its result; only XR takes sub-swapchain handles; every other field is kept |
| SwapchainProtocol.GetType | include/ppx/grfx/grfx_swapchain.h:110 | The dispatched tag is the concrete kind, never UNKNOWN |
| SwapchainProtocol.ShouldSkipExternalSynchronization | include/ppx/grfx/grfx_swapchain.h:125-128 | Skip iff the swapchain is XR and XR support is built in |
| SwapchainProtocol.CreateApiObjects | src/ppx/grfx/grfx_swapchain.cpp:25-28 | The create info is stored. Virtual always succeeds and changes nothing else. Otherwise the result is the backend's, and what the backend stored (images, XR handles) stays installed even when it failed part way, as the Vulkan XR backend does |
| SwapchainProtocol.CreateInternal | src/ppx/grfx/grfx_swapchain.cpp:34-37 | Dispatched per kind. On success there is one color image per counted image, and one depth image per image exactly when a depth format is set; failures stop at the first failed request; the device got one request per internal object plus one for a failure; never more images than imageCount; the queue gets imageCount command-buffer requests exactly when a virtual create succeeds, and no submission or release |
| SwapchainProtocol.CreateTargetsAndPasses | src/ppx/grfx/grfx_swapchain.cpp:39-47 | Passes are attempted only after the views succeeded; LOAD passes only after every CLEAR pass; on success every list has one entry per image; the swapchain is wired whatever the result; one device request per view or pass plus one for a failure |
| SwapchainProtocol.CreateAfterBackend | src/ppx/grfx/grfx_swapchain.cpp:34-55 | After the backend: the internal objects, then the views, then the passes, none after a failure; the result is the first failed request's code or the null-queue error; lists of a phase that never ran stay empty; device requests are counted; the queue gets imageCount command-buffer requests exactly when the virtual internal phase succeeded; the XR handles are untouched, and so are the current index and command buffers of a surface or XR swapchain |
| SwapchainProtocol.Create | src/ppx/grfx/grfx_swapchain.cpp:23-56 | The result is the last phase's and every earlier phase succeeded. After a backend failure only the backend's objects are installed; after a later failure, the lists of phases that did not run are empty and the failing device request's code is returned. The swapchain is always wired and the device requests are counted. Only a virtual swapchain changes its current index and command buffers, and makes imageCount queue requests once its internal phase succeeded; only an XR one changes its sub-swapchain handles. On success it is created, and a surface or XR image count is corrected to the images actually present |
| SwapchainProtocol.Teardown | src/ppx/grfx/grfx_swapchain.cpp:58-71 | The destroyed handles are exactly the handles of the seven lists, counted once per entry |
| SwapchainProtocol.TeardownOfCreated | src/ppx/grfx/grfx_swapchain.cpp:58-71 | A created swapchain releases 5 objects per image, or 7 with depth |
| SwapchainProtocol.DestroyLists | src/ppx/grfx/grfx_swapchain.cpp:60-66 | Passes, then views, then depth images, then color images go back to the device; all seven lists end empty |
| SwapchainProtocol.Destroy | src/ppx/grfx/grfx_swapchain.cpp:58-71 | Always runs, in the fixed order, then DestroyInternal for the kind: virtual buffers go back to the queue, and a surface or XR swapchain leaves the queue untouched; XR sub-swapchains are destroyed if non-null with XR support, and nothing is called without it |
| SwapchainProtocol.SurfaceCountScenario | src/ppx/grfx/grfx_surface_swapchain.cpp:21-32 | A request for 2 images on a surface that makes 3, with depth: count 3, 3 depth images, 3 CLEAR passes |
| SwapchainProtocol.SurfacePassFailureScenario | src/ppx/grfx/grfx_swapchain.cpp:140-190 | A surface swapchain of 3 images with depth whose 15th device request fails: the failure code is returned, 2 CLEAR passes are kept and no LOAD pass exists |
| SwapchainProtocol.VirtualTeardownScenario | src/ppx/grfx/grfx_virtual_swapchain.cpp:23-78 | A created 3-image virtual swapchain with depth releases 21 device objects and returns 3 command buffers to the queue |
| SwapchainProtocol.XrIndexMismatchScenario | src/ppx/grfx/grfx_xr_swapchain.cpp:52-64 | When the color and depth sub-swapchains answer 1 and 2, the release build keeps the depth index 2 and succeeds |
| SwapchainProtocol.VirtualRingScenario | src/ppx/grfx/grfx_virtual_swapchain.cpp:80-83 | A 3-image virtual swapchain acquires 0, 1, 2, 0 |

## Left out

- API backends:
  - The Vulkan and D3D12 backends, including the OpenXR image enumeration, are not part of this model.
  - What a surface or XR backend yields on creation is a parameter (`BackendImages`).
  - The backend's `DestroyApiObjects` is not modelled; the virtual swapchain's is empty.
  - The Vulkan `Resize` returns ERROR_FAILED like `VirtualSwapchain.Resize`.
- The D3D12 command-buffer header is not part of this model.
- `DeviceObject::Create` and `DeviceObject::Destroy`: `grfx_object.h` is not part of this model. Create is modelled as "store the create info, then the backend's result".
- Device, queue and compositor internals are oracles and logs:
  - GPU synchronisation is not modelled.
  - Timeouts are not modelled.
  - `Begin`/`End` on the command buffer is not modelled.
  - OpenXR call failures (`CHECK_XR_CALL`) are not modelled.
  - Image usage, ownership, initial state and clear values are not modelled.
- Logging is not modelled: it has no effect on state.
- The `Surface` minimum and maximum extent and count getters are not modelled. They are abstract and have no behaviour in the core.
- `GetXrColorSwapchain` and `GetXrDepthSwapchain` are not modelled. They return the two handle fields as they are.
- The non-XR `XRSwapchain::CreateInternal` is not modelled: it asserts and returns no value. Its `DestroyInternal` is `XrSwapchain.StubDestroyInternal`.
- Debug-build assertions:
  - An assertion followed by an error return (`PPX_ASSERT_MSG(false, ...)`, and `PPX_ASSERT_NULL_ARG` at src/ppx/grfx/grfx_virtual_swapchain.cpp:25) is modelled by the release return that follows it.
  - The non-empty color list asserted at src/ppx/grfx/grfx_swapchain.cpp:96 and :143 is not required of `CreateRenderTargets` and `CreateRenderPasses`; with no color images they make nothing and succeed, as a release build does.
  - The index agreement asserted at src/ppx/grfx/grfx_xr_swapchain.cpp:61 is not required; the release behaviour, keeping the depth index, is modelled.
  - The null semaphore and fence asserted at src/ppx/grfx/grfx_xr_swapchain.cpp:43-44 are not checked; both arguments are accepted and ignored.
- XrSwapchain.AcquireNextImage: requires a color sub-swapchain handle (src/ppx/grfx/grfx_xr_swapchain.cpp:42 asserts it); a release build would pass XR_NULL_HANDLE to OpenXR, whose answer is outside the model.
- SwapchainProtocol.CreateApiObjects: the backend's own device requests are not in the device log, so `Create`'s request count covers the generic and internal phases only.
- Swapchain.Swapchain.GetRenderPass: requires the index to be inside the LOAD list when a non-CLEAR op is asked for. The source only checks the CLEAR list, so a LOAD lookup after a partly failed `CreateRenderPasses` reads out of range.
- Swapchain.Swapchain.GetRenderTargetView: requires the same of the LOAD views, for the same reason.
- SurfaceSwapchain.CreateInternal: requires fewer than 2^32 color images. `CountU32` narrows the count, and that narrowing is not modelled.
- XrSwapchain.CreateInternal: requires fewer than 2^32 color images, for the same reason.
- SwapchainProtocol.Create: requires more than 0 images for a virtual swapchain, and more than 0 backend images otherwise.
  - src/ppx/grfx/grfx_swapchain.cpp:96 and :143 assert this; without it a release build would report SUCCESS for a swapchain with no images.
  - The virtual `imageCount - 1` wrap itself is modelled (`SubU32`).
- SwapchainProtocol.Create: requires the backend's depth images to agree with the color images.
  - A surface backend makes no depth images.
  - An XR backend makes one depth image per color image exactly when a depth format is set.
- VirtualSwapchain.AcquireNextImage: requires the next image's command buffer to be non-null, and between 1 and 2^32-1 color images.
  - `CreateInternal` stores null when a `CreateCommandBuffer` request fails.
  - The source would then dereference null.
  - `CountU32` narrows the color-image count, and that narrowing is not modelled; with no color images the source's `% CountU32(...)` divides by zero.
- VirtualSwapchain.Present: requires the current image's command buffer to be non-null, for the same reason.
- SwapchainProtocol.Destroy: the destroy logs of the device, the queue and the compositor are separate. The order between objects in different logs is not stated, only the order within each log.
