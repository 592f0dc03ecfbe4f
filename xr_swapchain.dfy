/** `grfx::XRSwapchain`: a swapchain over an OpenXR color sub-swapchain and an
    optional depth sub-swapchain, whose images the compositor supplies and
    whose image index the compositor chooses. Without XR support compiled in,
    the class is a stub whose operations succeed without doing anything. */
module XrSwapchain {
  import opened GrfxTypes
  import opened GrfxDevice
  import opened Swapchain

  /** The type tag, the same with and without XR support. */
  function GetType(): (t: SwapchainType)
    ensures t == Xr
  {
    Xr
  }

  /** With XR support the compositor synchronises: callers skip semaphores and fences. */
  function ShouldSkipExternalSynchronization(): (skip: bool)
    ensures skip
  {
    true
  }

  /** `CreateInternal`: the image count becomes the number of color images the
      compositor supplied. */
  method CreateInternal(sc: Swapchain) returns (res: Result)
    requires sc.kind == Xr
    requires |sc.colorImages| < U32_LIMIT
    modifies sc
    ensures res == Success
    ensures sc.State() == old(sc.State()).(createInfo := old(sc.createInfo).(imageCount := old(|sc.colorImages|)))
  {
    sc.createInfo := sc.createInfo.(imageCount := |sc.colorImages|);
    res := Success;
  }

  /** The `xrDestroySwapchain` call a sub-swapchain handle needs: none for the
      null handle. */
  function DestroyCalls(swapchain: Option<XrHandle>): (calls: seq<XrCall>)
    ensures swapchain.None? <==> calls == []
    ensures swapchain.Some? ==> calls == [DestroySwapchain(swapchain.value)]
  {
    if swapchain.Some? then [DestroySwapchain(swapchain.value)] else []
  }

  /** `DestroyInternal`: destroys the color, then the depth sub-swapchain,
      skipping a null handle. The handles themselves are left as they were. */
  method DestroyInternal(sc: Swapchain, compositor: Compositor)
    requires sc.kind == Xr
    modifies compositor
    ensures compositor.calls == old(compositor.calls) + DestroyCalls(sc.xrColorSwapchain) + DestroyCalls(sc.xrDepthSwapchain)
  {
    if sc.xrColorSwapchain.Some? {
      compositor.Destroy(sc.xrColorSwapchain.value);
    }
    if sc.xrDepthSwapchain.Some? {
      compositor.Destroy(sc.xrDepthSwapchain.value);
    }
  }

  /** `AcquireNextImage`: acquires and waits on the color sub-swapchain and,
      when there is one, on the depth sub-swapchain; the last index acquired
      becomes the current one. The semaphore, the fence and the timeout are
      not used. That the depth index equals the color index is only checked
      in debug builds: when the compositor answers otherwise, the depth index
      is the one kept. */
  method AcquireNextImage(sc: Swapchain, compositor: Compositor, timeout: nat,
                          semaphore: Option<SyncObject>, fence: Option<SyncObject>)
    returns (res: Result, imageIndex: U32)
    requires sc.kind == Xr
    requires sc.xrColorSwapchain.Some?
    modifies sc, compositor
    ensures res == Success
    ensures sc.State() == old(sc.State()).(currentImageIndex := imageIndex)
    ensures sc.xrDepthSwapchain.None? ==>
              imageIndex == compositor.acquireIndex(sc.xrColorSwapchain.value, |old(compositor.calls)|) &&
              compositor.calls == old(compositor.calls) +
                                  [AcquireImage(sc.xrColorSwapchain.value), WaitImage(sc.xrColorSwapchain.value)]
    ensures sc.xrDepthSwapchain.Some? ==>
              imageIndex == compositor.acquireIndex(sc.xrDepthSwapchain.value, |old(compositor.calls)| + 2) &&
              compositor.calls == old(compositor.calls) +
                                  [AcquireImage(sc.xrColorSwapchain.value), WaitImage(sc.xrColorSwapchain.value),
                                   AcquireImage(sc.xrDepthSwapchain.value), WaitImage(sc.xrDepthSwapchain.value)]
  {
    var color := sc.xrColorSwapchain.value;
    imageIndex := compositor.Acquire(color);
    compositor.Wait(color);
    if sc.xrDepthSwapchain.Some? {
      var depth := sc.xrDepthSwapchain.value;
      imageIndex := compositor.Acquire(depth);
      compositor.Wait(depth);
    }
    sc.currentImageIndex := imageIndex;
    res := Success;
  }

  /** `Present`: the compositor presents; nothing is done and nothing fails. */
  function Present(imageIndex: U32, waitSemaphores: seq<SyncObject>): (r: Result)
    ensures !Failed(r)
  {
    Success
  }

  /** Without XR support: acquiring succeeds and leaves the index the caller
      passed in untouched. */
  function StubAcquireNextImage(imageIndex: U32): (r: (Result, U32))
    ensures r.0 == Success && r.1 == imageIndex
  {
    (Success, imageIndex)
  }

  /** Without XR support: destroying releases nothing of its own. */
  method StubDestroyInternal(sc: Swapchain)
    requires sc.kind == Xr
    ensures sc.State() == old(sc.State())
  {
  }

  /** Without XR support: presenting succeeds. */
  function StubPresent(imageIndex: U32, waitSemaphores: seq<SyncObject>): (r: Result)
    ensures !Failed(r)
  {
    Success
  }
}
