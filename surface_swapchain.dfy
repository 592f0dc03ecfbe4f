/** `grfx::SurfaceSwapchain`: a swapchain whose color images come from a
    presentation surface. Its image count is whatever the surface produced,
    and acquire and present are delegated to API-specific hooks. */
module SurfaceSwapchain {
  import opened GrfxTypes
  import opened GrfxDevice
  import opened Swapchain

  /** `Surface::kInvalidExtent`: the largest `uint32_t`. */
  const InvalidExtent: U32 := U32_MAX

  /** The default `Surface::GetCurrentImageWidth`: no current extent is known. */
  function GetCurrentImageWidth(): (w: U32)
    ensures w == InvalidExtent && w == U32_LIMIT - 1
  {
    InvalidExtent
  }

  /** The default `Surface::GetCurrentImageHeight`. */
  function GetCurrentImageHeight(): (h: U32)
    ensures h == InvalidExtent && h == U32_LIMIT - 1
  {
    InvalidExtent
  }

  function GetType(): (t: SwapchainType)
    ensures t == Surface
  {
    Surface
  }

  /** A call of one of the two API-specific hooks, with its arguments. */
  datatype HookCall =
    | AcquireCall(timeout: nat, semaphore: Option<SyncObject>, fence: Option<SyncObject>)
    | PresentCall(imageIndex: U32, waitSemaphores: seq<SyncObject>)

  /** The `AcquireNextImageImpl` and `PresentImpl` hooks a concrete surface
      swapchain supplies. They are not part of this model: each call is logged
      and answered by the outcome given for its position among all calls. */
  class SurfaceHooks {
    /** Every hook call so far, in order. */
    var calls: seq<HookCall>
    /** The result and image index of an acquire made as call number k. */
    const acquireOutcome: nat -> (Result, U32)
    /** The result of a present made as call number k. */
    const presentOutcome: nat -> Result

    constructor (acquireOutcome: nat -> (Result, U32), presentOutcome: nat -> Result)
      ensures calls == []
      ensures this.acquireOutcome == acquireOutcome && this.presentOutcome == presentOutcome
    {
      this.acquireOutcome := acquireOutcome;
      this.presentOutcome := presentOutcome;
      calls := [];
    }

    method AcquireNextImageImpl(timeout: nat, semaphore: Option<SyncObject>, fence: Option<SyncObject>)
      returns (res: Result, imageIndex: U32)
      modifies this
      ensures calls == old(calls) + [AcquireCall(timeout, semaphore, fence)]
      ensures (res, imageIndex) == acquireOutcome(|old(calls)|)
    {
      res, imageIndex := acquireOutcome(|calls|).0, acquireOutcome(|calls|).1;
      calls := calls + [AcquireCall(timeout, semaphore, fence)];
    }

    method PresentImpl(imageIndex: U32, waitSemaphores: seq<SyncObject>) returns (res: Result)
      modifies this
      ensures calls == old(calls) + [PresentCall(imageIndex, waitSemaphores)]
      ensures res == presentOutcome(|old(calls)|)
    {
      res := presentOutcome(|calls|);
      calls := calls + [PresentCall(imageIndex, waitSemaphores)];
    }
  }

  /** `CreateInternal`: the image count becomes the number of color images the
      surface produced, whatever was requested, and the depth images follow
      that count. */
  method CreateInternal(sc: Swapchain) returns (res: Result)
    requires sc.kind == Surface
    requires |sc.colorImages| < U32_LIMIT
    modifies sc, sc.device
    ensures sc.createInfo == old(sc.createInfo).(imageCount := old(|sc.colorImages|))
    ensures sc.State() == old(sc.State()).(createInfo := sc.createInfo, depthImages := sc.depthImages)
    ensures sc.device.destroyed == old(sc.device.destroyed)
    ensures old(sc.device.objects) <= sc.device.objects
    ensures sc.createInfo.depthFormat == Undefined ==>
              res == Success && sc.depthImages == old(sc.depthImages) && sc.device.objects == old(sc.device.objects)
    ensures sc.createInfo.depthFormat != Undefined && old(sc.depthImages) != [] ==>
              res == ErrorGrfxOperationNotPermitted && sc.depthImages == old(sc.depthImages) &&
              sc.device.objects == old(sc.device.objects)
    ensures sc.createInfo.depthFormat != Undefined && old(sc.depthImages) == [] ==>
              StoppedAtFirstFailure(sc.device.outcome, |old(sc.device.objects)|, |sc.device.objects|, res) &&
              ImagesOf(sc.device.objects, sc.depthImages,
                       DepthStencilTarget(sc.createInfo.width, sc.createInfo.height, sc.createInfo.depthFormat)) &&
              |sc.depthImages| <= |sc.colorImages| &&
              (res == Success ==> |sc.depthImages| == |sc.colorImages|) &&
              |sc.device.objects| == |old(sc.device.objects)| + |sc.depthImages| + (if res == Success then 0 else 1)
  {
    sc.createInfo := sc.createInfo.(imageCount := |sc.colorImages|);
    res := sc.CreateDepthImages();
  }

  /** `DestroyInternal`: there is nothing of its own to release. */
  method DestroyInternal(sc: Swapchain)
    requires sc.kind == Surface
    ensures sc.State() == old(sc.State())
  {
  }

  /** `AcquireNextImage` forwards its arguments to `AcquireNextImageImpl` and
      returns what the hook returns; the swapchain is not touched here. */
  method AcquireNextImage(sc: Swapchain, hooks: SurfaceHooks, timeout: nat,
                          semaphore: Option<SyncObject>, fence: Option<SyncObject>)
    returns (res: Result, imageIndex: U32)
    requires sc.kind == Surface
    modifies hooks
    ensures hooks.calls == old(hooks.calls) + [AcquireCall(timeout, semaphore, fence)]
    ensures (res, imageIndex) == hooks.acquireOutcome(|old(hooks.calls)|)
  {
    res, imageIndex := hooks.AcquireNextImageImpl(timeout, semaphore, fence);
  }

  /** `Present` forwards its arguments to `PresentImpl` and returns what the
      hook returns. */
  method Present(sc: Swapchain, hooks: SurfaceHooks, imageIndex: U32, waitSemaphores: seq<SyncObject>)
    returns (res: Result)
    requires sc.kind == Surface
    modifies hooks
    ensures hooks.calls == old(hooks.calls) + [PresentCall(imageIndex, waitSemaphores)]
    ensures res == hooks.presentOutcome(|old(hooks.calls)|)
  {
    res := hooks.PresentImpl(imageIndex, waitSemaphores);
  }
}
