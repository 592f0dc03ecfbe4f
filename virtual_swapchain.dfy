/** `grfx::VirtualSwapchain`: a headless swapchain that owns its color and depth
    images, hands them out in a ring, and keeps one command buffer per image
    with which acquire and present signal and wait on semaphores. */
module VirtualSwapchain {
  import opened GrfxTypes
  import opened GrfxDevice
  import opened Swapchain

  function GetType(): (t: SwapchainType)
    ensures t == Virtual
  {
    Virtual
  }

  /** Resizing is not supported: every size is refused. */
  function Resize(width: U32, height: U32): (r: Result)
    ensures Failed(r) && r == ErrorFailed
  {
    ErrorFailed
  }

  /** There is no backend object to create. */
  function CreateApiObjects(createInfo: SwapchainCreateInfo): (r: Result)
    ensures !Failed(r)
  {
    Success
  }

  /** The index after `cur` in a ring of `n` images: `(cur + 1) % n` with the
      addition done in `uint32_t`. */
  function NextImageIndex(cur: U32, n: nat): (next: U32)
    requires 0 < n < U32_LIMIT
    ensures next < n
    ensures cur < U32_MAX ==> next == (cur + 1) % n
    ensures cur + 1 < n ==> next == cur + 1
    ensures cur + 1 == n ==> next == 0
    ensures cur == U32_MAX ==> next == 0
  {
    var next := AddU32(cur, 1) % n;
    if cur + 1 < n then ModUnique(cur + 1, n, 0, cur + 1); next
    else if cur + 1 == n then ModUnique(n, n, 1, 0); next
    // `cur + 1u` wraps to 0, and 0 % n is 0
    else if cur == U32_MAX then assert AddU32(cur, 1) == 0; 0
    else next
  }

  /** The indices that `k` acquires in a row return, starting from current index `cur`. */
  function AcquireRun(cur: U32, n: nat, k: nat): (run: seq<U32>)
    requires 0 < n < U32_LIMIT
    ensures |run| == k
    ensures forall j :: 0 <= j < k ==> run[j] < n
    decreases k
  {
    if k == 0 then [] else
      var next := NextImageIndex(cur, n);
      [next] + AcquireRun(next, n, k - 1)
  }

  lemma MulNonNegative(a: int, b: int)
    requires a >= 0 && b >= 0
    ensures a * b >= 0
  {
  }

  lemma MultipleBounds(d: int, n: int)
    requires 0 < n
    ensures d >= 1 ==> d * n >= n
    ensures d <= -1 ==> d * n <= -n
  {
    if d >= 1 {
      MulNonNegative(d - 1, n);
      assert d * n == (d - 1) * n + n;
    } else if d <= -1 {
      MulNonNegative(-d - 1, n);
      assert -(d * n) == (-d - 1) * n + n;
    }
  }

  /** The remainder is the unique `r` in `[0, n)` with `x == q * n + r`. */
  lemma ModUnique(x: int, n: int, q: int, r: int)
    requires 0 < n && 0 <= r < n && x == q * n + r
    ensures x % n == r
  {
    assert x == (x / n) * n + x % n;
    assert (q - x / n) * n == x % n - r;
    MultipleBounds(q - x / n, n);
  }

  lemma ModOfSum(a: nat, b: nat, n: nat)
    requires 0 < n
    ensures (a % n + b) % n == (a + b) % n
  {
    var t := (a % n + b) / n;
    assert a == (a / n) * n + a % n;
    assert a % n + b == t * n + (a % n + b) % n;
    assert a + b == (a / n + t) * n + (a % n + b) % n;
    ModUnique(a + b, n, a / n + t, (a % n + b) % n);
  }

  /** Acquires walk the ring: from a current index `cur` inside it, the j-th
      acquire returns `(cur + 1 + j) % n`. */
  lemma {:induction false} AcquireRunIsRing(cur: U32, n: nat, k: nat)
    requires 0 < n < U32_LIMIT && cur < n
    ensures forall j :: 0 <= j < k ==> AcquireRun(cur, n, k)[j] == (cur + 1 + j) % n
    decreases k
  {
    if k > 0 {
      var next := NextImageIndex(cur, n);
      AcquireRunIsRing(next, n, k - 1);
      forall j | 0 <= j < k
        ensures AcquireRun(cur, n, k)[j] == (cur + 1 + j) % n
      {
        if j > 0 {
          assert AcquireRun(cur, n, k)[j] == AcquireRun(next, n, k - 1)[j - 1];
          ModOfSum(cur + 1, j, n);
        } else {
          assert AcquireRun(cur, n, k)[0] == next;
        }
      }
    }
  }

  /** Starting from `n - 1`, where `CreateInternal` leaves the index, the j-th
      acquire returns `j % n`: 0, 1, ..., n - 1, 0, ... */
  lemma FirstAcquiresFromLast(n: nat, k: nat)
    requires 0 < n < U32_LIMIT
    ensures forall j :: 0 <= j < k ==> AcquireRun(n - 1, n, k)[j] == j % n
  {
    AcquireRunIsRing(n - 1, n, k);
    forall j | 0 <= j < k
      ensures AcquireRun(n - 1, n, k)[j] == j % n
    {
      ModUnique(n, n, 1, 0);
      ModOfSum(n, j, n);
    }
  }

  /** `n` `CreateCommandBuffer` requests whose results are ignored: entry i is
      the buffer request i made, or null when it failed. */
  method CreateCommandBuffers(queue: Queue, n: nat) returns (buffers: seq<Option<Handle>>)
    modifies queue
    ensures queue.requests == old(queue.requests) + n
    ensures queue.submissions == old(queue.submissions) && queue.destroyed == old(queue.destroyed)
    ensures |buffers| == n
    ensures forall i :: 0 <= i < n ==> buffers[i] == CommandBufferSlot(queue.outcome, old(queue.requests) + i)
  {
    buffers := [];
    for i := 0 to n
      invariant queue.requests == old(queue.requests) + i
      invariant queue.submissions == old(queue.submissions) && queue.destroyed == old(queue.destroyed)
      invariant |buffers| == i
      invariant forall j :: 0 <= j < i ==> buffers[j] == CommandBufferSlot(queue.outcome, old(queue.requests) + j)
    {
      var _, commandBuffer := queue.CreateCommandBuffer();
      buffers := buffers + [commandBuffer];
    }
  }

  /** The images `CreateInternal` makes: `imageCount` color targets, then the
      depth images; stops at the first failed device request. */
  method CreateImages(sc: Swapchain) returns (res: Result, colorAdded: seq<Handle>)
    modifies sc, sc.device
    ensures sc.device.destroyed == old(sc.device.destroyed)
    ensures old(sc.device.objects) <= sc.device.objects
    ensures sc.State() == old(sc.State()).(colorImages := sc.colorImages, depthImages := sc.depthImages)
    ensures sc.colorImages == old(sc.colorImages) + colorAdded
    ensures ImagesOf(sc.device.objects, colorAdded,
                     ColorTarget(sc.createInfo.width, sc.createInfo.height, sc.createInfo.colorFormat))
    ensures |colorAdded| <= sc.createInfo.imageCount
    ensures sc.createInfo.depthFormat == Undefined || old(sc.depthImages) == [] ==>
              StoppedAtFirstFailure(sc.device.outcome, |old(sc.device.objects)|, |sc.device.objects|, res)
    ensures sc.depthImages != old(sc.depthImages) ==>
              old(sc.depthImages) == [] && sc.createInfo.depthFormat != Undefined &&
              |colorAdded| == sc.createInfo.imageCount &&
              ImagesOf(sc.device.objects, sc.depthImages,
                       DepthStencilTarget(sc.createInfo.width, sc.createInfo.height, sc.createInfo.depthFormat)) &&
              |sc.depthImages| <= sc.createInfo.imageCount
    ensures res == Success ==>
              |colorAdded| == sc.createInfo.imageCount &&
              (sc.createInfo.depthFormat != Undefined ==> |sc.depthImages| == sc.createInfo.imageCount)
    ensures old(sc.depthImages) == [] ==>
              |sc.device.objects| == |old(sc.device.objects)| + |colorAdded| + |sc.depthImages| +
                                     (if res == Success then 0 else 1)
  {
    res, colorAdded := CreateImageList(sc.device, ColorTarget(sc.createInfo.width, sc.createInfo.height,
                                                              sc.createInfo.colorFormat), sc.createInfo.imageCount);
    sc.colorImages := sc.colorImages + colorAdded;
    if res != Success {
      return;
    }
    ghost var middle := sc.device.objects;
    res := sc.CreateDepthImages();
    ImagesStable(middle, sc.device.objects, colorAdded,
                 ColorTarget(sc.createInfo.width, sc.createInfo.height, sc.createInfo.colorFormat));
  }

  /** `CreateInternal`: refuses a null queue before doing anything; otherwise
      creates `imageCount` color targets, then the depth images, sets the
      current index to `imageCount - 1` (in `uint32_t`) so that the first
      acquire returns 0, and creates one command buffer per image, ignoring
      whether that succeeded. Stops at the first failure of an image. */
  method CreateInternal(sc: Swapchain) returns (res: Result, colorAdded: seq<Handle>)
    requires sc.kind == Virtual
    modifies sc, sc.device, sc.createInfo.queue
    ensures sc.device.destroyed == old(sc.device.destroyed)
    ensures old(sc.device.objects) <= sc.device.objects
    ensures sc.State() == old(sc.State()).(colorImages := sc.colorImages, depthImages := sc.depthImages,
                                           currentImageIndex := sc.currentImageIndex,
                                           commandBuffers := sc.commandBuffers)
    ensures sc.createInfo.queue == null ==>
              res == ErrorUnexpectedNullArgument && sc.State() == old(sc.State()) &&
              sc.device.objects == old(sc.device.objects)
    ensures sc.colorImages == old(sc.colorImages) + colorAdded
    ensures ImagesOf(sc.device.objects, colorAdded,
                     ColorTarget(sc.createInfo.width, sc.createInfo.height, sc.createInfo.colorFormat))
    ensures |colorAdded| <= sc.createInfo.imageCount
    ensures sc.createInfo.queue != null && (sc.createInfo.depthFormat == Undefined || old(sc.depthImages) == []) ==>
              StoppedAtFirstFailure(sc.device.outcome, |old(sc.device.objects)|, |sc.device.objects|, res)
    ensures sc.depthImages != old(sc.depthImages) ==>
              old(sc.depthImages) == [] && sc.createInfo.depthFormat != Undefined &&
              |colorAdded| == sc.createInfo.imageCount &&
              ImagesOf(sc.device.objects, sc.depthImages,
                       DepthStencilTarget(sc.createInfo.width, sc.createInfo.height, sc.createInfo.depthFormat)) &&
              |sc.depthImages| <= sc.createInfo.imageCount
    ensures res == Success ==>
              sc.createInfo.queue != null && |colorAdded| == sc.createInfo.imageCount &&
              (sc.createInfo.depthFormat != Undefined ==> |sc.depthImages| == sc.createInfo.imageCount) &&
              sc.currentImageIndex == SubU32(sc.createInfo.imageCount, 1) &&
              sc.createInfo.queue.requests == old(sc.createInfo.queue.requests) + sc.createInfo.imageCount &&
              |sc.commandBuffers| == |old(sc.commandBuffers)| + sc.createInfo.imageCount &&
              sc.commandBuffers[..|old(sc.commandBuffers)|] == old(sc.commandBuffers) &&
              (forall i :: |old(sc.commandBuffers)| <= i < |sc.commandBuffers| ==>
                 sc.commandBuffers[i] ==
                 CommandBufferSlot(sc.createInfo.queue.outcome,
                                   old(sc.createInfo.queue.requests) + i - |old(sc.commandBuffers)|))
    ensures res != Success ==>
              sc.currentImageIndex == old(sc.currentImageIndex) && sc.commandBuffers == old(sc.commandBuffers)
    ensures sc.createInfo.queue != null ==>
              sc.createInfo.queue.submissions == old(sc.createInfo.queue.submissions) &&
              sc.createInfo.queue.destroyed == old(sc.createInfo.queue.destroyed)
    ensures res != Success && sc.createInfo.queue != null ==>
              sc.createInfo.queue.requests == old(sc.createInfo.queue.requests)
    ensures sc.createInfo.queue != null && old(sc.depthImages) == [] ==>
              |sc.device.objects| == |old(sc.device.objects)| + |colorAdded| + |sc.depthImages| +
                                     (if res == Success then 0 else 1)
  {
    colorAdded := [];
    var queue := sc.createInfo.queue;
    if queue == null {
      return ErrorUnexpectedNullArgument, colorAdded;
    }
    var n := sc.createInfo.imageCount;
    res, colorAdded := CreateImages(sc);
    if res != Success {
      return;
    }
    sc.currentImageIndex := SubU32(n, 1);
    var buffers := CreateCommandBuffers(queue, n);
    sc.commandBuffers := sc.commandBuffers + buffers;
    res := Success;
  }

  /** Hands every non-null entry of `buffers` back to `queue`, in order. */
  method DestroyEachCommandBuffer(queue: Queue?, buffers: seq<Option<Handle>>)
    requires queue == null ==> forall i :: 0 <= i < |buffers| ==> buffers[i].None?
    modifies queue
    ensures queue != null ==>
              queue.destroyed == old(queue.destroyed) + NonNull(buffers) &&
              queue.submissions == old(queue.submissions) && queue.requests == old(queue.requests)
  {
    for i := 0 to |buffers|
      invariant queue != null ==>
                  queue.destroyed == old(queue.destroyed) + NonNull(buffers[..i]) &&
                  queue.submissions == old(queue.submissions) && queue.requests == old(queue.requests)
    {
      NonNullPrefix(buffers, i);
      if buffers[i].Some? {
        queue.DestroyCommandBuffer(buffers[i].value);
      }
    }
    assert buffers[..|buffers|] == buffers;
  }

  /** Of the command buffers `CreateInternal` records, one per queue request
      from `base` on, `DestroyInternal` hands every one back exactly when each
      of those requests succeeded. */
  lemma AllCommandBuffersReturned(outcome: nat -> Result, base: nat, buffers: seq<Option<Handle>>)
    requires forall i :: 0 <= i < |buffers| ==> buffers[i] == CommandBufferSlot(outcome, base + i)
    ensures |NonNull(buffers)| == |buffers| <==> AllSucceeded(outcome, base, base + |buffers|)
  {
    NonNullKeepsAll(buffers);
    if AllSucceeded(outcome, base, base + |buffers|) {
      forall i | 0 <= i < |buffers| ensures buffers[i].Some? {
        assert outcome(base + i) == Success;
      }
    } else {
      var k :| base <= k < base + |buffers| && outcome(k) != Success;
      assert buffers[k - base].None?;
    }
  }

  /** `DestroyInternal`: every non-null command buffer goes back to the queue,
      in order, and the list is emptied. */
  method DestroyInternal(sc: Swapchain)
    requires sc.kind == Virtual
    requires sc.createInfo.queue == null ==> forall i :: 0 <= i < |sc.commandBuffers| ==> sc.commandBuffers[i].None?
    modifies sc, sc.createInfo.queue
    ensures sc.State() == old(sc.State()).(commandBuffers := [])
    ensures sc.createInfo.queue != null ==>
              sc.createInfo.queue.destroyed == old(sc.createInfo.queue.destroyed) + NonNull(old(sc.commandBuffers)) &&
              sc.createInfo.queue.submissions == old(sc.createInfo.queue.submissions) &&
              sc.createInfo.queue.requests == old(sc.createInfo.queue.requests)
  {
    DestroyEachCommandBuffer(sc.createInfo.queue, sc.commandBuffers);
    sc.commandBuffers := [];
  }

  /** `AcquireNextImage`: moves the current index one step round the ring of
      color images and submits that image's command buffer, signalling
      `semaphore` and `fence`. The timeout is not used. */
  method AcquireNextImage(sc: Swapchain, timeout: nat, semaphore: Option<SyncObject>, fence: Option<SyncObject>)
    returns (res: Result, imageIndex: U32)
    requires sc.kind == Virtual && sc.createInfo.queue != null
    requires 0 < |sc.colorImages| < U32_LIMIT
    requires NextImageIndex(sc.currentImageIndex, |sc.colorImages|) < |sc.commandBuffers|
    requires sc.commandBuffers[NextImageIndex(sc.currentImageIndex, |sc.colorImages|)].Some?
    modifies sc, sc.createInfo.queue
    ensures res == Success
    ensures imageIndex == NextImageIndex(old(sc.currentImageIndex), old(|sc.colorImages|))
    ensures sc.State() == old(sc.State()).(currentImageIndex := imageIndex)
    ensures sc.createInfo.queue.submissions ==
            old(sc.createInfo.queue.submissions) +
            [Submission([sc.commandBuffers[imageIndex].value], [], [semaphore], fence)]
    ensures sc.createInfo.queue.requests == old(sc.createInfo.queue.requests)
    ensures sc.createInfo.queue.destroyed == old(sc.createInfo.queue.destroyed)
  {
    imageIndex := NextImageIndex(sc.currentImageIndex, |sc.colorImages|);
    sc.currentImageIndex := imageIndex;
    var commandBuffer := sc.commandBuffers[imageIndex].value;
    sc.createInfo.queue.Submit(Submission([commandBuffer], [], [semaphore], fence));
    res := Success;
  }

  /** `Present`: `imageIndex` is not used; the command buffer of the current
      index is submitted waiting on `waitSemaphores`, and the swapchain itself
      is left as it was. */
  method Present(sc: Swapchain, imageIndex: U32, waitSemaphores: seq<SyncObject>) returns (res: Result)
    requires sc.kind == Virtual && sc.createInfo.queue != null
    requires sc.currentImageIndex < |sc.commandBuffers| && sc.commandBuffers[sc.currentImageIndex].Some?
    modifies sc.createInfo.queue
    ensures res == Success
    ensures sc.createInfo.queue.submissions ==
            old(sc.createInfo.queue.submissions) +
            [Submission([sc.commandBuffers[sc.currentImageIndex].value], waitSemaphores, [], None)]
    ensures sc.createInfo.queue.requests == old(sc.createInfo.queue.requests)
    ensures sc.createInfo.queue.destroyed == old(sc.createInfo.queue.destroyed)
  {
    var commandBuffer := sc.commandBuffers[sc.currentImageIndex].value;
    sc.createInfo.queue.Submit(Submission([commandBuffer], waitSemaphores, [], None));
    res := Success;
  }
}
