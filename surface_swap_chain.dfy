// The swap chain that presents to a window surface: the choice of present
// mode, surface format and extent from what the surface supports, the create
// info handed to the driver, and the per-frame semaphores. The shared part of
// every swap chain is a SwapChain.SwapChain this one holds; the engine's
// target format and colour space are defined in a header that is not part of
// this model and are given to the constructor.
module SurfaceSwapChain {
  import opened Wrappers
  import Settings
  import Device
  import CommandPool
  import SwapChain

  /** VkPresentModeKHR values. */
  const PresentModeImmediate: nat := 0
  const PresentModeMailbox: nat := 1
  const PresentModeFifo: nat := 2
  const PresentModeFifoRelaxed: nat := 3

  /** The largest uint32_t: a current extent of this width means the surface
      leaves the extent to the swap chain. */
  const UInt32Max: nat := 0xFFFF_FFFF

  datatype SurfaceFormat = SurfaceFormat(format: nat, colorSpace: nat)

  datatype Capabilities = Capabilities(
    minImageCount: nat, maxImageCount: nat,
    currentExtent: SwapChain.Extent, minImageExtent: SwapChain.Extent, maxImageExtent: SwapChain.Extent,
    currentTransform: nat)

  /** What the surface supports, as the device reports it. */
  datatype SwapChainSupport = SwapChainSupport(capabilities: Capabilities, formats: seq<SurfaceFormat>, presentModes: seq<nat>)

  datatype SharingMode = Exclusive | Concurrent

  /** The fields of the swap chain's create info the model keeps. */
  datatype CreateInfo = CreateInfo(
    minImageCount: nat, imageFormat: nat, imageColorSpace: nat, imageExtent: SwapChain.Extent,
    sharingMode: SharingMode, queueFamilyIndices: seq<nat>, preTransform: nat, presentMode: nat,
    oldSwapchain: Option<nat>)

  /** The sharing of the swap chain's images: concurrent between the graphics
      and the present family when they differ, exclusive when they are one. */
  function Sharing(graphicsFamily: nat, presentFamily: nat): (r: (SharingMode, seq<nat>))
    ensures r.0 == Concurrent <==> graphicsFamily != presentFamily
    ensures r.0 == Concurrent ==> r.1 == [graphicsFamily, presentFamily] && r.1[0] != r.1[1]
    ensures r.0 == Exclusive ==> r.1 == []
  {
    if graphicsFamily != presentFamily then (Concurrent, [graphicsFamily, presentFamily]) else (Exclusive, [])
  }

  /** Whether a surface format is the engine's target format and colour space. */
  predicate IsTarget(f: SurfaceFormat, targetFormat: nat, targetColorSpace: nat) {
    f.format == targetFormat && f.colorSpace == targetColorSpace
  }

  /** The first format at index i or later that is the target, if any. */
  function FirstTarget(formats: seq<SurfaceFormat>, targetFormat: nat, targetColorSpace: nat, i: nat): (r: Option<nat>)
    requires i <= |formats|
    ensures r.Some? ==> i <= r.value < |formats| && IsTarget(formats[r.value], targetFormat, targetColorSpace)
    ensures r.Some? ==> forall j :: i <= j < r.value ==> !IsTarget(formats[j], targetFormat, targetColorSpace)
    ensures r.None? ==> forall j :: i <= j < |formats| ==> !IsTarget(formats[j], targetFormat, targetColorSpace)
    decreases |formats| - i
  {
    if i == |formats| then None
    else if IsTarget(formats[i], targetFormat, targetColorSpace) then Some(i)
    else FirstTarget(formats, targetFormat, targetColorSpace, i + 1)
  }

  /** The extent of the swap chain: the surface's current extent unless its
      width is the largest uint32_t; then the framebuffer's size, cast to
      uint32_t and clamped to the supported extents. */
  function ChoseExtent(c: Capabilities, framebufferWidth: int, framebufferHeight: int): (r: SwapChain.Extent)
    requires c.currentExtent.width == UInt32Max ==>
      c.minImageExtent.width <= c.maxImageExtent.width && c.minImageExtent.height <= c.maxImageExtent.height
    ensures c.currentExtent.width != UInt32Max ==> r == c.currentExtent
    ensures c.currentExtent.width == UInt32Max ==>
      c.minImageExtent.width <= r.width <= c.maxImageExtent.width &&
      c.minImageExtent.height <= r.height <= c.maxImageExtent.height &&
      (c.minImageExtent.width <= framebufferWidth % Device.U32 <= c.maxImageExtent.width ==>
         r.width == framebufferWidth % Device.U32) &&
      (c.minImageExtent.height <= framebufferHeight % Device.U32 <= c.maxImageExtent.height ==>
         r.height == framebufferHeight % Device.U32)
  {
    if c.currentExtent.width != UInt32Max then c.currentExtent
    else
      SwapChain.Extent(
        Device.Clamp(framebufferWidth % Device.U32, c.minImageExtent.width, c.maxImageExtent.width),
        Device.Clamp(framebufferHeight % Device.U32, c.minImageExtent.height, c.maxImageExtent.height))
  }

  class SurfaceSwapChain {
    /** The shared part of the swap chain. */
    const chain: SwapChain.SwapChain
    const targetFormat: nat
    const targetColorSpace: nat
    /** The device's queue-family indices. */
    const families: Device.QueueFamilyIndices
    var support: SwapChainSupport
    var swapChainFormat: nat
    var vkSwapChain: Option<nat>
    /** The create info last handed to the driver. */
    var createInfo: Option<CreateInfo>
    var imageAvailableSemaphores: seq<nat>
    var renderFinishedSemaphores: seq<nat>

    /** A swap chain for a surface with this support: the extent and the
        surface format are chosen, then the swap chain is created with the
        number of images the driver gives it. */
    constructor (support: SwapChainSupport, framebufferWidth: int, framebufferHeight: int,
                 families: Device.QueueFamilyIndices, targetFormat: nat, targetColorSpace: nat,
                 msaa: bool, imageCount: nat)
      requires |support.formats| > 0
      requires families.graphicsFamily.Some? && families.presentFamily.Some?
      requires support.capabilities.currentExtent.width == UInt32Max ==>
        support.capabilities.minImageExtent.width <= support.capabilities.maxImageExtent.width &&
        support.capabilities.minImageExtent.height <= support.capabilities.maxImageExtent.height
      ensures chain.resolution == ChoseExtent(support.capabilities, framebufferWidth, framebufferHeight)
      ensures match FirstTarget(support.formats, targetFormat, targetColorSpace, 0)
        case Some(i) => chain.imageRenderingFormat == targetFormat && chain.imageColorSpace == targetColorSpace
        case None => chain.imageRenderingFormat == support.formats[0].format &&
                     chain.imageColorSpace == support.formats[0].colorSpace
      ensures vkSwapChain.Some? && |chain.images| == imageCount && |chain.imageViews| == imageCount
      ensures |imageAvailableSemaphores| == Settings.MaxFramesInFlight == |renderFinishedSemaphores|
      ensures chain.framebuffers == map[]
    {
      chain := new SwapChain.SwapChain(SwapChain.Extent(0, 0), targetFormat, msaa);
      this.targetFormat := targetFormat;
      this.targetColorSpace := targetColorSpace;
      this.families := families;
      this.support := support;
      swapChainFormat := 0;
      vkSwapChain := None;
      createInfo := None;
      imageAvailableSemaphores := [];
      renderFinishedSemaphores := [];
      new;
      chain.resolution := ChoseExtent(support.capabilities, framebufferWidth, framebufferHeight);
      var chosen := ChooseSurfaceFormat();
      chain.imageRenderingFormat := chosen.format;
      chain.imageColorSpace := chosen.colorSpace;
      Create(imageCount);
    }

    /** Mailbox when the surface offers it, FIFO otherwise. */
    method ChoosePresentMode() returns (r: nat)
      ensures r == PresentModeMailbox <==> PresentModeMailbox in support.presentModes
      ensures r != PresentModeMailbox ==> r == PresentModeFifo
    {
      var modes := support.presentModes;
      for i := 0 to |modes|
        invariant PresentModeMailbox !in modes[..i]
      {
        if modes[i] == PresentModeMailbox {
          return modes[i];
        }
        assert modes[..i + 1] == modes[..i] + [modes[i]];
      }
      assert modes[..|modes|] == modes;
      return PresentModeFifo;
    }

    /** The first supported format that is the target format and colour space,
        else the first supported format; the swap-chain format is set to the
        chosen format. */
    method ChooseSurfaceFormat() returns (r: SurfaceFormat)
      requires |support.formats| > 0
      modifies this`swapChainFormat
      ensures match FirstTarget(support.formats, targetFormat, targetColorSpace, 0)
        case Some(i) => r == support.formats[i] && swapChainFormat == targetFormat
        case None => r == support.formats[0] && swapChainFormat == support.formats[0].format
    {
      var formats := support.formats;
      for i := 0 to |formats|
        invariant forall j :: 0 <= j < i ==> !IsTarget(formats[j], targetFormat, targetColorSpace)
      {
        if formats[i].format == targetFormat && formats[i].colorSpace == targetColorSpace {
          swapChainFormat := targetFormat;
          return formats[i];
        }
      }
      swapChainFormat := formats[0].format;
      return formats[0];
    }

    /** Creates the driver's swap chain and takes its images. The create info
        asks for the surface's minimum image count, the chain's format, colour
        space and resolution, the sharing of the queue families and the chosen
        present mode, and names the swap chain it replaces. The semaphores of
        the frames in flight are created the first time only. */
    method ImplCreate(imageCount: nat)
      requires families.graphicsFamily.Some? && families.presentFamily.Some?
      modifies this`vkSwapChain, this`createInfo, this`imageAvailableSemaphores, this`renderFinishedSemaphores
      modifies chain`images, chain`nextHandle
      ensures createInfo.Some?
      ensures createInfo.value.minImageCount == support.capabilities.minImageCount
      ensures createInfo.value.imageFormat == chain.imageRenderingFormat
      ensures createInfo.value.imageColorSpace == chain.imageColorSpace
      ensures createInfo.value.imageExtent == chain.resolution
      ensures (createInfo.value.sharingMode, createInfo.value.queueFamilyIndices) ==
        Sharing(families.graphicsFamily.value, families.presentFamily.value)
      ensures createInfo.value.preTransform == support.capabilities.currentTransform
      ensures createInfo.value.presentMode == PresentModeMailbox <==> PresentModeMailbox in support.presentModes
      ensures createInfo.value.presentMode != PresentModeMailbox ==> createInfo.value.presentMode == PresentModeFifo
      ensures createInfo.value.oldSwapchain == old(vkSwapChain)
      ensures vkSwapChain == Some(old(chain.nextHandle))
      ensures chain.images == CommandPool.Handles(old(chain.nextHandle) + 1, imageCount)
      ensures old(imageAvailableSemaphores) == [] ==>
        imageAvailableSemaphores ==
          CommandPool.Handles(old(chain.nextHandle) + 1 + imageCount, Settings.MaxFramesInFlight) &&
        renderFinishedSemaphores ==
          CommandPool.Handles(old(chain.nextHandle) + 1 + imageCount + Settings.MaxFramesInFlight, Settings.MaxFramesInFlight)
      ensures old(imageAvailableSemaphores) != [] ==>
        imageAvailableSemaphores == old(imageAvailableSemaphores) && renderFinishedSemaphores == old(renderFinishedSemaphores)
      ensures old(chain.nextHandle) < chain.nextHandle
    {
      var presentMode := ChoosePresentMode();
      var minImages := Device.CapabilitiesSwapChainImageCount(support.capabilities.minImageCount,
                                                              support.capabilities.maxImageCount);
      var sharing := Sharing(families.graphicsFamily.value, families.presentFamily.value);
      createInfo := Some(CreateInfo(minImages, chain.imageRenderingFormat, chain.imageColorSpace, chain.resolution,
                                    sharing.0, sharing.1, support.capabilities.currentTransform, presentMode,
                                    vkSwapChain));
      var h := chain.NewHandle();
      vkSwapChain := Some(h);
      var images := NewHandles(imageCount);
      chain.images := images;
      if imageAvailableSemaphores == [] {
        var available := NewHandles(Settings.MaxFramesInFlight);
        var finished := NewHandles(Settings.MaxFramesInFlight);
        imageAvailableSemaphores := available;
        renderFinishedSemaphores := finished;
      }
    }

    /** n new handles from the driver, in order. */
    method NewHandles(n: nat) returns (hs: seq<nat>)
      modifies chain`nextHandle
      ensures hs == CommandPool.Handles(old(chain.nextHandle), n)
      ensures chain.nextHandle == old(chain.nextHandle) + n
    {
      hs := [];
      for i := 0 to n
        invariant hs == CommandPool.Handles(old(chain.nextHandle), i)
        invariant chain.nextHandle == old(chain.nextHandle) + i
      {
        assert CommandPool.Handles(old(chain.nextHandle), i + 1) == CommandPool.Handles(old(chain.nextHandle), i) + [chain.nextHandle];
        var h := chain.NewHandle();
        hs := hs + [h];
      }
    }

    /** Destroys the driver's swap chain. */
    method ImplCleanup()
      modifies this`vkSwapChain, chain`destroyed
      ensures vkSwapChain == None
      ensures chain.destroyed == old(chain.destroyed) + (if old(vkSwapChain).Some? then {old(vkSwapChain).value} else {})
    {
      if vkSwapChain.Some? {
        chain.destroyed := chain.destroyed + {vkSwapChain.value};
      }
      vkSwapChain := None;
    }

    /** Creates the driver's swap chain, then its image views, attachments and
        the framebuffers of every render pass the chain has an entry for. */
    method Create(imageCount: nat)
      requires families.graphicsFamily.Some? && families.presentFamily.Some?
      modifies this`vkSwapChain, this`createInfo, this`imageAvailableSemaphores, this`renderFinishedSemaphores
      modifies chain
      ensures vkSwapChain.Some?
      ensures chain.resolution == old(chain.resolution) && chain.framebuffers.Keys == old(chain.framebuffers).Keys
      ensures chain.imageRenderingFormat == old(chain.imageRenderingFormat)
      ensures chain.imageColorSpace == old(chain.imageColorSpace)
      ensures |chain.images| == imageCount && |chain.imageViews| == imageCount
      ensures chain.renderTarget.Some? && chain.depthBuffer.Some?
      ensures forall rp :: rp in chain.framebuffers ==>
        SwapChain.Built(chain.framebuffers[rp], rp, chain.msaa, chain.renderTarget.value.view,
                        chain.depthBuffer.value.view, chain.imageViews, chain.resolution)
      ensures old(imageAvailableSemaphores) == [] ==> |imageAvailableSemaphores| == Settings.MaxFramesInFlight
      ensures old(imageAvailableSemaphores) == [] ==> |renderFinishedSemaphores| == Settings.MaxFramesInFlight
      ensures old(imageAvailableSemaphores) != [] ==>
        imageAvailableSemaphores == old(imageAvailableSemaphores) && renderFinishedSemaphores == old(renderFinishedSemaphores)
      ensures old(chain.destroyed) <= chain.destroyed
    {
      ImplCreate(imageCount);
      chain.CreateFromImages();
    }

    /** Rebuilds the swap chain at a new size: the framebuffers and image views
        are destroyed with the render passes kept, the driver's swap chain is
        destroyed and created again, and every kept render pass gets new
        framebuffers over the new image views at the new size. */
    method Recreate(width: nat, height: nat, imageCount: nat)
      requires families.graphicsFamily.Some? && families.presentFamily.Some?
      modifies this`vkSwapChain, this`createInfo, this`imageAvailableSemaphores, this`renderFinishedSemaphores
      modifies chain
      ensures chain.resolution == SwapChain.Extent(width, height)
      ensures chain.framebuffers.Keys == old(chain.framebuffers).Keys
      ensures |chain.imageViews| == imageCount
      ensures chain.renderTarget.Some? && chain.depthBuffer.Some?
      ensures forall rp :: rp in chain.framebuffers ==>
        SwapChain.Built(chain.framebuffers[rp], rp, chain.msaa, chain.renderTarget.value.view,
                        chain.depthBuffer.value.view, chain.imageViews, SwapChain.Extent(width, height))
      ensures SwapChain.PassHandles(old(chain.framebuffers), old(chain.framebuffers).Keys) <= chain.destroyed
      ensures SwapChain.Members(old(chain.imageViews)) <= chain.destroyed
      ensures old(vkSwapChain).Some? ==> old(vkSwapChain).value in chain.destroyed
    {
      chain.resolution := SwapChain.Extent(width, height);
      chain.CleanupFramebuffersAndViews(true);
      ImplCleanup();
      Create(imageCount);
    }
  }
}
