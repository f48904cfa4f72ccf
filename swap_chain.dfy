// The part of a swap chain every kind of swap chain shares: the image views
// of its images, the render target and depth buffer, and the framebuffers it
// keeps for each render pass. Vulkan objects are opaque handles handed out
// from a counter; destroying one records its handle.
module SwapChain {
  import opened Wrappers
  import CommandPool

  datatype Extent = Extent(width: nat, height: nat)

  /** A render target or depth buffer: its image view and its size. */
  datatype Attachment = Attachment(view: nat, extent: Extent)

  /** A framebuffer: its handle, its render pass, its attachment views in
      attachment order, and its size. */
  datatype Framebuffer = Framebuffer(handle: nat, renderPass: nat, attachments: seq<nat>, extent: Extent)

  /** The attachment views of the framebuffer of one image view. */
  function AttachmentsOf(msaa: bool, target: nat, depth: nat, view: nat): seq<nat> {
    if msaa then [target, depth, view] else [view, depth]
  }

  /** The framebuffers of a render pass, one per image view, with handles
      handed out from start. */
  function FramebuffersFor(rp: nat, msaa: bool, target: nat, depth: nat, views: seq<nat>, extent: Extent, start: nat)
    : seq<Framebuffer>
  {
    seq(|views|, i requires 0 <= i < |views| => Framebuffer(start + i, rp, AttachmentsOf(msaa, target, depth, views[i]), extent))
  }

  /** Whether the framebuffers are those of the render pass over these image
      views: one per view, in view order; with multisampling each attaches the
      render target, the depth buffer and then its view, otherwise its view and
      then the depth buffer. */
  ghost predicate Built(fs: seq<Framebuffer>, rp: nat, msaa: bool, target: nat, depth: nat, views: seq<nat>, extent: Extent) {
    |fs| == |views| &&
    forall i :: 0 <= i < |fs| ==>
      fs[i].renderPass == rp && fs[i].extent == extent &&
      (msaa ==> fs[i].attachments == [target, depth, views[i]]) &&
      (!msaa ==> fs[i].attachments == [views[i], depth])
  }

  /** The framebuffers made for a pass are built over the views, with distinct
      handles from start on. */
  lemma FramebuffersForBuilt(rp: nat, msaa: bool, target: nat, depth: nat, views: seq<nat>, extent: Extent, start: nat)
    ensures Built(FramebuffersFor(rp, msaa, target, depth, views, extent, start), rp, msaa, target, depth, views, extent)
    ensures forall i :: 0 <= i < |views| ==> FramebuffersFor(rp, msaa, target, depth, views, extent, start)[i].handle == start + i
  {
  }

  /** The handles of a list of framebuffers. */
  function ListHandles(fs: seq<Framebuffer>): set<nat> {
    set i | 0 <= i < |fs| :: fs[i].handle
  }

  /** The elements of a sequence. */
  function Members(s: seq<nat>): set<nat> {
    set v | v in s
  }

  /** The handles of the framebuffers of the given passes. */
  ghost function PassHandles(fbs: map<nat, seq<Framebuffer>>, passes: set<nat>): set<nat> {
    set rp, i | rp in passes && rp in fbs && 0 <= i < |fbs[rp]| :: fbs[rp][i].handle
  }

  /** Adding one pass adds the handles of its framebuffers. */
  lemma PassHandlesStep(fbs: map<nat, seq<Framebuffer>>, passes: set<nat>, rp: nat)
    requires rp in fbs
    ensures PassHandles(fbs, passes + {rp}) == PassHandles(fbs, passes) + ListHandles(fbs[rp])
  {
    forall h | h in PassHandles(fbs, passes + {rp})
      ensures h in PassHandles(fbs, passes) + ListHandles(fbs[rp])
    {
      var q, i :| q in passes + {rp} && q in fbs && 0 <= i < |fbs[q]| && fbs[q][i].handle == h;
      if q != rp {
        assert h in PassHandles(fbs, passes);
      }
    }
    forall h | h in ListHandles(fbs[rp])
      ensures h in PassHandles(fbs, passes + {rp})
    {
      var i :| 0 <= i < |fbs[rp]| && fbs[rp][i].handle == h;
      assert fbs[rp][i].handle in PassHandles(fbs, passes + {rp});
    }
  }

  class SwapChain {
    /** Whether multisampling is on: the sample count of the graphics settings is not one. */
    const msaa: bool
    var resolution: Extent
    var imageRenderingFormat: nat
    var imageColorSpace: nat
    var images: seq<nat>
    var imageViews: seq<nat>
    var renderTarget: Option<Attachment>
    var depthBuffer: Option<Attachment>
    /** The framebuffers of each render pass, one per image view. */
    var framebuffers: map<nat, seq<Framebuffer>>
    /** Every handle destroyed so far. */
    var destroyed: set<nat>
    /** The next handle the driver hands out. */
    var nextHandle: nat

    /** A swap chain of this size and rendering format in the sRGB non-linear
        colour space (value 0), with nothing created. */
    constructor (extent: Extent, renderingFormat: nat, msaa: bool)
      ensures this.msaa == msaa && resolution == extent && imageRenderingFormat == renderingFormat
      ensures imageColorSpace == 0
      ensures images == [] && imageViews == [] && renderTarget == None && depthBuffer == None
      ensures framebuffers == map[] && destroyed == {}
    {
      this.msaa := msaa;
      resolution := extent;
      imageRenderingFormat := renderingFormat;
      imageColorSpace := 0;
      images := [];
      imageViews := [];
      renderTarget := None;
      depthBuffer := None;
      framebuffers := map[];
      destroyed := {};
      nextHandle := 0;
    }

    /** A new handle from the driver. */
    method NewHandle() returns (h: nat)
      modifies this`nextHandle
      ensures h == old(nextHandle) && nextHandle == h + 1
    {
      h := nextHandle;
      nextHandle := nextHandle + 1;
    }

    /** Creates one image view per image, in image order. */
    method CreateImageViews()
      modifies this`imageViews, this`nextHandle
      ensures imageViews == CommandPool.Handles(old(nextHandle), |images|)
      ensures nextHandle == old(nextHandle) + |images|
    {
      var views: seq<nat> := [];
      for i := 0 to |images|
        invariant views == CommandPool.Handles(old(nextHandle), i)
        invariant nextHandle == old(nextHandle) + i
      {
        assert CommandPool.Handles(old(nextHandle), i + 1) == CommandPool.Handles(old(nextHandle), i) + [nextHandle];
        views := views + [nextHandle];
        nextHandle := nextHandle + 1;
      }
      imageViews := views;
    }

    /** Destroys the framebuffers of the render pass; the pass keeps its entry,
        with no framebuffers. A pass without an entry changes nothing. */
    method DestroyFramebuffers(rp: nat)
      modifies this`framebuffers, this`destroyed
      ensures rp in old(framebuffers) ==>
        framebuffers == old(framebuffers)[rp := []] && destroyed == old(destroyed) + ListHandles(old(framebuffers)[rp])
      ensures rp !in old(framebuffers) ==> framebuffers == old(framebuffers) && destroyed == old(destroyed)
    {
      if rp in framebuffers {
        var fs := framebuffers[rp];
        for i := 0 to |fs|
          invariant framebuffers == old(framebuffers)
          invariant destroyed == old(destroyed) + ListHandles(fs[..i])
        {
          assert ListHandles(fs[..i + 1]) == ListHandles(fs[..i]) + {fs[i].handle} by {
            assert forall j :: 0 <= j < i ==> fs[..i + 1][j] == fs[..i][j];
          }
          destroyed := destroyed + {fs[i].handle};
        }
        assert fs[..|fs|] == fs;
        framebuffers := framebuffers[rp := []];
      }
    }

    /** Creates the framebuffers of the render pass, one per image view, after
        destroying the ones it had. */
    method CreateFramebuffers(rp: nat)
      requires renderTarget.Some? && depthBuffer.Some?
      modifies this`framebuffers, this`destroyed, this`nextHandle
      ensures destroyed == old(destroyed) + (if rp in old(framebuffers) then ListHandles(old(framebuffers)[rp]) else {})
      ensures framebuffers == old(framebuffers)[rp :=
        FramebuffersFor(rp, msaa, renderTarget.value.view, depthBuffer.value.view, imageViews, resolution, old(nextHandle))]
      ensures nextHandle == old(nextHandle) + |imageViews|
    {
      if rp in framebuffers && framebuffers[rp] != [] {
        DestroyFramebuffers(rp);
      }
      var target := renderTarget.value.view;
      var depth := depthBuffer.value.view;
      ghost var start := nextHandle;
      ghost var cleared := framebuffers;
      ghost var destroyedBefore := destroyed;
      var fs: seq<Framebuffer> := [];
      for i := 0 to |imageViews|
        invariant nextHandle == start + i
        invariant framebuffers == cleared && destroyed == destroyedBefore
        invariant fs == FramebuffersFor(rp, msaa, target, depth, imageViews[..i], resolution, start)
      {
        var attachments: seq<nat>;
        if msaa {
          attachments := [target, depth, imageViews[i]];
        } else {
          attachments := [imageViews[i], depth];
        }
        var h := NewHandle();
        fs := fs + [Framebuffer(h, rp, attachments, resolution)];
      }
      assert imageViews[..|imageViews|] == imageViews;
      framebuffers := framebuffers[rp := fs];
    }

    /** Destroys the framebuffers of every render pass; each pass keeps its
        entry, with no framebuffers. The passes are visited in no particular
        order. */
    method DestroyAllFramebuffers()
      modifies this`framebuffers, this`destroyed
      ensures framebuffers.Keys == old(framebuffers).Keys && forall rp :: rp in framebuffers ==> framebuffers[rp] == []
      ensures destroyed == old(destroyed) + PassHandles(old(framebuffers), old(framebuffers).Keys)
    {
      var todo := framebuffers.Keys;
      while todo != {}
        invariant todo <= old(framebuffers).Keys
        invariant framebuffers.Keys == old(framebuffers).Keys
        invariant forall rp :: rp in todo ==> framebuffers[rp] == old(framebuffers)[rp]
        invariant forall rp :: rp in framebuffers && rp !in todo ==> framebuffers[rp] == []
        invariant destroyed == old(destroyed) + PassHandles(old(framebuffers), old(framebuffers).Keys - todo)
        decreases todo
      {
        var rp :| rp in todo;
        PassHandlesStep(old(framebuffers), old(framebuffers).Keys - todo, rp);
        assert old(framebuffers).Keys - (todo - {rp}) == (old(framebuffers).Keys - todo) + {rp};
        DestroyFramebuffers(rp);
        todo := todo - {rp};
      }
    }

    /** Destroys every image view, in order. */
    method DestroyImageViews()
      modifies this`destroyed, this`imageViews
      ensures imageViews == []
      ensures destroyed == old(destroyed) + Members(old(imageViews))
    {
      var views := imageViews;
      for i := 0 to |views|
        invariant imageViews == views
        invariant destroyed == old(destroyed) + Members(views[..i])
      {
        assert views[..i + 1] == views[..i] + [views[i]];
        destroyed := destroyed + {views[i]};
      }
      assert views[..|views|] == views;
      imageViews := [];
    }

    /** The shared part of cleaning up: every pass's framebuffers are destroyed,
        the passes are forgotten unless kept, and the image views are destroyed.
        The passes are visited in no particular order. */
    method CleanupFramebuffersAndViews(keepRenderPasses: bool)
      modifies this`framebuffers, this`destroyed, this`imageViews
      ensures keepRenderPasses ==>
        framebuffers.Keys == old(framebuffers).Keys && forall rp :: rp in framebuffers ==> framebuffers[rp] == []
      ensures !keepRenderPasses ==> framebuffers == map[]
      ensures imageViews == []
      ensures destroyed == old(destroyed) + PassHandles(old(framebuffers), old(framebuffers).Keys) +
        Members(old(imageViews))
    {
      DestroyAllFramebuffers();
      if !keepRenderPasses {
        framebuffers := map[];
      }
      DestroyImageViews();
    }

    /** The shared part of creating, once the swap chain's images exist: an
        image view per image, the render target and depth buffer made or
        remade at the current size, and the framebuffers of every render pass
        it has an entry for, in no particular order. */
    method CreateFromImages()
      modifies this`imageViews, this`nextHandle, this`renderTarget, this`depthBuffer, this`framebuffers, this`destroyed
      ensures |imageViews| == |images|
      ensures forall v :: v in imageViews ==> old(nextHandle) <= v
      ensures renderTarget.Some? && renderTarget.value.extent == resolution
      ensures depthBuffer.Some? && depthBuffer.value.extent == resolution
      ensures old(nextHandle) <= renderTarget.value.view && old(nextHandle) <= depthBuffer.value.view
      ensures old(renderTarget).Some? ==> old(renderTarget).value.view in destroyed
      ensures old(depthBuffer).Some? ==> old(depthBuffer).value.view in destroyed
      ensures framebuffers.Keys == old(framebuffers).Keys
      ensures forall rp :: rp in framebuffers ==>
        Built(framebuffers[rp], rp, msaa, renderTarget.value.view, depthBuffer.value.view, imageViews, resolution)
      ensures old(nextHandle) <= nextHandle
      ensures old(destroyed) <= destroyed
    {
      CreateImageViews();
      if renderTarget.Some? {
        destroyed := destroyed + {renderTarget.value.view};
      }
      var target := NewHandle();
      renderTarget := Some(Attachment(target, resolution));
      if depthBuffer.Some? {
        destroyed := destroyed + {depthBuffer.value.view};
      }
      var depth := NewHandle();
      depthBuffer := Some(Attachment(depth, resolution));
      CreateAllFramebuffers(target, depth);
    }

    /** Whether the framebuffers of each of the passes are built over the
        image views with this render target and depth buffer. */
    ghost predicate PassesBuilt(passes: set<nat>, target: nat, depth: nat)
      reads this
    {
      forall rp :: rp in passes && rp in framebuffers ==>
        Built(framebuffers[rp], rp, msaa, target, depth, imageViews, resolution)
    }

    /** Creates the framebuffers of every render pass the swap chain has an
        entry for, in no particular order. */
    method CreateAllFramebuffers(target: nat, depth: nat)
      requires renderTarget == Some(Attachment(target, resolution)) && depthBuffer == Some(Attachment(depth, resolution))
      modifies this`framebuffers, this`destroyed, this`nextHandle
      ensures framebuffers.Keys == old(framebuffers).Keys
      ensures PassesBuilt(framebuffers.Keys, target, depth)
      ensures old(nextHandle) <= nextHandle && old(destroyed) <= destroyed
    {
      var todo := framebuffers.Keys;
      while todo != {}
        invariant todo <= framebuffers.Keys == old(framebuffers).Keys
        invariant PassesBuilt(framebuffers.Keys - todo, target, depth)
        invariant old(nextHandle) <= nextHandle && old(destroyed) <= destroyed
        decreases todo
      {
        var rp :| rp in todo;
        FramebuffersForBuilt(rp, msaa, target, depth, imageViews, resolution, nextHandle);
        CreateFramebuffers(rp);
        todo := todo - {rp};
      }
    }
  }
}
