/**
 * Image bookkeeping of a texture: mip-level count, queue sharing, layout
 * transitions and their barriers, the mip-map blit chain, image-view types
 * and format selection.
 */
module Texture {
  import opened Wrappers

  datatype ImageType = Image1D | Image2D | Image3D

  datatype ImageViewType = View1D | View2D | View3D | View1DArray | View2DArray | ViewCubeArray

  /** The VkImageLayout values the transitions name; every other layout is OtherLayout. */
  datatype ImageLayout =
    | Undefined
    | TransferDstOptimal
    | TransferSrcOptimal
    | ShaderReadOnlyOptimal
    | DepthStencilAttachmentOptimal
    | DepthAttachmentOptimal
    | OtherLayout(id: nat)

  /** The depth formats FindDepthFormat tries; every other format is OtherFormat. */
  datatype Format = D32Sfloat | D32SfloatS8Uint | D24UnormS8Uint | OtherFormat(id: nat)

  datatype ImageTiling = Optimal | Linear | OtherTiling(id: nat)

  datatype SharingMode = Exclusive | Concurrent

  /** VkImageAspectFlagBits. */
  const AspectColor: bv32 := 0x1
  const AspectDepth: bv32 := 0x2
  const AspectStencil: bv32 := 0x4

  /** VkImageUsageFlagBits used here. */
  const UsageTransferSrc: bv32 := 0x1
  const UsageTransferDst: bv32 := 0x2

  /** The access and pipeline-stage scope on one side of a barrier. */
  datatype SyncScope =
    | TopOfPipe
    | TransferWrite
    | TransferRead
    | ShaderReadInShaders
    | DepthAttachmentAccess

  /** The fields of a layout-transition barrier that the transition decides. */
  datatype Barrier = Barrier(
    oldLayout: ImageLayout, newLayout: ImageLayout, aspectMask: bv32,
    levelCount: nat, layerCount: nat, src: SyncScope, dst: SyncScope)

  datatype TransitionError = UnsupportedTransition

  /** HasStencilComponent: the two depth formats with a stencil part. */
  predicate HasStencilComponent(f: Format)
  {
    f == D32SfloatS8Uint || f == D24UnormS8Uint
  }

  /** floor(log2(n)). */
  function Log2Floor(n: nat): (r: nat)
    requires n >= 1
    ensures Pow2(r) <= n < Pow2(r + 1)
  {
    if n == 1 then 0 else 1 + Log2Floor(n / 2)
  }

  function Pow2(k: nat): (r: nat)
    ensures r >= 1
  {
    if k == 0 then 1 else 2 * Pow2(k - 1)
  }

  function Max3(a: nat, b: nat, c: nat): nat
  {
    if a >= b && a >= c then a else if b >= c then b else c
  }

  /**
   * The mip-level count of a texture: floor(log2 of the largest extent) + 1
   * with mip-maps, else 1. Every extent is at least 1 in Vulkan.
   */
  function MipLevelCount(width: nat, height: nat, depth: nat, generateMipMaps: bool): (r: nat)
    requires width >= 1 && height >= 1 && depth >= 1
    ensures r >= 1
    ensures !generateMipMaps ==> r == 1
    ensures generateMipMaps ==> Pow2(r - 1) <= Max3(width, height, depth) < Pow2(r)
  {
    if generateMipMaps then Log2Floor(Max3(width, height, depth)) + 1 else 1
  }

  /** Generating mip-maps adds the transfer source and destination usages. */
  function TextureUsage(usage: bv32, generateMipMaps: bool): (r: bv32)
    ensures generateMipMaps ==> r & UsageTransferSrc != 0 && r & UsageTransferDst != 0
    ensures r & usage == usage
    ensures !generateMipMaps ==> r == usage
  {
    if generateMipMaps then usage | UsageTransferSrc | UsageTransferDst else usage
  }

  /** The usage gains no bit beyond the requested ones and the two transfer usages. */
  lemma TextureUsageAddsNothingElse(usage: bv32, generateMipMaps: bool)
    ensures TextureUsage(usage, generateMipMaps) & !(usage | UsageTransferSrc | UsageTransferDst) == 0
  {
    if generateMipMaps {
      assert TextureUsage(usage, generateMipMaps) == usage | UsageTransferSrc | UsageTransferDst;
      WithinUnion(usage | UsageTransferSrc | UsageTransferDst);
    } else {
      WithinLarger(usage, UsageTransferSrc | UsageTransferDst);
    }
  }

  lemma WithinUnion(u: bv32)
    ensures u & !u == 0
  {
  }

  lemma WithinLarger(u: bv32, v: bv32)
    ensures u & !(u | v) == 0
  {
  }

  /** Create: the image is shared concurrently exactly when graphics and transfer families differ. */
  function ImageSharingMode(graphicsFamily: nat, transferFamily: nat): (r: SharingMode)
    ensures r == Concurrent <==> graphicsFamily != transferFamily
  {
    if |{graphicsFamily, transferFamily}| > 1 then Concurrent else Exclusive
  }

  /** The source scope for each supported old layout. */
  function SourceScope(from: ImageLayout): Option<SyncScope>
  {
    match from
    case Undefined => Some(TopOfPipe)
    case TransferDstOptimal => Some(TransferWrite)
    case TransferSrcOptimal => Some(TransferRead)
    case ShaderReadOnlyOptimal => Some(ShaderReadInShaders)
    case _ => None
  }

  /** The destination scope for each supported new layout. */
  function DestinationScope(to: ImageLayout): Option<SyncScope>
  {
    match to
    case ShaderReadOnlyOptimal => Some(ShaderReadInShaders)
    case TransferDstOptimal => Some(TransferWrite)
    case TransferSrcOptimal => Some(TransferRead)
    case DepthAttachmentOptimal => Some(DepthAttachmentAccess)
    case _ => None
  }

  /**
   * The aspect of a transition barrier as written: depth (with stencil for
   * a stencil format) only for a transition to the depth-stencil attachment
   * layout, colour for every other target.
   */
  function TransitionAspect(newLayout: ImageLayout, format: Format): (r: bv32)
    ensures newLayout == DepthStencilAttachmentOptimal ==>
              r & AspectDepth != 0 && (r & AspectStencil != 0 <==> HasStencilComponent(format))
    ensures newLayout != DepthStencilAttachmentOptimal ==> r == AspectColor
  {
    if newLayout == DepthStencilAttachmentOptimal then
      if HasStencilComponent(format) then AspectDepth | AspectStencil else AspectDepth
    else AspectColor
  }

  /**
   * The barrier EnqueueTransitionImageLayout records, or its
   * invalid_argument when the old or the new layout is not supported.
   */
  function TransitionBarrier(from: ImageLayout, to: ImageLayout, format: Format, mipLevels: nat, layers: nat):
    (r: Result<Barrier, TransitionError>)
    ensures r.Ok? <==> SourceScope(from).Some? && DestinationScope(to).Some?
    ensures r.Ok? ==> r.value.oldLayout == from && r.value.newLayout == to &&
                      r.value.levelCount == mipLevels && r.value.layerCount == layers &&
                      r.value.aspectMask == TransitionAspect(to, format)
  {
    var aspect := TransitionAspect(to, format);
    match SourceScope(from)
    case None => Err(UnsupportedTransition)
    case Some(src) =>
      match DestinationScope(to)
      case None => Err(UnsupportedTransition)
      case Some(dst) => Ok(Barrier(from, to, aspect, mipLevels, layers, src, dst))
  }

  /**
   * The depth aspect is never produced as written: the only target layout
   * that selects it is refused, and the depth attachment layout that is
   * accepted gets the colour aspect.
   */
  lemma DepthAspectUnreachable(from: ImageLayout, to: ImageLayout, format: Format, mipLevels: nat, layers: nat)
    ensures var r := TransitionBarrier(from, to, format, mipLevels, layers);
            r.Ok? ==> r.value.aspectMask == AspectColor
    ensures TransitionBarrier(Undefined, DepthAttachmentOptimal, format, mipLevels, layers).Ok?
    ensures TransitionBarrier(Undefined, DepthAttachmentOptimal, format, mipLevels, layers).value.aspectMask == AspectColor
  {
  }

  /** The aspect as intended: depth, with stencil for stencil formats, for either depth target layout. */
  function TransitionAspectFixed(newLayout: ImageLayout, format: Format): (r: bv32)
    ensures newLayout == DepthAttachmentOptimal || newLayout == DepthStencilAttachmentOptimal ==>
              r & AspectDepth != 0 && r & AspectColor == 0 &&
              (r & AspectStencil != 0 <==> HasStencilComponent(format))
    ensures !(newLayout == DepthAttachmentOptimal || newLayout == DepthStencilAttachmentOptimal) ==> r == AspectColor
  {
    if newLayout == DepthAttachmentOptimal || newLayout == DepthStencilAttachmentOptimal then
      if HasStencilComponent(format) then AspectDepth | AspectStencil else AspectDepth
    else AspectColor
  }

  /** The transition barrier with the intended aspect; it accepts the same layouts. */
  function TransitionBarrierFixed(from: ImageLayout, to: ImageLayout, format: Format, mipLevels: nat, layers: nat):
    (r: Result<Barrier, TransitionError>)
    ensures r.Ok? <==> TransitionBarrier(from, to, format, mipLevels, layers).Ok?
    ensures r.Ok? ==> r.value == TransitionBarrier(from, to, format, mipLevels, layers).value.(aspectMask := TransitionAspectFixed(to, format))
  {
    match TransitionBarrier(from, to, format, mipLevels, layers)
    case Err(e) => Err(e)
    case Ok(b) => Ok(b.(aspectMask := TransitionAspectFixed(to, format)))
  }

  /** With the fix, a successful transition to the depth attachment layout covers depth, and stencil exactly for stencil formats. */
  lemma FixedDepthTransition(from: ImageLayout, format: Format, mipLevels: nat, layers: nat)
    requires SourceScope(from).Some?
    ensures var r := TransitionBarrierFixed(from, DepthAttachmentOptimal, format, mipLevels, layers);
            r.Ok? && r.value.aspectMask & AspectDepth != 0 &&
            (r.value.aspectMask & AspectStencil != 0 <==> HasStencilComponent(format))
  {
  }

  /** The view type: the image's own dimension for one layer, an array view for more, with 3D becoming a cube array. */
  function ViewTypeFor(t: ImageType, arrayLayerCount: nat): (r: ImageViewType)
    ensures arrayLayerCount < 2 ==> r in {View1D, View2D, View3D}
    ensures arrayLayerCount >= 2 ==> r in {View1DArray, View2DArray, ViewCubeArray}
    ensures t == Image3D && arrayLayerCount >= 2 ==> r == ViewCubeArray
  {
    if arrayLayerCount < 2 then
      match t
      case Image1D => View1D
      case Image2D => View2D
      case Image3D => View3D
    else
      match t
      case Image1D => View1DArray
      case Image2D => View2DArray
      case Image3D => ViewCubeArray
  }

  /** ImageViewType and layer count determine each other's class: one to one per image type. */
  lemma ViewTypeInjective(t1: ImageType, t2: ImageType, n1: nat, n2: nat)
    requires (n1 < 2) == (n2 < 2)
    ensures ViewTypeFor(t1, n1) == ViewTypeFor(t2, n2) ==> t1 == t2
  {
  }

  /** One halving step of a mip dimension: halve while above 1. */
  function Halve(x: int): int
  {
    if x > 1 then x / 2 else x
  }

  /** A mip dimension after `k` halvings. */
  function MipDim(x: int, k: nat): int
  {
    if k == 0 then x else Halve(MipDim(x, k - 1))
  }

  /** A blit from mip level `src` to `dst` with the source and destination extents. */
  datatype Blit = Blit(src: nat, dst: nat, srcWidth: int, srcHeight: int, dstWidth: int, dstHeight: int)

  /** The blit destination in the source: half the source, and never below 1. */
  function BlitTarget(x: int): (r: int)
    ensures r >= 1
    ensures x > 1 ==> r == x / 2
  {
    if x > 1 then x / 2 else 1
  }

  /** The blit that fills level k + 1 from level k. */
  function MipBlit(width: int, height: int, k: nat): Blit
  {
    Blit(k, k + 1, MipDim(width, k), MipDim(height, k),
         BlitTarget(MipDim(width, k)), BlitTarget(MipDim(height, k)))
  }

  /** k + 1 halvings are one halving followed by k more. */
  lemma {:induction false} MipDimShift(x: int, k: nat)
    ensures MipDim(x, k + 1) == MipDim(Halve(x), k)
  {
    if k > 0 {
      MipDimShift(x, k - 1);
    }
  }

  /** Halving n floor(log2 n) times reaches one texel. */
  lemma {:induction false} HalvingReachesOne(n: nat)
    requires n >= 1
    ensures MipDim(n, Log2Floor(n)) == 1
  {
    if n > 1 {
      MipDimShift(n, Log2Floor(n / 2));
      HalvingReachesOne(n / 2);
    }
  }

  /** The mip chain of the largest dimension ends at a single texel in the last level. */
  lemma LastLevelIsOneTexel(width: nat, height: nat, depth: nat)
    requires width >= 1 && height >= 1 && depth >= 1
    ensures var n := Max3(width, height, depth);
            MipDim(n, MipLevelCount(width, height, depth, true) - 1) == 1
  {
    HalvingReachesOne(Max3(width, height, depth));
  }

  datatype MipMapError = NoLinearBlit

  /** One texture image: the fields of its ImageInfo that the model follows. */
  class ImageInfo {
    var layout: ImageLayout
    const imageType: ImageType
    const width: nat
    const height: nat
    const depth: nat
    const imageFormat: Format
    const usage: bv32
    const mipLevels: nat
    const arrayLayerCount: nat
    const generateMipMaps: bool

    /**
     * The Texture constructor's ImageInfo: the mip-level count and usage
     * follow from the mip-map choice, and the image starts undefined.
     */
    constructor (t: ImageType, w: nat, h: nat, d: nat, format: Format, generate: bool, use: bv32, layers: nat)
      requires w >= 1 && h >= 1 && d >= 1
      ensures layout == Undefined && imageType == t && imageFormat == format && arrayLayerCount == layers
      ensures width == w && height == h && depth == d && generateMipMaps == generate
      ensures mipLevels == MipLevelCount(w, h, d, generate)
      ensures usage == TextureUsage(use, generate)
    {
      layout := Undefined;
      imageType, width, height, depth, imageFormat := t, w, h, d, format;
      generateMipMaps, arrayLayerCount := generate, layers;
      mipLevels := MipLevelCount(w, h, d, generate);
      usage := TextureUsage(use, generate);
    }

    /**
     * EnqueueTransitionImageLayout: records the barrier from the current
     * layout to `newLayout` and makes it the current layout; an unsupported
     * old or new layout fails and keeps the layout.
     */
    method EnqueueTransitionImageLayout(newLayout: ImageLayout) returns (r: Result<Barrier, TransitionError>)
      modifies this`layout
      ensures r == TransitionBarrier(old(layout), newLayout, imageFormat, mipLevels, arrayLayerCount)
      ensures layout == if r.Ok? then newLayout else old(layout)
    {
      r := TransitionBarrier(layout, newLayout, imageFormat, mipLevels, arrayLayerCount);
      if r.Ok? {
        layout := newLayout;
      }
    }

    /**
     * CreateTransitionImageLayout: only undefined to transfer destination,
     * transfer destination to shader read, and undefined to depth
     * attachment are allowed; the transition is then enqueued.
     */
    method CreateTransitionImageLayout(newLayout: ImageLayout) returns (r: Result<Barrier, TransitionError>)
      modifies this`layout
      ensures AllowedOneShot(old(layout), newLayout) ==>
                r == TransitionBarrier(old(layout), newLayout, imageFormat, mipLevels, arrayLayerCount) &&
                r.Ok? && layout == newLayout
      ensures !AllowedOneShot(old(layout), newLayout) ==> r == Err(UnsupportedTransition) && layout == old(layout)
    {
      if !AllowedOneShot(layout, newLayout) {
        return Err(UnsupportedTransition);
      }
      r := EnqueueTransitionImageLayout(newLayout);
    }

    /**
     * EnqueueGenerateMipMaps: fails unless the format supports linear
     * blits; otherwise blits level i from level i - 1 for every level,
     * halving the extent each time, and leaves the image ready for shaders.
     */
    method EnqueueGenerateMipMaps(linearBlitSupported: bool) returns (r: Result<seq<Blit>, MipMapError>)
      modifies this`layout
      ensures !linearBlitSupported ==> r == Err(NoLinearBlit) && layout == old(layout)
      ensures linearBlitSupported ==> r.Ok? && layout == ShaderReadOnlyOptimal
      ensures r.Ok? ==> |r.value| == if mipLevels > 0 then mipLevels - 1 else 0
      ensures r.Ok? ==> forall k :: 0 <= k < |r.value| ==> r.value[k] == MipBlit(width, height, k)
    {
      if !linearBlitSupported {
        return Err(NoLinearBlit);
      }
      var blits: seq<Blit> := [];
      var mipWidth: int := width;
      var mipHeight: int := height;
      var i := 1;
      while i < mipLevels
        invariant 1 <= i && (mipLevels > 0 ==> i <= mipLevels) && (mipLevels == 0 ==> i == 1)
        invariant |blits| == i - 1
        invariant mipWidth == MipDim(width, i - 1) && mipHeight == MipDim(height, i - 1)
        invariant forall k :: 0 <= k < |blits| ==> blits[k] == MipBlit(width, height, k)
      {
        var dstWidth := if mipWidth > 1 then mipWidth / 2 else 1;
        var dstHeight := if mipHeight > 1 then mipHeight / 2 else 1;
        blits := blits + [Blit(i - 1, i, mipWidth, mipHeight, dstWidth, dstHeight)];
        if mipWidth > 1 { mipWidth := mipWidth / 2; }
        if mipHeight > 1 { mipHeight := mipHeight / 2; }
        i := i + 1;
      }
      layout := ShaderReadOnlyOptimal;
      r := Ok(blits);
    }
  }

  /** The (old, new) pairs CreateTransitionImageLayout accepts. */
  predicate AllowedOneShot(from: ImageLayout, to: ImageLayout)
  {
    (from == Undefined && to == TransferDstOptimal) ||
    (from == TransferDstOptimal && to == ShaderReadOnlyOptimal) ||
    (from == Undefined && to == DepthAttachmentOptimal)
  }

  /** Every blit writes an extent of at least one texel and halves whatever is above one. */
  lemma BlitHalves(width: int, height: int, k: nat)
    ensures var b := MipBlit(width, height, k);
            b.dstWidth >= 1 && b.dstHeight >= 1 &&
            (b.srcWidth > 1 ==> b.dstWidth == b.srcWidth / 2) &&
            (b.srcHeight > 1 ==> b.dstHeight == b.srcHeight / 2) &&
            b.dst == b.src + 1
  {
  }

  /** The properties of a format for linear and for optimal tiling. */
  datatype FormatProperties = FormatProperties(linearTilingFeatures: bv32, optimalTilingFeatures: bv32)

  /** The format offers the features with the given tiling (neither, for any other tiling). */
  predicate Supports(p: FormatProperties, tiling: ImageTiling, features: bv32)
  {
    (tiling == Linear && p.linearTilingFeatures & features == features) ||
    (tiling == Optimal && p.optimalTilingFeatures & features == features)
  }

  /** The first candidate supporting the features with the tiling. */
  function FirstSupported(candidates: seq<Format>, propertiesOf: Format -> FormatProperties,
                          tiling: ImageTiling, features: bv32): Option<Format>
  {
    if candidates == [] then None
    else if Supports(propertiesOf(candidates[0]), tiling, features) then Some(candidates[0])
    else FirstSupported(candidates[1..], propertiesOf, tiling, features)
  }

  /** FirstSupported finds a supporting candidate with none before it, and None only when no candidate supports. */
  lemma {:induction false} FirstSupportedIsFirst(candidates: seq<Format>, propertiesOf: Format -> FormatProperties,
                                                 tiling: ImageTiling, features: bv32)
    ensures var r := FirstSupported(candidates, propertiesOf, tiling, features);
            (r.Some? ==> exists i :: 0 <= i < |candidates| && candidates[i] == r.value &&
                           Supports(propertiesOf(candidates[i]), tiling, features) &&
                           forall j :: 0 <= j < i ==> !Supports(propertiesOf(candidates[j]), tiling, features)) &&
            (r.None? <==> forall j :: 0 <= j < |candidates| ==> !Supports(propertiesOf(candidates[j]), tiling, features))
  {
    if candidates != [] && !Supports(propertiesOf(candidates[0]), tiling, features) {
      var tail := candidates[1..];
      FirstSupportedIsFirst(tail, propertiesOf, tiling, features);
      var r := FirstSupported(tail, propertiesOf, tiling, features);
      if r.Some? {
        var i :| 0 <= i < |tail| && tail[i] == r.value &&
                 Supports(propertiesOf(tail[i]), tiling, features) &&
                 forall j :: 0 <= j < i ==> !Supports(propertiesOf(tail[j]), tiling, features);
        assert candidates[i + 1] == tail[i];
        forall j | 0 <= j < i + 1
          ensures !Supports(propertiesOf(candidates[j]), tiling, features)
        {
          if j > 0 { assert candidates[j] == tail[j - 1]; }
        }
      }
      if r.None? {
        forall j | 0 <= j < |candidates|
          ensures !Supports(propertiesOf(candidates[j]), tiling, features)
        {
          if j > 0 { assert candidates[j] == tail[j - 1]; }
        }
      }
    }
  }

  /**
   * FindSupportedFormat: the first candidate whose features for the tiling
   * cover the request, or None for the runtime_error.
   */
  method FindSupportedFormat(candidates: seq<Format>, propertiesOf: Format -> FormatProperties,
                             tiling: ImageTiling, features: bv32) returns (r: Option<Format>)
    ensures r == FirstSupported(candidates, propertiesOf, tiling, features)
  {
    for i := 0 to |candidates|
      invariant FirstSupported(candidates, propertiesOf, tiling, features) ==
                FirstSupported(candidates[i..], propertiesOf, tiling, features)
    {
      assert candidates[i..][1..] == candidates[i + 1..];
      if Supports(propertiesOf(candidates[i]), tiling, features) {
        return Some(candidates[i]);
      }
    }
    return None;
  }

  /** VK_FORMAT_FEATURE_DEPTH_STENCIL_ATTACHMENT_BIT. */
  const DepthStencilAttachmentFeature: bv32 := 0x200

  /**
   * FindDepthFormat: the first of D32Sfloat, D32SfloatS8Uint and
   * D24UnormS8Uint usable as an optimally tiled depth attachment.
   */
  method FindDepthFormat(propertiesOf: Format -> FormatProperties) returns (r: Option<Format>)
    ensures Supports(propertiesOf(D32Sfloat), Optimal, DepthStencilAttachmentFeature) ==> r == Some(D32Sfloat)
    ensures r == Some(D32SfloatS8Uint) <==>
              !Supports(propertiesOf(D32Sfloat), Optimal, DepthStencilAttachmentFeature) &&
              Supports(propertiesOf(D32SfloatS8Uint), Optimal, DepthStencilAttachmentFeature)
    ensures r == Some(D24UnormS8Uint) <==>
              !Supports(propertiesOf(D32Sfloat), Optimal, DepthStencilAttachmentFeature) &&
              !Supports(propertiesOf(D32SfloatS8Uint), Optimal, DepthStencilAttachmentFeature) &&
              Supports(propertiesOf(D24UnormS8Uint), Optimal, DepthStencilAttachmentFeature)
    ensures r.Some? ==> r.value in [D32Sfloat, D32SfloatS8Uint, D24UnormS8Uint]
    ensures r == FirstSupported([D32Sfloat, D32SfloatS8Uint, D24UnormS8Uint], propertiesOf, Optimal, DepthStencilAttachmentFeature)
    ensures r.Some? ==> Supports(propertiesOf(r.value), Optimal, DepthStencilAttachmentFeature)
    ensures r.None? <==> forall f :: f in [D32Sfloat, D32SfloatS8Uint, D24UnormS8Uint] ==>
                          !Supports(propertiesOf(f), Optimal, DepthStencilAttachmentFeature)
  {
    r := FindSupportedFormat([D32Sfloat, D32SfloatS8Uint, D24UnormS8Uint], propertiesOf,
                             Optimal, DepthStencilAttachmentFeature);
  }
}
